/**
 * `process_oda_info` and its three helpers: for every run that annotates an
 * activity whose association has a plan, link the run's astroquery module to
 * the plan and to the requested astrophysical object, region or image, give
 * the region's and image's parameter sub-nodes a `defaultValue` built from
 * their titles, and drop the run's `isUsing` and request triples.
 */
module Oda {
  import opened Wrappers
  import opened Texts
  import opened Rdf

  // ---------------------------------------------------------------------
  // Sub-node values

  /** The parameter sub-nodes of a region (sky coordinates, radius) and of an image (the other five). */
  datatype SubKind = SkyCoordinates | RegionRadius | Coordinates | Position | ImageRadius | Pixels | ImageBand

  /** The predicate leading from the region or image to the sub-node. */
  function SubPredicate(k: SubKind): Node
  {
    match k
    case SkyCoordinates => OdaIsUsingSkyCoordinates
    case RegionRadius => OdaIsUsingRadius
    case Coordinates => OdaIsUsingCoordinates
    case Position => OdaIsUsingPosition
    case ImageRadius => OdaIsUsingRadius
    case Pixels => OdaIsUsingPixels
    case ImageBand => OdaIsUsingImageBand
  }

  /** `.value` of a title: the lexical form of a literal; an IRI has no `value` attribute. */
  function TitleText(n: Node): Outcome<string>
  {
    match n
    case Lit(s) => Done(s)
    case IRI(_) => Failed(AttributeError)
  }

  /**
   * The `defaultValue` text computed from a sub-node's title, `None` when the
   * source adds nothing (coordinates that are not a single token).
   */
  function SubValue(h: Helpers, k: SubKind, title: string): Outcome<Option<string>>
  {
    var cs := Split(title, ' ');
    match k
    case SkyCoordinates =>
      if |cs| < 2 then Failed(IndexError)
      else (match h.skyCoord(cs[0], cs[1])
        case None => Failed(ParseError)
        case Some(deg) => Done(Some("RA=" + deg.0 + " deg " + " Dec=" + deg.1 + " deg")))
    case RegionRadius =>
      (match h.arcmin(title)
        case None => Failed(ParseError)
        case Some(a) => Done(Some(a + " arcmin")))
    case Coordinates =>
      if |cs| == 1 then Done(Some(Join(cs, ","))) else Done(None)
    case Position =>
      if |cs| == 2 then
        (match h.skyCoord(cs[0], cs[1])
          case None => Failed(ParseError)
          case Some(deg) => Done(Some(deg.1 + " " + deg.0 + " unit=deg")))
      else Done(Some(Join(cs, ",")))
    case ImageRadius =>
      (match h.arcmin(title)
        case None => Failed(ParseError)
        case Some(a) => Done(Some(a + " unit=arcmin")))
    case Pixels => Done(Some(Join(cs, ",")))
    case ImageBand => Done(Some(title))
  }

  /**
   * A region's sky coordinates fail with `IndexError` exactly when the title
   * has no space; otherwise they are the conversion of the text before the
   * first space and the text between the first and the second space.
   */
  lemma SkyCoordinatesValue(h: Helpers, title: string)
    ensures SubValue(h, SkyCoordinates, title) == Failed(IndexError) <==> ' ' !in title
    ensures ' ' in title ==>
              SubValue(h, SkyCoordinates, title)
              == match h.skyCoord(Before(title, ' '), Before(After(title, ' '), ' '))
                 case None => Failed(ParseError)
                 case Some(deg) => Done(Some("RA=" + deg.0 + " deg " + " Dec=" + deg.1 + " deg"))
  {
    SplitSingle(title, ' ');
    if ' ' in title {
      SplitFirst(title, ' ');
      SplitFirst(After(title, ' '), ' ');
    }
  }

  /** Coordinates get a value only when the title is a single token, and the value is the title. */
  lemma CoordinatesValue(h: Helpers, title: string)
    ensures SubValue(h, Coordinates, title) == if ' ' in title then Done(None) else Done(Some(title))
  {
    SplitSingle(title, ' ');
  }

  /**
   * A position title of exactly two tokens is converted as declination,
   * right ascension; any other title has its spaces turned into commas.
   */
  lemma PositionValue(h: Helpers, title: string)
    ensures Count(title, ' ') != 1 ==> SubValue(h, Position, title) == Done(Some(ReplaceChar(title, ' ', ',')))
    ensures Count(title, ' ') == 1 ==>
              ' ' in title &&
              SubValue(h, Position, title)
              == match h.skyCoord(Before(title, ' '), After(title, ' '))
                 case None => Failed(ParseError)
                 case Some(deg) => Done(Some(deg.1 + " " + deg.0 + " unit=deg"))
  {
    var cs := Split(title, ' ');
    if Count(title, ' ') == 1 {
      CountZero(title, ' ');
      SplitFirst(title, ' ');
      var rest := Split(After(title, ' '), ' ');
      assert |rest| == 1;
      SplitSingle(After(title, ' '), ' ');
      assert cs == [cs[0]] + cs[1..];
      assert cs[0] == Before(title, ' ') && cs[1] == After(title, ' ');
    } else {
      JoinSplitReplaces(title, ' ', ',');
      assert |cs| != 2;
    }
  }

  /** Pixels: the title's space-separated tokens joined by commas, that is every space turned into a comma. */
  lemma PixelsValue(h: Helpers, title: string)
    ensures SubValue(h, Pixels, title) == Done(Some(ReplaceChar(title, ' ', ',')))
    ensures SubValue(h, Pixels, title) == Done(Some(Join(Split(title, ' '), ",")))
  {
    JoinSplitReplaces(title, ' ', ',');
  }

  /**
   * The triple a sub-node pass adds: the `defaultValue` of the one node the
   * owner reaches under the kind's predicate, provided that node has one
   * title; nothing when either is missing or ambiguous.
   */
  ghost function SubAdds(g: set<Triple>, h: Helpers, owner: Node, k: SubKind): (r: Outcome<set<Triple>>)
    ensures r.Done? ==> forall t :: t in r.value ==> t.1 == SchemaDefaultValue
  {
    var ns := Objects(g, owner, SubPredicate(k));
    if |ns| != 1 then Done({})
    else
      var n := TheOne(ns);
      var ts := Objects(g, n, DctermsTitle);
      if |ts| != 1 then Done({})
      else match TitleText(TheOne(ts))
        case Failed(e) => Failed(e)
        case Done(title) =>
          match SubValue(h, k, title)
          case Failed(e) => Failed(e)
          case Done(None) => Done({})
          case Done(Some(v)) => Done({(n, SchemaDefaultValue, Lit(v))})
  }

  /**
   * A sub-node pass adds at most one triple, and only when the owner has
   * exactly one such sub-node and that node exactly one literal title: the
   * node's `defaultValue`, computed from that title.
   */
  lemma SubAddsShape(g: set<Triple>, h: Helpers, owner: Node, k: SubKind)
    ensures |Objects(g, owner, SubPredicate(k))| != 1 ==> SubAdds(g, h, owner, k) == Done({})
    ensures SubAdds(g, h, owner, k).Done? ==> |SubAdds(g, h, owner, k).value| <= 1
    ensures SubAdds(g, h, owner, k).Done? ==>
              forall t :: t in SubAdds(g, h, owner, k).value ==>
                Objects(g, owner, SubPredicate(k)) == {t.0} && t.1 == SchemaDefaultValue
                && exists title :: Objects(g, t.0, DctermsTitle) == {Lit(title)} && SubValue(h, k, title) == Done(Some(Text(t.2)))
  {
    var ns := Objects(g, owner, SubPredicate(k));
    if |ns| == 1 {
      TheOneIn(ns);
      var ts := Objects(g, TheOne(ns), DctermsTitle);
      if |ts| == 1 {
        TheOneIn(ts);
      }
    }
  }

  lemma SubAddsAgree(g1: set<Triple>, g2: set<Triple>, h: Helpers, owner: Node, k: SubKind)
    requires AgreeOn(g1, g2, SubPredicate(k)) && AgreeOn(g1, g2, DctermsTitle)
    ensures SubAdds(g1, h, owner, k) == SubAdds(g2, h, owner, k)
  {
    ObjectsAgree(g1, g2, owner, SubPredicate(k));
    var ns := Objects(g1, owner, SubPredicate(k));
    if |ns| == 1 {
      ObjectsAgree(g1, g2, TheOne(ns), DctermsTitle);
    }
  }

  /** Lines 642-709 for one sub-node: add its `defaultValue` when it and its title are unique. */
  method AddSubNodeValue(g: Graph, h: Helpers, owner: Node, k: SubKind) returns (r: Outcome<()>)
    modifies g
    ensures SubAdds(old(g.triples), h, owner, k).Failed? ==>
              r == Failed(SubAdds(old(g.triples), h, owner, k).reason) && g.triples == old(g.triples)
    ensures SubAdds(old(g.triples), h, owner, k).Done? ==>
              r == Done(()) && g.triples == old(g.triples) + SubAdds(old(g.triples), h, owner, k).value
  {
    var ns := Objects(g.triples, owner, SubPredicate(k));
    if |ns| == 1 {
      var n :| n in ns;
      TheOneIs(ns, n);
      var ts := Objects(g.triples, n, DctermsTitle);
      if |ts| == 1 {
        var ti :| ti in ts;
        TheOneIs(ts, ti);
        var title := TitleText(ti);
        if title.Failed? {
          return Failed(title.reason);
        }
        var v := SubValue(h, k, title.value);
        if v.Failed? {
          return Failed(v.reason);
        }
        if v.value.Some? {
          g.Add((n, SchemaDefaultValue, Lit(v.value.value)));
        }
      }
    }
    return Done(());
  }

  // ---------------------------------------------------------------------
  // One run

  /** The predicates of every triple the oda passes add. */
  const AddedPredicates: set<Node> := {
    OdaIsUsedDuring, OdaRequestsAstroObject, OdaRequestsAstroRegion, OdaRequestsAstroImage, SchemaDefaultValue
  }

  /** The run triples the clean-up at lines 559-570 removes. */
  const CleanupPredicates: set<Node> := {
    OdaIsUsing, OdaIsRequestingAstroRegion, OdaIsRequestingAstroObject, OdaIsRequestingAstroImage
  }

  /** The triples carry only the added predicates. */
  ghost predicate OnlyAdded(extra: set<Triple>)
  {
    forall t :: t in extra ==> t.1 in AddedPredicates
  }

  /** Failures propagate in order; otherwise the added triples accumulate. */
  function Also(a: Outcome<set<Triple>>, b: Outcome<set<Triple>>): Outcome<set<Triple>>
  {
    if a.Failed? then a else if b.Failed? then b else Done(a.value + b.value)
  }

  /**
   * When the run requests something under `isReq`: the module's
   * `isUsedDuring` link to the plan and its `req` link to the first request.
   */
  function RequestLinks(g: set<Triple>, h: Helpers, run: Node, m: Node, action: Node, isReq: Node, req: Node): set<Triple>
  {
    var xs := Objects(g, run, isReq);
    if xs == {} then {} else {(m, OdaIsUsedDuring, action), (m, req, h.first(xs))}
  }

  /** `process_query_object_info`: link the module to the plan and to the first requested object. */
  function ObjectAdds(g: set<Triple>, h: Helpers, run: Node, m: Node, action: Node): set<Triple>
  {
    RequestLinks(g, h, run, m, action, OdaIsRequestingAstroObject, OdaRequestsAstroObject)
  }

  /** `process_query_region_info`: as for objects, then the region's sky coordinates and radius. */
  ghost function RegionAdds(g: set<Triple>, h: Helpers, run: Node, m: Node, action: Node): Outcome<set<Triple>>
  {
    var regions := Objects(g, run, OdaIsRequestingAstroRegion);
    if regions == {} then Done({})
    else
      var region := h.first(regions);
      Also(Done({(m, OdaIsUsedDuring, action), (m, OdaRequestsAstroRegion, region)}),
           Also(SubAdds(g, h, region, SkyCoordinates), SubAdds(g, h, region, RegionRadius)))
  }

  /** `process_get_images_info`: as for objects, then the image's five parameter sub-nodes. */
  ghost function ImageAdds(g: set<Triple>, h: Helpers, run: Node, m: Node, action: Node): Outcome<set<Triple>>
  {
    var images := Objects(g, run, OdaIsRequestingAstroImage);
    if images == {} then Done({})
    else
      var image := h.first(images);
      Also(Done({(m, OdaIsUsedDuring, action), (m, OdaRequestsAstroImage, image)}), ImageSubAdds(g, h, image))
  }

  /** The five sub-node passes of an image, in the order of the source. */
  ghost function ImageSubAdds(g: set<Triple>, h: Helpers, image: Node): Outcome<set<Triple>>
  {
    Also(SubAdds(g, h, image, Coordinates), Also(SubAdds(g, h, image, Position), ImageTailAdds(g, h, image)))
  }

  /** The radius, pixels and image-band passes. */
  ghost function ImageTailAdds(g: set<Triple>, h: Helpers, image: Node): Outcome<set<Triple>>
  {
    Also(SubAdds(g, h, image, ImageRadius), Also(SubAdds(g, h, image, Pixels), SubAdds(g, h, image, ImageBand)))
  }

  /** What one visit of (run, plan) adds; `IndexError` when the run uses no module. */
  ghost function VisitAdds(g: set<Triple>, h: Helpers, run: Node, action: Node): Outcome<set<Triple>>
  {
    var modules := Objects(g, run, OdaIsUsing);
    if modules == {} then Failed(IndexError)
    else
      var m := h.first(modules);
      Also(Done(ObjectAdds(g, h, run, m, action)),
           Also(RegionAdds(g, h, run, m, action), ImageAdds(g, h, run, m, action)))
  }

  /** `ts` without the run's `isUsing` and request triples. */
  function StripRun(ts: set<Triple>, run: Node): set<Triple>
  {
    set t | t in ts && !(t.0 == run && t.1 in CleanupPredicates)
  }

  /** Two stores agree on everything a visit of `run` reads. */
  ghost predicate ReadsAgree(g1: set<Triple>, g2: set<Triple>, run: Node)
  {
    Objects(g1, run, OdaIsUsing) == Objects(g2, run, OdaIsUsing)
    && Objects(g1, run, OdaIsRequestingAstroObject) == Objects(g2, run, OdaIsRequestingAstroObject)
    && Objects(g1, run, OdaIsRequestingAstroRegion) == Objects(g2, run, OdaIsRequestingAstroRegion)
    && Objects(g1, run, OdaIsRequestingAstroImage) == Objects(g2, run, OdaIsRequestingAstroImage)
    && AgreeOn(g1, g2, DctermsTitle)
    && AgreeOn(g1, g2, OdaIsUsingSkyCoordinates) && AgreeOn(g1, g2, OdaIsUsingRadius)
    && AgreeOn(g1, g2, OdaIsUsingCoordinates) && AgreeOn(g1, g2, OdaIsUsingPosition)
    && AgreeOn(g1, g2, OdaIsUsingPixels) && AgreeOn(g1, g2, OdaIsUsingImageBand)
  }

  lemma VisitAddsAgree(g1: set<Triple>, g2: set<Triple>, h: Helpers, run: Node, action: Node)
    requires ReadsAgree(g1, g2, run)
    ensures VisitAdds(g1, h, run, action) == VisitAdds(g2, h, run, action)
  {
    var modules := Objects(g1, run, OdaIsUsing);
    if modules != {} {
      var m := h.first(modules);
      RegionAddsAgree(g1, g2, h, run, m, action);
      ImageAddsAgree(g1, g2, h, run, m, action);
    }
  }

  lemma RegionAddsAgree(g1: set<Triple>, g2: set<Triple>, h: Helpers, run: Node, m: Node, action: Node)
    requires ReadsAgree(g1, g2, run)
    ensures RegionAdds(g1, h, run, m, action) == RegionAdds(g2, h, run, m, action)
  {
    var regions := Objects(g1, run, OdaIsRequestingAstroRegion);
    if regions != {} {
      var region := h.first(regions);
      SubAddsAgree(g1, g2, h, region, SkyCoordinates);
      SubAddsAgree(g1, g2, h, region, RegionRadius);
    }
  }

  lemma ImageAddsAgree(g1: set<Triple>, g2: set<Triple>, h: Helpers, run: Node, m: Node, action: Node)
    requires ReadsAgree(g1, g2, run)
    ensures ImageAdds(g1, h, run, m, action) == ImageAdds(g2, h, run, m, action)
  {
    var images := Objects(g1, run, OdaIsRequestingAstroImage);
    if images != {} {
      var image := h.first(images);
      SubAddsAgree(g1, g2, h, image, Coordinates);
      SubAddsAgree(g1, g2, h, image, Position);
      SubAddsAgree(g1, g2, h, image, ImageRadius);
      SubAddsAgree(g1, g2, h, image, Pixels);
      SubAddsAgree(g1, g2, h, image, ImageBand);
    }
  }

  /** Adding triples under the added predicates changes nothing a visit reads. */
  lemma PlusAgrees(g: set<Triple>, extra: set<Triple>, run: Node)
    requires OnlyAdded(extra)
    ensures ReadsAgree(g + extra, g, run)
  {
    ObjectsPlus(g, extra, run, OdaIsUsing);
    ObjectsPlus(g, extra, run, OdaIsRequestingAstroObject);
    ObjectsPlus(g, extra, run, OdaIsRequestingAstroRegion);
    ObjectsPlus(g, extra, run, OdaIsRequestingAstroImage);
  }

  /** Every triple of a successful outcome carries one of the added predicates. */
  ghost predicate AddsOnly(o: Outcome<set<Triple>>)
  {
    o.Done? ==> forall t :: t in o.value ==> t.1 in AddedPredicates
  }

  lemma AlsoAddsOnly(a: Outcome<set<Triple>>, b: Outcome<set<Triple>>)
    requires AddsOnly(a) && AddsOnly(b)
    ensures AddsOnly(Also(a, b))
  {
  }

  lemma SubAddsPredicates(g: set<Triple>, h: Helpers, owner: Node, k: SubKind)
    ensures AddsOnly(SubAdds(g, h, owner, k))
  {
  }

  lemma RegionAddsPredicates(g: set<Triple>, h: Helpers, run: Node, m: Node, action: Node)
    ensures AddsOnly(RegionAdds(g, h, run, m, action))
  {
    var regions := Objects(g, run, OdaIsRequestingAstroRegion);
    if regions != {} {
      var region := h.first(regions);
      SubAddsPredicates(g, h, region, SkyCoordinates);
      SubAddsPredicates(g, h, region, RegionRadius);
      AlsoAddsOnly(SubAdds(g, h, region, SkyCoordinates), SubAdds(g, h, region, RegionRadius));
    }
  }

  lemma ImageAddsPredicates(g: set<Triple>, h: Helpers, run: Node, m: Node, action: Node)
    ensures AddsOnly(ImageAdds(g, h, run, m, action))
  {
    var images := Objects(g, run, OdaIsRequestingAstroImage);
    if images != {} {
      var image := h.first(images);
      assert ImageAdds(g, h, run, m, action) == Also(Done({(m, OdaIsUsedDuring, action), (m, OdaRequestsAstroImage, image)}), ImageSubAdds(g, h, image));
      var c := SubAdds(g, h, image, Coordinates);
      var p := SubAdds(g, h, image, Position);
      var r := SubAdds(g, h, image, ImageRadius);
      var x := SubAdds(g, h, image, Pixels);
      var b := SubAdds(g, h, image, ImageBand);
      SubAddsPredicates(g, h, image, Coordinates);
      SubAddsPredicates(g, h, image, Position);
      SubAddsPredicates(g, h, image, ImageRadius);
      SubAddsPredicates(g, h, image, Pixels);
      SubAddsPredicates(g, h, image, ImageBand);
      AlsoAddsOnly(x, b);
      AlsoAddsOnly(r, Also(x, b));
      AlsoAddsOnly(p, Also(r, Also(x, b)));
      AlsoAddsOnly(c, Also(p, Also(r, Also(x, b))));
    }
  }

  /** Every triple a visit adds carries one of the added predicates. */
  lemma VisitAddsPredicates(g: set<Triple>, h: Helpers, run: Node, action: Node)
    ensures AddsOnly(VisitAdds(g, h, run, action))
  {
    var modules := Objects(g, run, OdaIsUsing);
    if modules != {} {
      var m := h.first(modules);
      RegionAddsPredicates(g, h, run, m, action);
      ImageAddsPredicates(g, h, run, m, action);
      AlsoAddsOnly(RegionAdds(g, h, run, m, action), ImageAdds(g, h, run, m, action));
    }
  }

  /**
   * Lines 573-584. The helpers run after earlier passes have added `added`
   * to the store `g0`; what they read is unaffected by those additions.
   */
  method ProcessQueryObjectInfo(g: Graph, h: Helpers, ghost g0: set<Triple>, ghost added: set<Triple>, run: Node, m: Node, action: Node)
    requires g.triples == g0 + added && OnlyAdded(added)
    modifies g
    ensures g.triples == g0 + added + ObjectAdds(g0, h, run, m, action)
    ensures OnlyAdded(added + ObjectAdds(g0, h, run, m, action))
  {
    PlusAgrees(g0, added, run);
    var objects := Objects(g.triples, run, OdaIsRequestingAstroObject);
    if objects != {} {
      g.Add((m, OdaIsUsedDuring, action));
      g.Add((m, OdaRequestsAstroObject, h.first(objects)));
    }
  }

  /** Lines 587-626; a raise leaves the store in an unspecified state, since it ends the whole pipeline. */
  method ProcessQueryRegionInfo(g: Graph, h: Helpers, ghost g0: set<Triple>, ghost added: set<Triple>, run: Node, m: Node, action: Node)
    returns (r: Outcome<()>)
    requires g.triples == g0 + added && OnlyAdded(added)
    modifies g
    ensures r.Failed? <==> RegionAdds(g0, h, run, m, action).Failed?
    ensures r.Failed? ==> r.reason == RegionAdds(g0, h, run, m, action).reason
    ensures r.Done? ==> g.triples == g0 + added + RegionAdds(g0, h, run, m, action).value
    ensures r.Done? ==> OnlyAdded(added + RegionAdds(g0, h, run, m, action).value)
  {
    hide SubAdds;
    PlusAgrees(g0, added, run);
    RegionAddsPredicates(g0, h, run, m, action);
    var regions := Objects(g.triples, run, OdaIsRequestingAstroRegion);
    if regions == {} {
      return Done(());
    }
    g.Add((m, OdaIsUsedDuring, action));
    var region := h.first(regions);
    g.Add((m, OdaRequestsAstroRegion, region));
    ghost var base := added + {(m, OdaIsUsedDuring, action), (m, OdaRequestsAstroRegion, region)};
    ghost var sky := SubAdds(g0, h, region, SkyCoordinates);
    r := NextSubNode(g, h, g0, base, region, SkyCoordinates);
    if r.Failed? {
      return;
    }
    r := NextSubNode(g, h, g0, base + sky.value, region, RegionRadius);
  }

  /** Lines 629-709. */
  method ProcessGetImagesInfo(g: Graph, h: Helpers, ghost g0: set<Triple>, ghost added: set<Triple>, run: Node, m: Node, action: Node)
    returns (r: Outcome<()>)
    requires g.triples == g0 + added && OnlyAdded(added)
    modifies g
    ensures r.Failed? <==> ImageAdds(g0, h, run, m, action).Failed?
    ensures r.Failed? ==> r.reason == ImageAdds(g0, h, run, m, action).reason
    ensures r.Done? ==> g.triples == g0 + added + ImageAdds(g0, h, run, m, action).value
  {
    hide ImageSubAdds, ImageTailAdds, SubAdds;
    PlusAgrees(g0, added, run);
    var images := Objects(g.triples, run, OdaIsRequestingAstroImage);
    if images == {} {
      return Done(());
    }
    g.Add((m, OdaIsUsedDuring, action));
    var image := h.first(images);
    g.Add((m, OdaRequestsAstroImage, image));
    r := ImageSubNodes(g, h, g0, added + {(m, OdaIsUsedDuring, action), (m, OdaRequestsAstroImage, image)}, image);
  }

  /** Lines 642-709: the five sub-node blocks of `process_get_images_info`. */
  method ImageSubNodes(g: Graph, h: Helpers, ghost g0: set<Triple>, ghost added: set<Triple>, image: Node)
    returns (r: Outcome<()>)
    requires g.triples == g0 + added && OnlyAdded(added)
    modifies g
    ensures r.Failed? <==> ImageSubAdds(g0, h, image).Failed?
    ensures r.Failed? ==> r.reason == ImageSubAdds(g0, h, image).reason
    ensures r.Done? ==> g.triples == g0 + added + ImageSubAdds(g0, h, image).value
  {
    hide SubAdds, ImageTailAdds;
    ghost var c, p := SubAdds(g0, h, image, Coordinates), SubAdds(g0, h, image, Position);
    r := NextSubNode(g, h, g0, added, image, Coordinates);
    if r.Failed? { return; }
    r := NextSubNode(g, h, g0, added + c.value, image, Position);
    if r.Failed? { return; }
    r := ImageTailNodes(g, h, g0, added + c.value + p.value, image);
  }

  /** The radius, pixels and image-band blocks (lines 673-709). */
  method ImageTailNodes(g: Graph, h: Helpers, ghost g0: set<Triple>, ghost added: set<Triple>, image: Node)
    returns (r: Outcome<()>)
    requires g.triples == g0 + added && OnlyAdded(added)
    modifies g
    ensures r.Failed? <==> ImageTailAdds(g0, h, image).Failed?
    ensures r.Failed? ==> r.reason == ImageTailAdds(g0, h, image).reason
    ensures r.Done? ==> g.triples == g0 + added + ImageTailAdds(g0, h, image).value
  {
    hide SubAdds;
    ghost var rad, x := SubAdds(g0, h, image, ImageRadius), SubAdds(g0, h, image, Pixels);
    r := NextSubNode(g, h, g0, added, image, ImageRadius);
    if r.Failed? { return; }
    r := NextSubNode(g, h, g0, added + rad.value, image, Pixels);
    if r.Failed? { return; }
    r := NextSubNode(g, h, g0, added + rad.value + x.value, image, ImageBand);
  }

  /** One sub-node step of a pass that has already added `added` to `g0`. */
  method NextSubNode(g: Graph, h: Helpers, ghost g0: set<Triple>, ghost added: set<Triple>, owner: Node, k: SubKind)
    returns (r: Outcome<()>)
    requires g.triples == g0 + added && OnlyAdded(added)
    modifies g
    ensures r.Failed? <==> SubAdds(g0, h, owner, k).Failed?
    ensures r.Failed? ==> r.reason == SubAdds(g0, h, owner, k).reason
    ensures r.Done? ==> g.triples == g0 + added + SubAdds(g0, h, owner, k).value
    ensures r.Done? ==> OnlyAdded(added + SubAdds(g0, h, owner, k).value)
  {
    PlusAgrees(g0, added, owner);
    SubAddsAgree(g.triples, g0, h, owner, k);
    SubAddsPredicates(g0, h, owner, k);
    r := AddSubNodeValue(g, h, owner, k);
  }

  /** Removing a run's clean-up triples and adding triples under the added predicates commute. */
  lemma StripRunPlus(ts: set<Triple>, extra: set<Triple>, run: Node)
    requires forall t :: t in extra ==> t.1 in AddedPredicates
    ensures StripRun(ts + extra, run) == StripRun(ts, run) + extra
  {
  }

  /** Lines 559-570: drop the run's `isUsing` and request triples. */
  method CleanupRun(g: Graph, run: Node)
    modifies g
    ensures g.triples == StripRun(old(g.triples), run)
  {
    g.Remove(Pattern(Some(run), Some(OdaIsUsing), None));
    g.Remove(Pattern(Some(run), Some(OdaIsRequestingAstroRegion), None));
    g.Remove(Pattern(Some(run), Some(OdaIsRequestingAstroObject), None));
    g.Remove(Pattern(Some(run), Some(OdaIsRequestingAstroImage), None));
  }

  /** Lines 548-570, the body of the innermost loop, for one (run, plan) visit. */
  method ProcessRun(g: Graph, h: Helpers, run: Node, action: Node) returns (r: Outcome<()>)
    modifies g
    ensures r.Failed? <==> VisitAdds(old(g.triples), h, run, action).Failed?
    ensures r.Failed? ==> r.reason == VisitAdds(old(g.triples), h, run, action).reason
    ensures r.Done? ==> g.triples == StripRun(old(g.triples), run) + VisitAdds(old(g.triples), h, run, action).value
  {
    hide SubAdds, ImageSubAdds, RegionAdds, ImageAdds, ObjectAdds;
    ghost var g0 := g.triples;
    var modules := Objects(g.triples, run, OdaIsUsing);
    if modules == {} {
      return Failed(IndexError);
    }
    var m := h.first(modules);
    ProcessQueryObjectInfo(g, h, g0, {}, run, m, action);
    ghost var objectAdds := ObjectAdds(g0, h, run, m, action);
    r := ProcessQueryRegionInfo(g, h, g0, objectAdds, run, m, action);
    if r.Failed? {
      return;
    }
    ghost var regionAdds := RegionAdds(g0, h, run, m, action).value;
    r := ProcessGetImagesInfo(g, h, g0, objectAdds + regionAdds, run, m, action);
    if r.Failed? {
      return;
    }
    CleanupRun(g, run);
    VisitAddsPredicates(g0, h, run, action);
    StripRunPlus(g0, VisitAdds(g0, h, run, action).value, run);
  }

  // ---------------------------------------------------------------------
  // All runs

  /** A visited chain: run, activity, association, plan. */
  type Path = (Node, Node, Node, Node)

  /** The chains the three loops of `process_oda_info` visit for the run/activity pairs `es`. */
  function PathsFrom(g: set<Triple>, es: set<(Node, Node)>): set<Path>
  {
    set e, q, a | e in es && q in Objects(g, e.1, ProvQualifiedAssociation) && a in Objects(g, q, ProvHadPlan) :: (e.0, e.1, q, a)
  }

  /** Every chain from a run's `hasTarget` to a plan. */
  function AllPaths(g: set<Triple>): set<Path>
  {
    PathsFrom(g, Edges(g, OaHasTarget))
  }

  /** The runs that reach a plan. */
  function PathRuns(g: set<Triple>): set<Node>
  {
    set p | p in AllPaths(g) :: p.0
  }

  /**
   * `process_oda_info` completes exactly when no run starts two
   * `hasTarget`/`qualifiedAssociation`/`hadPlan` chains (the second visit
   * would find its `isUsing` triples gone), even two chains to the same
   * plan, and every visit's module lookup and sub-node values succeed.
   */
  ghost predicate OdaOk(g: set<Triple>, h: Helpers)
  {
    (forall p, p' :: p in AllPaths(g) && p' in AllPaths(g) && p.0 == p'.0 ==> p == p')
    && (forall p :: p in AllPaths(g) ==> VisitAdds(g, h, p.0, p.3).Done?)
  }

  /** The triples the visits add, one visit per chain. */
  ghost function OdaAdds(g: set<Triple>, h: Helpers): set<Triple>
  {
    set p, t | p in AllPaths(g) && VisitAdds(g, h, p.0, p.3).Done? && t in VisitAdds(g, h, p.0, p.3).value :: t
  }

  /** `ts` without the clean-up triples of the runs `runs`. */
  function StripRuns(ts: set<Triple>, runs: set<Node>): set<Triple>
  {
    set t | t in ts && !(t.0 in runs && t.1 in CleanupPredicates)
  }

  /** The triples added by the visits recorded in `visits` (run to its chain). */
  ghost function AddsOf(g0: set<Triple>, h: Helpers, visits: map<Node, Path>): set<Triple>
  {
    set run, t | run in visits && VisitAdds(g0, h, run, visits[run].3).Done? && t in VisitAdds(g0, h, run, visits[run].3).value :: t
  }

  /**
   * The state after visiting the chains `done`: each visited run was visited
   * once, through the chain `visits` records, and the store is the original
   * without those runs' clean-up triples, plus what the visits added.
   */
  ghost predicate Visited(g0: set<Triple>, h: Helpers, g: set<Triple>, visits: map<Node, Path>, done: set<Path>)
  {
    VisitsRecorded(g0, h, visits, done) && g == StripRuns(g0, visits.Keys) + AddsOf(g0, h, visits)
  }

  /** Each visited run was visited once, through the chain `visits` records, and that visit succeeded. */
  ghost predicate VisitsRecorded(g0: set<Triple>, h: Helpers, visits: map<Node, Path>, done: set<Path>)
  {
    done <= AllPaths(g0)
    && (forall p :: p in done ==> p.0 in visits && visits[p.0] == p)
    && (forall run :: run in visits ==> visits[run] in done && visits[run].0 == run && VisitAdds(g0, h, run, visits[run].3).Done?)
  }

  lemma AddsOfPredicates(g0: set<Triple>, h: Helpers, visits: map<Node, Path>)
    ensures OnlyAdded(AddsOf(g0, h, visits))
  {
    forall run | run in visits {
      VisitAddsPredicates(g0, h, run, visits[run].3);
    }
  }

  /** For a run not yet visited the store still reads as the original. */
  lemma StrippedAgrees(g0: set<Triple>, runs: set<Node>, extra: set<Triple>, run: Node)
    requires OnlyAdded(extra) && run !in runs
    ensures ReadsAgree(StripRuns(g0, runs) + extra, g0, run)
  {
    var g := StripRuns(g0, runs) + extra;
    forall p | p in CleanupPredicates ensures Objects(g, run, p) == Objects(g0, run, p) {
      forall o ensures o in Objects(g, run, p) <==> o in Objects(g0, run, p) {
        ObjectsIn(g, run, p, o);
        ObjectsIn(g0, run, p, o);
      }
    }
  }

  /** The loops' own lookups (`qualifiedAssociation`, `hadPlan`) see the original store. */
  lemma StrippedObjects(g0: set<Triple>, runs: set<Node>, extra: set<Triple>, s: Node, p: Node)
    requires OnlyAdded(extra) && p !in AddedPredicates && p !in CleanupPredicates
    ensures Objects(StripRuns(g0, runs) + extra, s, p) == Objects(g0, s, p)
  {
    var g := StripRuns(g0, runs) + extra;
    forall o ensures o in Objects(g, s, p) <==> o in Objects(g0, s, p) {
      ObjectsIn(g, s, p, o);
      ObjectsIn(g0, s, p, o);
    }
  }

  /** A visited run has lost its `isUsing` triples, so a second visit raises `IndexError`. */
  lemma StrippedRunHasNoModule(g0: set<Triple>, runs: set<Node>, extra: set<Triple>, h: Helpers, run: Node, action: Node)
    requires OnlyAdded(extra) && run in runs
    ensures VisitAdds(StripRuns(g0, runs) + extra, h, run, action) == Failed(IndexError)
  {
    var g := StripRuns(g0, runs) + extra;
    forall o ensures o !in Objects(g, run, OdaIsUsing) {
      ObjectsIn(g, run, OdaIsUsing, o);
    }
    assert Objects(g, run, OdaIsUsing) == {};
  }

  lemma AddsOfStep(g0: set<Triple>, h: Helpers, visits: map<Node, Path>, run: Node, p: Path)
    requires run !in visits && VisitAdds(g0, h, run, p.3).Done?
    ensures AddsOf(g0, h, visits[run := p]) == AddsOf(g0, h, visits) + VisitAdds(g0, h, run, p.3).value
  {
    var v' := visits[run := p];
    forall t ensures t in AddsOf(g0, h, v') <==> t in AddsOf(g0, h, visits) + VisitAdds(g0, h, run, p.3).value {
      if t in VisitAdds(g0, h, run, p.3).value {
        assert v'[run] == p;
      }
      if t in AddsOf(g0, h, visits) {
        var x :| x in visits && VisitAdds(g0, h, x, visits[x].3).Done? && t in VisitAdds(g0, h, x, visits[x].3).value;
        assert x in v' && v'[x] == visits[x];
      }
    }
  }

  /** A second chain from a run already visited means the run starts two chains, whether or not they end at one plan. */
  lemma RevisitBreaks(g0: set<Triple>, h: Helpers, g: set<Triple>, visits: map<Node, Path>, done: set<Path>, p: Path)
    requires Visited(g0, h, g, visits, done) && p in AllPaths(g0) && p !in done && p.0 in visits
    ensures !OdaOk(g0, h)
  {
    assert visits[p.0] in AllPaths(g0) && visits[p.0] != p;
  }

  lemma StripRunsStep(g0: set<Triple>, runs: set<Node>, extra: set<Triple>, run: Node, more: set<Triple>)
    requires OnlyAdded(extra) && OnlyAdded(more)
    ensures StripRun(StripRuns(g0, runs) + extra, run) + more == StripRuns(g0, runs + {run}) + (extra + more)
  {
    StripRunPlus(StripRuns(g0, runs), extra, run);
    assert StripRun(StripRuns(g0, runs), run) == StripRuns(g0, runs + {run});
  }

  /** A successful first visit of a run extends the visited state by its chain. */
  lemma VisitedStep(g0: set<Triple>, h: Helpers, g: set<Triple>, visits: map<Node, Path>, done: set<Path>, p: Path)
    requires Visited(g0, h, g, visits, done) && p in AllPaths(g0) && p !in done && p.0 !in visits
    requires VisitAdds(g0, h, p.0, p.3).Done?
    ensures Visited(g0, h, StripRun(g, p.0) + VisitAdds(g0, h, p.0, p.3).value, visits[p.0 := p], done + {p})
  {
    var more := VisitAdds(g0, h, p.0, p.3).value;
    AddsOfPredicates(g0, h, visits);
    VisitAddsPredicates(g0, h, p.0, p.3);
    StripRunsStep(g0, visits.Keys, AddsOf(g0, h, visits), p.0, more);
    AddsOfStep(g0, h, visits, p.0, p);
    assert visits[p.0 := p].Keys == visits.Keys + {p.0};
    RecordedStep(g0, h, visits, done, p);
  }

  lemma RecordedStep(g0: set<Triple>, h: Helpers, visits: map<Node, Path>, done: set<Path>, p: Path)
    requires VisitsRecorded(g0, h, visits, done) && p in AllPaths(g0) && p !in done && p.0 !in visits
    requires VisitAdds(g0, h, p.0, p.3).Done?
    ensures VisitsRecorded(g0, h, visits[p.0 := p], done + {p})
  {
    var v' := visits[p.0 := p];
    forall q | q in done + {p} ensures q.0 in v' && v'[q.0] == q {
      if q != p {
        assert q.0 in visits && q.0 != p.0;
      }
    }
    forall run | run in v'
      ensures v'[run] in done + {p} && v'[run].0 == run && VisitAdds(g0, h, run, v'[run].3).Done?
    {
      if run != p.0 {
        assert v'[run] == visits[run];
      }
    }
  }

  /** One visit of the chain `p` (lines 548-570). */
  method VisitPath(g: Graph, h: Helpers, ghost g0: set<Triple>, ghost visits: map<Node, Path>, ghost done: set<Path>, p: Path)
    returns (r: Outcome<()>, ghost visits': map<Node, Path>, ghost done': set<Path>)
    requires Visited(g0, h, g.triples, visits, done) && p in AllPaths(g0) && p !in done
    modifies g
    ensures r.Done? ==> Visited(g0, h, g.triples, visits', done') && done' == done + {p}
    ensures r.Failed? ==> !OdaOk(g0, h)
  {
    ghost var gc := g.triples;
    visits', done' := visits, done;
    AddsOfPredicates(g0, h, visits);
    if p.0 in visits {
      StrippedRunHasNoModule(g0, visits.Keys, AddsOf(g0, h, visits), h, p.0, p.3);
      RevisitBreaks(g0, h, gc, visits, done, p);
    } else {
      StrippedAgrees(g0, visits.Keys, AddsOf(g0, h, visits), p.0);
      VisitAddsAgree(gc, g0, h, p.0, p.3);
    }
    r := ProcessRun(g, h, p.0, p.3);
    if r.Done? {
      VisitedStep(g0, h, gc, visits, done, p);
      visits', done' := visits[p.0 := p], done + {p};
    }
  }

  /** The chains through association `q` to the plans `plans`. */
  function PlanPaths(run: Node, act: Node, q: Node, plans: set<Node>): set<Path>
  {
    set a | a in plans :: (run, act, q, a)
  }

  /** The chains through the associations `qs` of activity `act`. */
  function AssociationPaths(g: set<Triple>, run: Node, act: Node, qs: set<Node>): set<Path>
  {
    set q, a | q in qs && a in Objects(g, q, ProvHadPlan) :: (run, act, q, a)
  }

  /** The loops' own lookups (`qualifiedAssociation`, `hadPlan`) see the original store. */
  lemma VisitedObjects(g0: set<Triple>, h: Helpers, g: set<Triple>, visits: map<Node, Path>, done: set<Path>, s: Node, p: Node)
    requires Visited(g0, h, g, visits, done) && p !in AddedPredicates && p !in CleanupPredicates
    ensures Objects(g, s, p) == Objects(g0, s, p)
  {
    AddsOfPredicates(g0, h, visits);
    StrippedObjects(g0, visits.Keys, AddsOf(g0, h, visits), s, p);
  }

  /** The loops' own predicates are neither added nor cleaned up by a visit. */
  lemma LoopPredicatesApart()
    ensures ProvHadPlan !in AddedPredicates && ProvHadPlan !in CleanupPredicates
    ensures ProvQualifiedAssociation !in AddedPredicates && ProvQualifiedAssociation !in CleanupPredicates
  {
  }

  lemma PathIn(g: set<Triple>, run: Node, act: Node, q: Node, a: Node)
    requires (run, act) in Edges(g, OaHasTarget) && q in Objects(g, act, ProvQualifiedAssociation) && a in Objects(g, q, ProvHadPlan)
    ensures (run, act, q, a) in AllPaths(g)
  {
    var e := (run, act);
    assert (e.0, e.1, q, a) in PathsFrom(g, Edges(g, OaHasTarget));
  }

  lemma PlanPathsFrom(g: set<Triple>, run: Node, act: Node, q: Node)
    requires q in Objects(g, act, ProvQualifiedAssociation)
    ensures PlanPaths(run, act, q, Objects(g, q, ProvHadPlan)) <= PathsFrom(g, {(run, act)})
  {
    forall a | a in Objects(g, q, ProvHadPlan) ensures (run, act, q, a) in PathsFrom(g, {(run, act)}) {
      var e := (run, act);
      assert (e.0, e.1, q, a) in PathsFrom(g, {(run, act)});
    }
  }

  /** The innermost loop (lines 546-570): visit every plan of association `q`. */
  method OdaPlans(g: Graph, h: Helpers, ghost g0: set<Triple>, ghost visits: map<Node, Path>, ghost done: set<Path>,
                  run: Node, act: Node, q: Node)
    returns (r: Outcome<()>, ghost visits': map<Node, Path>, ghost done': set<Path>)
    requires Visited(g0, h, g.triples, visits, done)
    requires (run, act) in Edges(g0, OaHasTarget) && q in Objects(g0, act, ProvQualifiedAssociation)
    requires done !! PlanPaths(run, act, q, Objects(g0, q, ProvHadPlan))
    modifies g
    ensures r.Done? ==> Visited(g0, h, g.triples, visits', done') && done' == done + PlanPaths(run, act, q, Objects(g0, q, ProvHadPlan))
    ensures r.Failed? ==> !OdaOk(g0, h)
  {
    hide VisitAdds, Visited;
    visits', done' := visits, done;
    LoopPredicatesApart();
    VisitedObjects(g0, h, g.triples, visits, done, q, ProvHadPlan);
    var plans := Objects(g.triples, q, ProvHadPlan);
    ghost var seen: set<Node> := {};
    while plans != {}
      invariant plans + seen == Objects(g0, q, ProvHadPlan) && plans !! seen
      invariant Visited(g0, h, g.triples, visits', done') && done' == done + PlanPaths(run, act, q, seen)
      decreases plans
    {
      var a :| a in plans;
      PathIn(g0, run, act, q, a);
      assert (run, act, q, a) in PlanPaths(run, act, q, Objects(g0, q, ProvHadPlan));
      r, visits', done' := VisitPath(g, h, g0, visits', done', (run, act, q, a));
      if r.Failed? {
        return;
      }
      assert PlanPaths(run, act, q, seen + {a}) == PlanPaths(run, act, q, seen) + {(run, act, q, a)};
      plans := plans - {a};
      seen := seen + {a};
    }
    return Done(()), visits', done';
  }

  /** The middle loop (lines 541-546): every association of the activity. */
  method OdaAssociations(g: Graph, h: Helpers, ghost g0: set<Triple>, ghost visits: map<Node, Path>, ghost done: set<Path>,
                         run: Node, act: Node)
    returns (r: Outcome<()>, ghost visits': map<Node, Path>, ghost done': set<Path>)
    requires Visited(g0, h, g.triples, visits, done) && (run, act) in Edges(g0, OaHasTarget)
    requires forall p :: p in PathsFrom(g0, {(run, act)}) ==> p !in done
    modifies g
    ensures r.Done? ==> Visited(g0, h, g.triples, visits', done') && done' == done + PathsFrom(g0, {(run, act)})
    ensures r.Failed? ==> !OdaOk(g0, h)
  {
    hide VisitAdds, Visited;
    visits', done' := visits, done;
    LoopPredicatesApart();
    VisitedObjects(g0, h, g.triples, visits, done, act, ProvQualifiedAssociation);
    var associations := Objects(g.triples, act, ProvQualifiedAssociation);
    ghost var seen: set<Node> := {};
    while associations != {}
      invariant associations + seen == Objects(g0, act, ProvQualifiedAssociation) && associations !! seen
      invariant Visited(g0, h, g.triples, visits', done') && done' == done + AssociationPaths(g0, run, act, seen)
      decreases associations
    {
      var q :| q in associations;
      PlanPathsFrom(g0, run, act, q);
      r, visits', done' := OdaPlans(g, h, g0, visits', done', run, act, q);
      if r.Failed? {
        return;
      }
      assert AssociationPaths(g0, run, act, seen + {q})
          == AssociationPaths(g0, run, act, seen) + PlanPaths(run, act, q, Objects(g0, q, ProvHadPlan));
      associations := associations - {q};
      seen := seen + {q};
    }
    assert AssociationPaths(g0, run, act, seen) == PathsFrom(g0, {(run, act)});
    return Done(()), visits', done';
  }

  lemma PathsFromStep(g: set<Triple>, es: set<(Node, Node)>, e: (Node, Node))
    ensures PathsFrom(g, es + {e}) == PathsFrom(g, es) + PathsFrom(g, {e})
    ensures e !in es ==> PathsFrom(g, es) !! PathsFrom(g, {e})
  {
  }

  /** After every chain is visited, the run condition holds and the store is the stripped original plus the additions. */
  lemma VisitedAll(g0: set<Triple>, h: Helpers, g: set<Triple>, visits: map<Node, Path>)
    requires Visited(g0, h, g, visits, AllPaths(g0))
    ensures OdaOk(g0, h)
    ensures g == StripRuns(g0, PathRuns(g0)) + OdaAdds(g0, h)
  {
    assert visits.Keys == PathRuns(g0);
    forall t ensures t in AddsOf(g0, h, visits) <==> t in OdaAdds(g0, h) {
      if t in OdaAdds(g0, h) {
        var p :| p in AllPaths(g0) && VisitAdds(g0, h, p.0, p.3).Done? && t in VisitAdds(g0, h, p.0, p.3).value;
        assert visits[p.0] == p;
      }
    }
  }

  /**
   * `process_oda_info` (lines 536-570). It completes exactly when every run
   * starts at most one `hasTarget`/`qualifiedAssociation`/`hadPlan` chain
   * and each visit succeeds; then the store is the
   * original without the visited runs' `isUsing` and request triples, plus
   * what the visits add.
   */
  method ProcessOdaInfo(g: Graph, h: Helpers) returns (r: Outcome<()>)
    modifies g
    ensures r.Done? <==> OdaOk(old(g.triples), h)
    ensures r.Done? ==> g.triples == StripRuns(old(g.triples), PathRuns(old(g.triples))) + OdaAdds(old(g.triples), h)
  {
    hide VisitAdds;
    ghost var g0 := g.triples;
    var targets := Edges(g.triples, OaHasTarget);
    ghost var seen: set<(Node, Node)> := {};
    ghost var visits: map<Node, Path> := map[];
    ghost var done: set<Path> := {};
    assert StripRuns(g0, {}) == g0;
    assert AddsOf(g0, h, visits) == {};
    assert Visited(g0, h, g.triples, visits, done);
    hide Visited;
    while targets != {}
      invariant targets + seen == Edges(g0, OaHasTarget) && targets !! seen
      invariant Visited(g0, h, g.triples, visits, done) && done == PathsFrom(g0, seen)
      decreases targets
    {
      var e :| e in targets;
      PathsFromStep(g0, seen, e);
      r, visits, done := OdaAssociations(g, h, g0, visits, done, e.0, e.1);
      if r.Failed? {
        return;
      }
      targets := targets - {e};
      seen := seen + {e};
    }
    VisitedAll(g0, h, g.triples, visits);
    return Done(());
  }

  // ---------------------------------------------------------------------
  // What a visit and the whole pass add

  /** The (request, link) predicate pairs of objects, regions and images. */
  const RequestPairs: set<(Node, Node)> := {
    (OdaIsRequestingAstroObject, OdaRequestsAstroObject),
    (OdaIsRequestingAstroRegion, OdaRequestsAstroRegion),
    (OdaIsRequestingAstroImage, OdaRequestsAstroImage)
  }

  /** The added predicates are pairwise distinct and none is a clean-up predicate. */
  lemma AddedPredicatesApart()
    ensures AddedPredicates !! CleanupPredicates
    ensures SchemaDefaultValue !in {OdaIsUsedDuring, OdaRequestsAstroObject, OdaRequestsAstroRegion, OdaRequestsAstroImage}
    ensures OdaIsUsedDuring !in {OdaRequestsAstroObject, OdaRequestsAstroRegion, OdaRequestsAstroImage}
    ensures OdaRequestsAstroObject !in {OdaRequestsAstroRegion, OdaRequestsAstroImage}
    ensures OdaRequestsAstroRegion != OdaRequestsAstroImage
  {
  }

  /** The triples of `ts` other than sub-node values. */
  function Links(ts: set<Triple>): set<Triple>
  {
    set t | t in ts && t.1 != SchemaDefaultValue
  }

  /** A successful outcome adds only `defaultValue` triples. */
  ghost predicate DefaultsOnly(o: Outcome<set<Triple>>)
  {
    o.Done? ==> forall t :: t in o.value ==> t.1 == SchemaDefaultValue
  }

  lemma ImageSubDefaults(g: set<Triple>, h: Helpers, image: Node)
    ensures DefaultsOnly(ImageSubAdds(g, h, image))
  {
  }

  lemma ObjectLinks(g: set<Triple>, h: Helpers, run: Node, m: Node, action: Node)
    ensures Links(ObjectAdds(g, h, run, m, action))
            == RequestLinks(g, h, run, m, action, OdaIsRequestingAstroObject, OdaRequestsAstroObject)
  {
    AddedPredicatesApart();
  }

  lemma RegionLinks(g: set<Triple>, h: Helpers, run: Node, m: Node, action: Node)
    requires RegionAdds(g, h, run, m, action).Done?
    ensures Links(RegionAdds(g, h, run, m, action).value)
            == RequestLinks(g, h, run, m, action, OdaIsRequestingAstroRegion, OdaRequestsAstroRegion)
  {
    AddedPredicatesApart();
  }

  lemma ImageLinks(g: set<Triple>, h: Helpers, run: Node, m: Node, action: Node)
    requires ImageAdds(g, h, run, m, action).Done?
    ensures Links(ImageAdds(g, h, run, m, action).value)
            == RequestLinks(g, h, run, m, action, OdaIsRequestingAstroImage, OdaRequestsAstroImage)
  {
    AddedPredicatesApart();
    var images := Objects(g, run, OdaIsRequestingAstroImage);
    if images != {} {
      ImageSubDefaults(g, h, h.first(images));
    }
  }

  /**
   * Apart from sub-node values, a successful visit adds exactly the links of
   * the run's first module to the plan and to the first requested object,
   * region and image, each only when the run requests one.
   */
  lemma VisitAddsLinks(g: set<Triple>, h: Helpers, run: Node, action: Node)
    requires VisitAdds(g, h, run, action).Done?
    ensures Objects(g, run, OdaIsUsing) != {}
    ensures var m := h.first(Objects(g, run, OdaIsUsing));
            Links(VisitAdds(g, h, run, action).value)
            == RequestLinks(g, h, run, m, action, OdaIsRequestingAstroObject, OdaRequestsAstroObject)
               + RequestLinks(g, h, run, m, action, OdaIsRequestingAstroRegion, OdaRequestsAstroRegion)
               + RequestLinks(g, h, run, m, action, OdaIsRequestingAstroImage, OdaRequestsAstroImage)
  {
    AddedPredicatesApart();
    var m := h.first(Objects(g, run, OdaIsUsing));
    var o := ObjectAdds(g, h, run, m, action);
    var rs := RegionAdds(g, h, run, m, action);
    var ims := ImageAdds(g, h, run, m, action);
    assert Objects(g, run, OdaIsUsing) != {};
    assert VisitAdds(g, h, run, action) == Also(Done(o), Also(rs, ims));
    assert rs.Done? && ims.Done?;
    assert VisitAdds(g, h, run, action).value == o + rs.value + ims.value;
    hide VisitAdds, RegionAdds, ImageAdds, Links, RequestLinks, ObjectAdds;
    ObjectLinks(g, h, run, m, action);
    RegionLinks(g, h, run, m, action);
    ImageLinks(g, h, run, m, action);
    LinksUnion(o, rs.value, ims.value);
  }

  lemma LinksUnion(a: set<Triple>, b: set<Triple>, c: set<Triple>)
    ensures Links(a + b + c) == Links(a) + Links(b) + Links(c)
  {
  }

  /** The run requests an object, a region or an image. */
  ghost predicate RequestsSomething(g: set<Triple>, run: Node)
  {
    exists q :: q in RequestPairs && Objects(g, run, q.0) != {}
  }

  /**
   * The module is linked to the plan by `isUsedDuring` exactly when the run
   * requests something, and that is the only `isUsedDuring` triple a visit adds.
   */
  lemma UsedDuringIffRequests(g: set<Triple>, h: Helpers, run: Node, action: Node)
    requires VisitAdds(g, h, run, action).Done?
    ensures Objects(g, run, OdaIsUsing) != {}
    ensures var m := h.first(Objects(g, run, OdaIsUsing));
            ((m, OdaIsUsedDuring, action) in VisitAdds(g, h, run, action).value <==> RequestsSomething(g, run))
            && forall t :: t in VisitAdds(g, h, run, action).value && t.1 == OdaIsUsedDuring ==> t == (m, OdaIsUsedDuring, action)
  {
    hide VisitAdds;
    VisitAddsLinks(g, h, run, action);
    AddedPredicatesApart();
    var m := h.first(Objects(g, run, OdaIsUsing));
    var v := VisitAdds(g, h, run, action).value;
    var u: Triple := (m, OdaIsUsedDuring, action);
    assert u in v <==> u in Links(v);
    if RequestsSomething(g, run) {
      var q :| q in RequestPairs && Objects(g, run, q.0) != {};
      assert u in RequestLinks(g, h, run, m, action, q.0, q.1);
    }
    forall t | t in v && t.1 == OdaIsUsedDuring ensures t == u {
      assert t in Links(v);
      hide Links, RequestLinks;
      if t in RequestLinks(g, h, run, m, action, OdaIsRequestingAstroObject, OdaRequestsAstroObject) {
        UsedDuringLink(g, h, run, m, action, OdaIsRequestingAstroObject, OdaRequestsAstroObject, t);
      } else if t in RequestLinks(g, h, run, m, action, OdaIsRequestingAstroRegion, OdaRequestsAstroRegion) {
        UsedDuringLink(g, h, run, m, action, OdaIsRequestingAstroRegion, OdaRequestsAstroRegion, t);
      } else {
        UsedDuringLink(g, h, run, m, action, OdaIsRequestingAstroImage, OdaRequestsAstroImage, t);
      }
    }
  }

  /** The only `isUsedDuring` link of one request is the module's link to the plan. */
  lemma UsedDuringLink(g: set<Triple>, h: Helpers, run: Node, m: Node, action: Node, isReq: Node, req: Node, t: Triple)
    requires req != OdaIsUsedDuring
    requires t in RequestLinks(g, h, run, m, action, isReq, req) && t.1 == OdaIsUsedDuring
    ensures t == (m, OdaIsUsedDuring, action)
  {
  }

  /**
   * For objects, regions and images alike: a visit adds a link to at most
   * one requested node, the first one the store enumerates, and adds it
   * exactly when the run requests one; that node is among the requests.
   */
  lemma RequestsTheFirst(g: set<Triple>, h: Helpers, run: Node, action: Node, isReq: Node, req: Node)
    requires VisitAdds(g, h, run, action).Done?
    requires (isReq, req) in RequestPairs
    ensures Objects(g, run, OdaIsUsing) != {}
    ensures var m := h.first(Objects(g, run, OdaIsUsing));
            var xs := Objects(g, run, isReq);
            (xs != {} ==> (m, req, h.first(xs)) in VisitAdds(g, h, run, action).value)
            && (forall t :: t in VisitAdds(g, h, run, action).value && t.1 == req ==> xs != {} && t == (m, req, h.first(xs)))
            && (PicksMembers(h) ==> forall t :: t in VisitAdds(g, h, run, action).value && t.1 == req ==> t.2 in xs)
  {
    hide VisitAdds;
    VisitAddsLinks(g, h, run, action);
    AddedPredicatesApart();
    var m := h.first(Objects(g, run, OdaIsUsing));
    var v := VisitAdds(g, h, run, action).value;
    var xs := Objects(g, run, isReq);
    if xs != {} {
      assert (m, req, h.first(xs)) in Links(v);
    }
    forall t | t in v && t.1 == req ensures xs != {} && t == (m, req, h.first(xs)) {
      assert t in Links(v);
    }
  }

  lemma OdaAddsPredicates(g0: set<Triple>, h: Helpers)
    ensures OnlyAdded(OdaAdds(g0, h))
  {
    forall p | p in AllPaths(g0) {
      VisitAddsPredicates(g0, h, p.0, p.3);
    }
  }

  /**
   * In the store `process_oda_info` leaves: no run that reaches a plan keeps
   * an `isUsing` or request triple, and a triple under a predicate the pass
   * neither adds nor cleans up is there exactly when it was before.
   */
  lemma OdaClearsRuns(g0: set<Triple>, h: Helpers, t: Triple)
    ensures var g := StripRuns(g0, PathRuns(g0)) + OdaAdds(g0, h);
            (t.0 in PathRuns(g0) && t.1 in CleanupPredicates ==> t !in g)
            && (t.1 !in AddedPredicates && t.1 !in CleanupPredicates ==> (t in g <==> t in g0))
  {
    OdaAddsPredicates(g0, h);
    AddedPredicatesApart();
  }
}
