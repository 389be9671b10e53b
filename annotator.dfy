/**
 * The annotation passes of `graph_utils`: type analysis, output retyping,
 * argument pairing into `CommandParameter` nodes, input back-edges and the
 * relocation of activity start times onto their plans.  Each pass works on
 * the store in place; the caller-supplied dictionaries come in as maps and
 * go out updated.  Triple patterns are iterated over a snapshot, in an
 * order the model leaves open.
 */
module Annotator {
  import opened Wrappers
  import opened Texts
  import opened Rdf

  // ---------------------------------------------------------------------
  // analyze_types

  /** The labels of the subjects that carry an `rdf:type`. */
  function TypedLabels(g: set<Triple>, h: Helpers): set<string>
  {
    set e | e in Edges(g, RdfType) :: h.labelOf(e.0)
  }

  /**
   * Records, for every typed subject, the local name of its type under the
   * subject's label.  Entries for other labels are kept; when several typed
   * subjects share a label, the last one visited wins.
   */
  method AnalyzeTypes(g: Graph, h: Helpers, types: map<string, string>)
    returns (types': map<string, string>)
    ensures types'.Keys == types.Keys + TypedLabels(g.triples, h)
    ensures forall k :: k in types && k !in TypedLabels(g.triples, h) ==> types'[k] == types[k]
    ensures forall k :: k in TypedLabels(g.triples, h) ==>
              exists e :: e in Edges(g.triples, RdfType) && h.labelOf(e.0) == k
                          && types'[k] == h.localName(e.1)
  {
    var todo := Edges(g.triples, RdfType);
    ghost var done: set<(Node, Node)> := {};
    types' := types;
    while todo != {}
      invariant todo + done == Edges(g.triples, RdfType) && todo !! done
      invariant types'.Keys == types.Keys + (set e | e in done :: h.labelOf(e.0))
      invariant forall k :: k in types && k !in (set e | e in done :: h.labelOf(e.0)) ==> types'[k] == types[k]
      invariant forall k :: k in (set e | e in done :: h.labelOf(e.0)) ==>
                  exists e :: e in done && h.labelOf(e.0) == k && types'[k] == h.localName(e.1)
      decreases todo
    {
      var e :| e in todo;
      types' := types'[h.labelOf(e.0) := h.localName(e.1)];
      todo := todo - {e};
      done := done + {e};
    }
  }

  // ---------------------------------------------------------------------
  // analyze_outputs

  /** The type an output file gets from its extension, if any (the membership tests of the source). */
  function OutputTypeFor(ext: string): Option<Node>
  {
    if ext in ["jpeg", "jpg", "png", "gif", "bmp"] then Some(RenkuCommandOutputImage)
    else if ext == "fits" then Some(RenkuCommandOutputFitsFile)
    else if ext == "ipynb" then Some(RenkuCommandOutputNotebook)
    else None
  }

  /** The new type of output node `o`: only defined when it has exactly one default value. */
  ghost function OutputRetype(g: set<Triple>, o: Node): Option<Node>
  {
    var vals := Objects(g, o, SchemaDefaultValue);
    if |vals| == 1 then OutputTypeFor(Extension(Text(TheOne(vals)))) else None
  }

  /** The new type of each output node of `outs` that is retyped. */
  ghost function NewTypes(g: set<Triple>, outs: set<Node>): map<Node, Node>
  {
    map o | o in outs && OutputRetype(g, o).Some? :: OutputRetype(g, o).value
  }

  /** `g` with every type triple of each node of `m` replaced by the single type `m` gives it. */
  function Retyped(g: set<Triple>, m: map<Node, Node>): set<Triple>
  {
    (set t | t in g && !(t.1 == RdfType && t.0 in m))
    + (set o | o in m :: (o, RdfType, m[o]))
  }

  /** `g.remove((o, RDF.type, None))` followed by `g.add((o, RDF.type, ty))`. */
  function Retype(g: set<Triple>, o: Node, ty: Node): set<Triple>
  {
    (set t | t in g && !(t.0 == o && t.1 == RdfType)) + {(o, RdfType, ty)}
  }

  /** Retyping leaves every triple under another predicate alone. */
  lemma RetypedOthers(g: set<Triple>, m: map<Node, Node>, p: Node)
    requires p != RdfType
    ensures AgreeOn(Retyped(g, m), g, p)
  {
  }

  /** Retyping one more output extends `Retyped` by that output. */
  lemma RetypedStep(g: set<Triple>, m: map<Node, Node>, o: Node, ty: Node)
    ensures Retype(Retyped(g, m), o, ty) == Retyped(g, m[o := ty])
  {
    var lhs := Retype(Retyped(g, m), o, ty);
    var rhs := Retyped(g, m[o := ty]);
    forall t: Triple ensures t in lhs <==> t in rhs {
      if t.1 == RdfType && t.0 in m[o := ty] {
        assert t in rhs <==> t.2 == m[o := ty][t.0];
      }
    }
  }

  /**
   * The type update of one output with single default value `v`, as the
   * source's three tests on the extension write it.
   */
  method RetypeOutput(g: Graph, o: Node, v: Node)
    modifies g
    ensures var ty := OutputTypeFor(Extension(Text(v)));
            g.triples == if ty.Some? then Retype(old(g.triples), o, ty.value) else old(g.triples)
  {
    var ext := Extension(Text(v));
    if ext in ["jpeg", "jpg", "png", "gif", "bmp"] {
      g.Remove(Pattern(Some(o), Some(RdfType), None));
      g.Add((o, RdfType, RenkuCommandOutputImage));
    }
    if ext in ["fits"] {
      g.Remove(Pattern(Some(o), Some(RdfType), None));
      g.Add((o, RdfType, RenkuCommandOutputFitsFile));
    } else if ext == "ipynb" {
      g.Remove(Pattern(Some(o), Some(RdfType), None));
      g.Add((o, RdfType, RenkuCommandOutputNotebook));
    }
  }

  /** The output nodes of the store. */
  function OutputNodes(g: set<Triple>): set<Node>
  {
    set e | e in Edges(g, RenkuHasOutputs) :: e.1
  }

  /** The labels of the actions that have outputs. */
  function OutputLabels(g: set<Triple>, h: Helpers): set<string>
  {
    set e | e in Edges(g, RenkuHasOutputs) :: h.labelOf(e.0)
  }

  /** After retyping, a node of `m` has exactly the one type `m` gives it; any other node keeps its types. */
  lemma RetypedTypes(g: set<Triple>, m: map<Node, Node>, o: Node)
    ensures Objects(Retyped(g, m), o, RdfType) == if o in m then {m[o]} else Objects(g, o, RdfType)
  {
    var r := Retyped(g, m);
    forall x ensures x in Objects(r, o, RdfType) <==> x in (if o in m then {m[o]} else Objects(g, o, RdfType)) {
      ObjectsIn(r, o, RdfType, x);
      ObjectsIn(g, o, RdfType, x);
    }
  }

  /**
   * The types `analyze_outputs` leaves: an output node whose single default
   * value has an image, FITS or notebook extension has exactly that one type;
   * every other node, output or not, keeps the types it had.
   */
  lemma {:induction false} OutputTypes(g: set<Triple>, o: Node)
    ensures var vals := Objects(g, o, SchemaDefaultValue);
            var ty := if o in OutputNodes(g) && |vals| == 1 then OutputTypeFor(Extension(Text(TheOne(vals)))) else None;
            Objects(Retyped(g, NewTypes(g, OutputNodes(g))), o, RdfType)
            == if ty.Some? then {ty.value} else Objects(g, o, RdfType)
  {
    RetypedTypes(g, NewTypes(g, OutputNodes(g)), o);
  }

  function BaseLength<V>(m: map<string, seq<V>>, k: string): nat
  {
    if k in m then |m[k]| else 0
  }

  /** Extending the processed outputs by `o` adds `o`'s new type, if it has one. */
  lemma NewTypesStep(g: set<Triple>, outs: set<Node>, o: Node)
    ensures NewTypes(g, outs + {o})
            == if OutputRetype(g, o).Some? then NewTypes(g, outs)[o := OutputRetype(g, o).value] else NewTypes(g, outs)
  {
  }

  /**
   * `d` is `base` after visiting the edges of `done`: each visited subject's
   * label is a key and the original entries are kept as prefixes.
   */
  ghost predicate DictKeys<V>(base: map<string, seq<V>>, d: map<string, seq<V>>,
                              done: set<(Node, Node)>, h: Helpers)
  {
    && d.Keys == base.Keys + (set e | e in done :: h.labelOf(e.0))
    && (forall k :: k in base ==> base[k] <= d[k])
  }

  /** Everything appended after the original entries is the single default value of a visited output with that label. */
  ghost predicate OutputValuesSound(base: map<string, seq<Node>>, d: map<string, seq<Node>>,
                                    done: set<(Node, Node)>, g: set<Triple>, h: Helpers)
  {
    forall k, i :: k in d && BaseLength(base, k) <= i < |d[k]| ==>
      exists e :: e in done && h.labelOf(e.0) == k
                  && Objects(g, e.1, SchemaDefaultValue) == {d[k][i]}
  }

  /** The single default value of every visited output is listed under its action's label. */
  ghost predicate OutputValuesComplete(d: map<string, seq<Node>>, done: set<(Node, Node)>, g: set<Triple>, h: Helpers)
  {
    forall e :: e in done && |Objects(g, e.1, SchemaDefaultValue)| == 1 ==>
      h.labelOf(e.0) in d && TheOne(Objects(g, e.1, SchemaDefaultValue)) in d[h.labelOf(e.0)]
  }

  ghost predicate OutputsRecorded(base: map<string, seq<Node>>, d: map<string, seq<Node>>,
                                  done: set<(Node, Node)>, g: set<Triple>, h: Helpers)
  {
    DictKeys(base, d, done, h) && OutputValuesSound(base, d, done, g, h) && OutputValuesComplete(d, done, g, h)
  }

  /** Recording one more visited edge keeps the account of the dictionary. */
  lemma OutputsRecordedStep(base: map<string, seq<Node>>, d: map<string, seq<Node>>,
                            done: set<(Node, Node)>, e: (Node, Node), v: Option<Node>, g: set<Triple>, h: Helpers)
    requires OutputsRecorded(base, d, done, g, h)
    requires var vals := Objects(g, e.1, SchemaDefaultValue);
             v == if |vals| == 1 then Some(TheOne(vals)) else None
    requires v.Some? ==> Objects(g, e.1, SchemaDefaultValue) == {v.value}
    ensures OutputsRecorded(base, Record(d, h.labelOf(e.0), AsSeq(v)), done + {e}, g, h)
  {
    DictKeysStep(base, d, done, e, AsSeq(v), h);
    OutputValuesSoundStep(base, d, done, e, v, g, h);
    OutputValuesCompleteStep(d, done, e, v, g, h);
  }

  /** `d.setdefault(k, [])` followed by appending `vs` to `d[k]`. */
  function Record<V>(d: map<string, seq<V>>, k: string, vs: seq<V>): (d': map<string, seq<V>>)
    ensures d'.Keys == d.Keys + {k}
    ensures forall j :: j in d && j != k ==> d'[j] == d[j]
    ensures d'[k] == (if k in d then d[k] else []) + vs
  {
    var c := if k in d then d else d[k := []];
    c[k := c[k] + vs]
  }

  function AsSeq<V>(v: Option<V>): seq<V>
  {
    if v.Some? then [v.value] else []
  }

  lemma OutputsRecordedStart(base: map<string, seq<Node>>, g: set<Triple>, h: Helpers)
    ensures OutputsRecorded(base, base, {}, g, h)
  {
    forall k | k in base
      ensures BaseLength(base, k) == |base[k]|
    {
    }
  }

  lemma DictKeysStart<V>(base: map<string, seq<V>>, h: Helpers)
    ensures DictKeys(base, base, {}, h)
  {
  }

  lemma DictKeysStep<V>(base: map<string, seq<V>>, d: map<string, seq<V>>,
                        done: set<(Node, Node)>, e: (Node, Node), vs: seq<V>, h: Helpers)
    requires DictKeys(base, d, done, h)
    ensures DictKeys(base, Record(d, h.labelOf(e.0), vs), done + {e}, h)
  {
    assert (set x | x in done + {e} :: h.labelOf(x.0)) == (set x | x in done :: h.labelOf(x.0)) + {h.labelOf(e.0)};
  }

  lemma OutputValuesSoundStep(base: map<string, seq<Node>>, d: map<string, seq<Node>>,
                              done: set<(Node, Node)>, e: (Node, Node), v: Option<Node>,
                              g: set<Triple>, h: Helpers)
    requires DictKeys(base, d, done, h) && OutputValuesSound(base, d, done, g, h)
    requires v.Some? ==> Objects(g, e.1, SchemaDefaultValue) == {v.value}
    ensures OutputValuesSound(base, Record(d, h.labelOf(e.0), AsSeq(v)), done + {e}, g, h)
  {
    var k := h.labelOf(e.0);
    var d' := Record(d, k, AsSeq(v));
    forall j, i | j in d' && BaseLength(base, j) <= i < |d'[j]|
      ensures exists x :: x in done + {e} && h.labelOf(x.0) == j
                          && Objects(g, x.1, SchemaDefaultValue) == {d'[j][i]}
    {
      if j == k && i >= (if k in d then |d[k]| else 0) {
        assert v.Some? && d'[j][i] == v.value;
        assert e in done + {e};
      } else {
        assert j in d;
        assert d'[j][i] == d[j][i];
        var x :| x in done && h.labelOf(x.0) == j && Objects(g, x.1, SchemaDefaultValue) == {d[j][i]};
        assert x in done + {e};
      }
    }
  }

  lemma OutputValuesCompleteStep(d: map<string, seq<Node>>, done: set<(Node, Node)>, e: (Node, Node),
                                 v: Option<Node>, g: set<Triple>, h: Helpers)
    requires OutputValuesComplete(d, done, g, h)
    requires var vals := Objects(g, e.1, SchemaDefaultValue);
             v == if |vals| == 1 then Some(TheOne(vals)) else None
    ensures OutputValuesComplete(Record(d, h.labelOf(e.0), AsSeq(v)), done + {e}, g, h)
  {
    var d' := Record(d, h.labelOf(e.0), AsSeq(v));
    forall x | x in done + {e} && |Objects(g, x.1, SchemaDefaultValue)| == 1
      ensures h.labelOf(x.0) in d' && TheOne(Objects(g, x.1, SchemaDefaultValue)) in d'[h.labelOf(x.0)]
    {
      if x != e {
        var j := h.labelOf(x.0);
        assert j in d && d[j] <= d'[j];
      }
    }
  }

  /** The visit of one output node `o`: its single default value, if it has one, and its retyping. */
  method VisitOutput(g: Graph, ghost g0: set<Triple>, ghost m: map<Node, Node>, o: Node)
    returns (recorded: Option<Node>)
    requires g.triples == Retyped(g0, m)
    modifies g
    ensures g.triples == Retyped(g0, if OutputRetype(g0, o).Some? then m[o := OutputRetype(g0, o).value] else m)
    ensures var vals := Objects(g0, o, SchemaDefaultValue);
            recorded == if |vals| == 1 then Some(TheOne(vals)) else None
    ensures recorded.Some? ==> Objects(g0, o, SchemaDefaultValue) == {recorded.value}
  {
    RetypedOthers(g0, m, SchemaDefaultValue);
    ObjectsAgree(g.triples, g0, o, SchemaDefaultValue);
    var values := Objects(g.triples, o, SchemaDefaultValue);
    recorded := None;
    if |values| == 1 {
      var v :| v in values;
      TheOneIs(values, v);
      RetypeOutput(g, o, v);
      if OutputRetype(g0, o).Some? {
        RetypedStep(g0, m, o, OutputRetype(g0, o).value);
      }
      recorded := Some(v);
    }
  }

  /** The recorded state after the last output, read back as the pass's promises. */
  lemma OutputsRecordedEnd(base: map<string, seq<Node>>, d: map<string, seq<Node>>,
                           done: set<(Node, Node)>, g: set<Triple>, h: Helpers)
    requires OutputsRecorded(base, d, done, g, h)
    ensures d.Keys == base.Keys + (set e | e in done :: h.labelOf(e.0))
    ensures forall k :: k in base ==> base[k] <= d[k]
    ensures forall k, i :: k in d && BaseLength(base, k) <= i < |d[k]| ==>
              exists e :: e in done && h.labelOf(e.0) == k && Objects(g, e.1, SchemaDefaultValue) == {d[k][i]}
    ensures forall e :: e in done && |Objects(g, e.1, SchemaDefaultValue)| == 1 ==>
              TheOne(Objects(g, e.1, SchemaDefaultValue)) in d[h.labelOf(e.0)]
  {
  }

  /**
   * Retypes every output whose single default value has an image, FITS or
   * notebook extension, and records each single default value under the
   * label of its action.
   */
  method AnalyzeOutputs(g: Graph, h: Helpers, outs: map<string, seq<Node>>)
    returns (outs': map<string, seq<Node>>)
    modifies g
    ensures g.triples == Retyped(old(g.triples), NewTypes(old(g.triples), OutputNodes(old(g.triples))))
    ensures outs'.Keys == outs.Keys + OutputLabels(old(g.triples), h)
    ensures forall k :: k in outs ==> outs[k] <= outs'[k]
    ensures forall k, i :: k in outs' && BaseLength(outs, k) <= i < |outs'[k]| ==>
              exists e :: e in Edges(old(g.triples), RenkuHasOutputs) && h.labelOf(e.0) == k
                          && Objects(old(g.triples), e.1, SchemaDefaultValue) == {outs'[k][i]}
    ensures forall e :: e in Edges(old(g.triples), RenkuHasOutputs) && |Objects(old(g.triples), e.1, SchemaDefaultValue)| == 1 ==>
              TheOne(Objects(old(g.triples), e.1, SchemaDefaultValue)) in outs'[h.labelOf(e.0)]
  {
    hide DictKeys, OutputValuesSound, OutputValuesComplete;
    ghost var g0 := g.triples;
    var todo := Edges(g.triples, RenkuHasOutputs);
    ghost var done: set<(Node, Node)> := {};
    outs' := outs;
    OutputsRecordedStart(outs, g0, h);
    while todo != {}
      invariant todo + done == Edges(g0, RenkuHasOutputs) && todo !! done
      invariant g.triples == Retyped(g0, NewTypes(g0, set e | e in done :: e.1))
      invariant OutputsRecorded(outs, outs', done, g0, h)
      decreases todo
    {
      hide OutputsRecorded, Retyped, NewTypes;
      var e :| e in todo;
      outs' := VisitOutputEdge(g, g0, h, outs, outs', done, e);
      todo := todo - {e};
      done := done + {e};
    }
    OutputsRecordedEnd(outs, outs', done, g0, h);
  }

  /** One pass of the loop of `analyze_outputs` (lines 423-431) over the edge `e`. */
  method VisitOutputEdge(g: Graph, ghost g0: set<Triple>, h: Helpers, ghost outs: map<string, seq<Node>>,
                         d: map<string, seq<Node>>, ghost done: set<(Node, Node)>, e: (Node, Node))
    returns (d': map<string, seq<Node>>)
    requires g.triples == Retyped(g0, NewTypes(g0, set x | x in done :: x.1))
    requires OutputsRecorded(outs, d, done, g0, h)
    modifies g
    ensures g.triples == Retyped(g0, NewTypes(g0, set x | x in done + {e} :: x.1))
    ensures OutputsRecorded(outs, d', done + {e}, g0, h)
  {
    hide OutputsRecorded, Retyped, Record, OutputRetype;
    ghost var nodes := set x | x in done :: x.1;
    var recorded := VisitOutput(g, g0, NewTypes(g0, nodes), e.1);
    OutputsRecordedStep(outs, d, done, e, recorded, g0, h);
    d' := Record(d, h.labelOf(e.0), AsSeq(recorded));
    NewTypesStep(g0, nodes, e.1);
    assert (set x | x in done + {e} :: x.1) == nodes + {e.1};
  }

  // ---------------------------------------------------------------------
  // analyze_inputs

  /** The `isInputOf` back-edges of the (action, input) pairs `es`. */
  function BackEdges(es: set<(Node, Node)>): set<Triple>
  {
    set e | e in es :: (e.1, RenkuIsInputOf, e.0)
  }

  /** The default-value objects among the (predicate, object) pairs `es`. */
  function Defaults(es: set<(Node, Node)>): set<Node>
  {
    set e | e in es && e.0 == SchemaDefaultValue :: e.1
  }

  /** The default values among the pairs of `g[o]` are `g[o:defaultValue]`. */
  lemma DefaultsOutgoing(g: set<Triple>, o: Node)
    ensures Defaults(Outgoing(g, o)) == Objects(g, o, SchemaDefaultValue)
    ensures Defaults({}) == {}
  {
    OutgoingObjects(g, o, SchemaDefaultValue);
  }

  lemma DefaultsStep(es: set<(Node, Node)>, e: (Node, Node))
    requires e !in es
    ensures Defaults(es + {e}) == if e.0 == SchemaDefaultValue then Defaults(es) + {e.1} else Defaults(es)
    ensures e.0 == SchemaDefaultValue ==> e.1 !in Defaults(es)
  {
    assert e.0 == SchemaDefaultValue ==> forall x :: x in es && x.0 == SchemaDefaultValue ==> x.1 != e.1;
  }

  /**
   * The inner loop over `g[o]`: the texts of the objects under
   * `schema:defaultValue`, one per default-value node.
   */
  method InputValues(g: Graph, o: Node) returns (vals: seq<string>)
    ensures |vals| == |Objects(g.triples, o, SchemaDefaultValue)|
    ensures forall x :: x in vals <==> exists v :: v in Objects(g.triples, o, SchemaDefaultValue) && N3Text(v) == x
  {
    hide Outgoing, Objects, N3Text, Defaults;
    DefaultsOutgoing(g.triples, o);
    var todo := Outgoing(g.triples, o);
    ghost var done: set<(Node, Node)> := {};
    ghost var seen: set<Node> := {};
    vals := [];
    while todo != {}
      invariant todo + done == Outgoing(g.triples, o) && todo !! done
      invariant seen == Defaults(done)
      invariant |vals| == |seen|
      invariant forall x :: x in vals <==> exists v :: v in seen && N3Text(v) == x
      decreases todo
    {
      var e :| e in todo;
      DefaultsStep(done, e);
      var (p, v) := e;
      if p == SchemaDefaultValue {
        vals := vals + [N3Text(v)];
        seen := seen + {v};
      }
      todo := todo - {e};
      done := done + {e};
    }
  }

  /** Everything appended under `k` is the text of a default value of an input of a visited action labelled `k`. */
  ghost predicate InputTextFrom(g: set<Triple>, h: Helpers, done: set<(Node, Node)>, k: string, x: string)
  {
    exists e, v :: e in done && h.labelOf(e.0) == k && v in Objects(g, e.1, SchemaDefaultValue) && N3Text(v) == x
  }

  ghost predicate InputsSound(base: map<string, seq<string>>, d: map<string, seq<string>>,
                              done: set<(Node, Node)>, g: set<Triple>, h: Helpers)
  {
    forall k, i :: k in d && BaseLength(base, k) <= i < |d[k]| ==> InputTextFrom(g, h, done, k, d[k][i])
  }

  /** The text of every default value of every visited input is listed under its action's label. */
  ghost predicate InputsComplete(d: map<string, seq<string>>, done: set<(Node, Node)>, g: set<Triple>, h: Helpers)
  {
    forall e :: e in done ==>
      h.labelOf(e.0) in d && forall v :: v in Objects(g, e.1, SchemaDefaultValue) ==> N3Text(v) in d[h.labelOf(e.0)]
  }

  lemma InputsStart(base: map<string, seq<string>>, g: set<Triple>, h: Helpers)
    ensures InputsSound(base, base, {}, g, h) && InputsComplete(base, {}, g, h)
  {
    forall k | k in base
      ensures BaseLength(base, k) == |base[k]|
    {
    }
  }

  lemma InputsSoundStep(base: map<string, seq<string>>, d: map<string, seq<string>>,
                        done: set<(Node, Node)>, e: (Node, Node), vals: seq<string>,
                        g: set<Triple>, h: Helpers)
    requires DictKeys(base, d, done, h) && InputsSound(base, d, done, g, h)
    requires forall x :: x in vals ==> exists v :: v in Objects(g, e.1, SchemaDefaultValue) && N3Text(v) == x
    ensures InputsSound(base, Record(d, h.labelOf(e.0), vals), done + {e}, g, h)
  {
    var k := h.labelOf(e.0);
    var d' := Record(d, k, vals);
    forall j, i | j in d' && BaseLength(base, j) <= i < |d'[j]|
      ensures InputTextFrom(g, h, done + {e}, j, d'[j][i])
    {
      var n := if k in d then |d[k]| else 0;
      if j == k && i >= n {
        assert d'[j][i] == vals[i - n];
        assert vals[i - n] in vals;
        var v :| v in Objects(g, e.1, SchemaDefaultValue) && N3Text(v) == vals[i - n];
        assert e in done + {e};
      } else {
        assert j in d && d'[j][i] == d[j][i];
        assert InputTextFrom(g, h, done, j, d[j][i]);
        var x, v :| x in done && h.labelOf(x.0) == j && v in Objects(g, x.1, SchemaDefaultValue) && N3Text(v) == d[j][i];
        assert x in done + {e};
      }
    }
  }

  lemma InputsCompleteStep(d: map<string, seq<string>>, done: set<(Node, Node)>, e: (Node, Node),
                           vals: seq<string>, g: set<Triple>, h: Helpers)
    requires InputsComplete(d, done, g, h)
    requires forall v :: v in Objects(g, e.1, SchemaDefaultValue) ==> N3Text(v) in vals
    ensures InputsComplete(Record(d, h.labelOf(e.0), vals), done + {e}, g, h)
  {
    var d' := Record(d, h.labelOf(e.0), vals);
    forall x | x in done + {e}
      ensures h.labelOf(x.0) in d' && forall v :: v in Objects(g, x.1, SchemaDefaultValue) ==> N3Text(v) in d'[h.labelOf(x.0)]
    {
      if x != e {
        assert x in done;
        var j := h.labelOf(x.0);
        assert j in d && d[j] <= d'[j];
      }
    }
  }

  /** One pass of the loop of `analyze_inputs` over the edge `e`. */
  method VisitInputEdge(g: Graph, ghost g0: set<Triple>, h: Helpers, ghost ins: map<string, seq<string>>,
                        d: map<string, seq<string>>, ghost done: set<(Node, Node)>, e: (Node, Node))
    returns (d': map<string, seq<string>>)
    requires g.triples == g0 + BackEdges(done)
    requires DictKeys(ins, d, done, h)
    requires InputsSound(ins, d, done, g0, h)
    requires InputsComplete(d, done, g0, h)
    modifies g
    ensures g.triples == g0 + BackEdges(done + {e})
    ensures DictKeys(ins, d', done + {e}, h)
    ensures InputsSound(ins, d', done + {e}, g0, h)
    ensures InputsComplete(d', done + {e}, g0, h)
  {
    hide DictKeys, InputsSound, InputsComplete;
    ObjectsPlus(g0, BackEdges(done), e.1, SchemaDefaultValue);
    var vals := InputValues(g, e.1);
    DictKeysStep(ins, d, done, e, vals, h);
    InputsSoundStep(ins, d, done, e, vals, g0, h);
    InputsCompleteStep(d, done, e, vals, g0, h);
    d' := Record(d, h.labelOf(e.0), vals);
    g.Add((e.1, RenkuIsInputOf, e.0));
    assert BackEdges(done + {e}) == BackEdges(done) + {(e.1, RenkuIsInputOf, e.0)};
  }

  /**
   * Records, under the label of each action, the texts of the default values
   * of its inputs, and adds the `isInputOf` back-edge of every `hasInputs`
   * edge.
   */
  method AnalyzeInputs(g: Graph, h: Helpers, ins: map<string, seq<string>>)
    returns (ins': map<string, seq<string>>)
    modifies g
    ensures g.triples == old(g.triples) + BackEdges(Edges(old(g.triples), RenkuHasInputs))
    ensures DictKeys(ins, ins', Edges(old(g.triples), RenkuHasInputs), h)
    ensures InputsSound(ins, ins', Edges(old(g.triples), RenkuHasInputs), old(g.triples), h)
    ensures InputsComplete(ins', Edges(old(g.triples), RenkuHasInputs), old(g.triples), h)
  {
    hide DictKeys, InputsSound, InputsComplete;
    ghost var g0 := g.triples;
    var todo := Edges(g.triples, RenkuHasInputs);
    ghost var done: set<(Node, Node)> := {};
    ins' := ins;
    DictKeysStart(ins, h);
    InputsStart(ins, g0, h);
    while todo != {}
      invariant todo + done == Edges(g0, RenkuHasInputs) && todo !! done
      invariant g.triples == g0 + BackEdges(done)
      invariant DictKeys(ins, ins', done, h)
      invariant InputsSound(ins, ins', done, g0, h)
      invariant InputsComplete(ins', done, g0, h)
      decreases todo
    {
      var e :| e in todo;
      ins' := VisitInputEdge(g, g0, h, ins, ins', done, e);
      todo := todo - {e};
      done := done + {e};
    }
  }

  // ---------------------------------------------------------------------
  // extract_activity_start_time

  /** The plans of activity `a`: `a` qualifiedAssociation `q` hadPlan `p`. */
  function Plans(g: set<Triple>, a: Node): set<Node>
  {
    PlansVia(g, Objects(g, a, ProvQualifiedAssociation))
  }

  /** The plans reached from the associations `qs`. */
  function PlansVia(g: set<Triple>, qs: set<Node>): set<Node>
  {
    set q, p | q in qs && p in Objects(g, q, ProvHadPlan) :: p
  }

  /** The start-time triples `(p, startedAtTime, t)` for the plans `ps`. */
  function TimesOf(ps: set<Node>, t: Node): set<Triple>
  {
    set p | p in ps :: (p, ProvStartedAtTime, t)
  }

  /** The start times the pass adds for the (activity, time) pairs `es`: one per plan of the activity. */
  function TimeAdded(g: set<Triple>, es: set<(Node, Node)>): set<Triple>
  {
    set e, p | e in es && p in Plans(g, e.0) :: (p, ProvStartedAtTime, e.1)
  }

  /** The start times the pass removes for the pairs `es`: those of activities with at least one plan. */
  function TimeRemoved(g: set<Triple>, es: set<(Node, Node)>): set<Triple>
  {
    set e | e in es && Plans(g, e.0) != {} :: (e.0, ProvStartedAtTime, e.1)
  }

  /**
   * `g` lies between `g0` and what the adds `A` and removals `R` could make
   * of it in some order: nothing appears that was neither there nor added,
   * nothing disappears that was not removed, an add not also removed is
   * there, and a removal not also added is gone.
   */
  ghost predicate Between(g0: set<Triple>, g: set<Triple>, A: set<Triple>, R: set<Triple>)
  {
    g <= g0 + A && g0 - R <= g && A - R <= g && g * (R - A) == {}
  }

  /** Only start-time triples differ between `g` and `g0`. */
  ghost predicate SameBut(g: set<Triple>, g0: set<Triple>, p: Node)
  {
    forall t: Triple :: t.1 != p ==> (t in g <==> t in g0)
  }

  lemma SameButObjects(g: set<Triple>, g0: set<Triple>, p: Node, s: Node, q: Node)
    requires SameBut(g, g0, p) && q != p
    ensures Objects(g, s, q) == Objects(g0, s, q)
  {
    forall o ensures o in Objects(g, s, q) <==> o in Objects(g0, s, q) {
      ObjectsIn(g, s, q, o);
      ObjectsIn(g0, s, q, o);
    }
  }

  /** Outside the triples both added and removed, `Between` fixes the result exactly. */
  lemma BetweenExact(g0: set<Triple>, g: set<Triple>, A: set<Triple>, R: set<Triple>, t: Triple)
    requires Between(g0, g, A, R) && t !in A * R
    ensures t in g <==> t in (g0 - R) + A
  {
    assert t in R - A ==> t !in g * (R - A);
  }

  /** The innermost statement pair: `g.add((p, startedAtTime, t))`, then `g.remove((a, startedAtTime, t))`. */
  method MoveTime(g: Graph, ghost g0: set<Triple>, ghost A: set<Triple>, ghost R: set<Triple>, a: Node, p: Node, t: Node)
    returns (ghost A': set<Triple>, ghost R': set<Triple>)
    requires Between(g0, g.triples, A, R) && SameBut(g.triples, g0, ProvStartedAtTime)
    modifies g
    ensures A' == A + {(p, ProvStartedAtTime, t)} && R' == R + {(a, ProvStartedAtTime, t)}
    ensures g.triples == old(g.triples) + {(p, ProvStartedAtTime, t)} - {(a, ProvStartedAtTime, t)}
    ensures Between(g0, g.triples, A', R') && SameBut(g.triples, g0, ProvStartedAtTime)
  {
    g.Add((p, ProvStartedAtTime, t));
    g.Remove(Pattern(Some(a), Some(ProvStartedAtTime), Some(t)));
    A', R' := A + {(p, ProvStartedAtTime, t)}, R + {(a, ProvStartedAtTime, t)};
  }

  /** The innermost loop: move the start time `t` of `a` onto every plan of association `q`. */
  method RelocateToPlans(g: Graph, ghost g0: set<Triple>, ghost A: set<Triple>, ghost R: set<Triple>, a: Node, q: Node, t: Node)
    returns (ghost A': set<Triple>, ghost R': set<Triple>)
    requires Between(g0, g.triples, A, R) && SameBut(g.triples, g0, ProvStartedAtTime)
    modifies g
    ensures A' == A + TimesOf(Objects(g0, q, ProvHadPlan), t)
    ensures R' == R + (if Objects(g0, q, ProvHadPlan) == {} then {} else {(a, ProvStartedAtTime, t)})
    ensures Between(g0, g.triples, A', R') && SameBut(g.triples, g0, ProvStartedAtTime)
  {
    A', R' := A, R;
    SameButObjects(g.triples, g0, ProvStartedAtTime, q, ProvHadPlan);
    var ps := Objects(g.triples, q, ProvHadPlan);
    ghost var donePs: set<Node> := {};
    while ps != {}
      invariant ps + donePs == Objects(g0, q, ProvHadPlan) && ps !! donePs
      invariant A' == A + TimesOf(donePs, t)
      invariant R' == R + (if donePs == {} then {} else {(a, ProvStartedAtTime, t)})
      invariant Between(g0, g.triples, A', R') && SameBut(g.triples, g0, ProvStartedAtTime)
      decreases ps
    {
      hide Between, SameBut;
      var p :| p in ps;
      A', R' := MoveTime(g, g0, A', R', a, p, t);
      assert TimesOf(donePs + {p}, t) == TimesOf(donePs, t) + {(p, ProvStartedAtTime, t)};
      ps := ps - {p};
      donePs := donePs + {p};
    }
  }

  /** The two inner loops for one (activity, time) pair. */
  method RelocateOne(g: Graph, ghost g0: set<Triple>, ghost A: set<Triple>, ghost R: set<Triple>, a: Node, t: Node)
    returns (ghost A': set<Triple>, ghost R': set<Triple>)
    requires Between(g0, g.triples, A, R) && SameBut(g.triples, g0, ProvStartedAtTime)
    modifies g
    ensures A' == A + TimesOf(Plans(g0, a), t)
    ensures R' == R + (if Plans(g0, a) == {} then {} else {(a, ProvStartedAtTime, t)})
    ensures Between(g0, g.triples, A', R') && SameBut(g.triples, g0, ProvStartedAtTime)
  {
    A', R' := A, R;
    SameButObjects(g.triples, g0, ProvStartedAtTime, a, ProvQualifiedAssociation);
    var qs := Objects(g.triples, a, ProvQualifiedAssociation);
    ghost var doneQs: set<Node> := {};
    while qs != {}
      invariant qs + doneQs == Objects(g0, a, ProvQualifiedAssociation) && qs !! doneQs
      invariant RelocatedVia(g0, g.triples, A, R, A', R', a, doneQs, t)
      decreases qs
    {
      assert Between(g0, g.triples, A', R') && SameBut(g.triples, g0, ProvStartedAtTime);
      hide Between, SameBut, Plans, PlansVia, RelocatedVia;
      var q :| q in qs;
      ghost var (A1, R1, gt1) := (A', R', g.triples);
      A', R' := RelocateToPlans(g, g0, A', R', a, q, t);
      RelocatedViaStep(g0, gt1, g.triples, A, R, A1, R1, A', R', a, doneQs, q, t);
      qs := qs - {q};
      doneQs := doneQs + {q};
    }
  }

  /** What `RelocateOne` has done after visiting the associations `done`. */
  ghost predicate RelocatedVia(g0: set<Triple>, gt: set<Triple>, A0: set<Triple>, R0: set<Triple>,
                               A: set<Triple>, R: set<Triple>, a: Node, done: set<Node>, t: Node)
  {
    A == A0 + TimesOf(PlansVia(g0, done), t)
    && R == R0 + (if PlansVia(g0, done) == {} then {} else {(a, ProvStartedAtTime, t)})
    && Between(g0, gt, A, R) && SameBut(gt, g0, ProvStartedAtTime)
  }

  lemma RelocatedViaStep(g0: set<Triple>, gt1: set<Triple>, gt: set<Triple>, A0: set<Triple>, R0: set<Triple>,
                         A1: set<Triple>, R1: set<Triple>, A2: set<Triple>, R2: set<Triple>,
                         a: Node, done: set<Node>, q: Node, t: Node)
    requires RelocatedVia(g0, gt1, A0, R0, A1, R1, a, done, t)
    requires A2 == A1 + TimesOf(Objects(g0, q, ProvHadPlan), t)
    requires R2 == R1 + (if Objects(g0, q, ProvHadPlan) == {} then {} else {(a, ProvStartedAtTime, t)})
    requires Between(g0, gt, A2, R2) && SameBut(gt, g0, ProvStartedAtTime)
    ensures RelocatedVia(g0, gt, A0, R0, A2, R2, a, done + {q}, t)
  {
    PlansViaStep(g0, done, q);
    TimesOfUnion(PlansVia(g0, done), Objects(g0, q, ProvHadPlan), t);
  }

  lemma TimesOfUnion(ps: set<Node>, qs: set<Node>, t: Node)
    ensures TimesOf(ps + qs, t) == TimesOf(ps, t) + TimesOf(qs, t)
  {
  }

  lemma TimeStep(g: set<Triple>, es: set<(Node, Node)>, e: (Node, Node))
    ensures TimeAdded(g, es + {e}) == TimeAdded(g, es) + TimesOf(Plans(g, e.0), e.1)
    ensures TimeRemoved(g, es + {e}) == TimeRemoved(g, es) + (if Plans(g, e.0) == {} then {} else {(e.0, ProvStartedAtTime, e.1)})
  {
  }

  lemma PlansViaStep(g: set<Triple>, qs: set<Node>, q: Node)
    ensures PlansVia(g, qs + {q}) == PlansVia(g, qs) + Objects(g, q, ProvHadPlan)
  {
  }

  /** One pass of the loop of `extract_activity_start_time` over the timed activity `e`. */
  method RelocateEdge(g: Graph, ghost g0: set<Triple>, ghost A: set<Triple>, ghost R: set<Triple>,
                      ghost done: set<(Node, Node)>, e: (Node, Node))
    returns (ghost A': set<Triple>, ghost R': set<Triple>)
    requires A == TimeAdded(g0, done) && R == TimeRemoved(g0, done)
    requires Between(g0, g.triples, A, R) && SameBut(g.triples, g0, ProvStartedAtTime)
    modifies g
    ensures A' == TimeAdded(g0, done + {e}) && R' == TimeRemoved(g0, done + {e})
    ensures Between(g0, g.triples, A', R') && SameBut(g.triples, g0, ProvStartedAtTime)
  {
    hide Between, SameBut, Plans, TimeAdded, TimeRemoved;
    A', R' := RelocateOne(g, g0, A, R, e.0, e.1);
    TimeStep(g0, done, e);
  }

  /**
   * Moves each activity's start time onto the plans reached through its
   * qualified associations; an activity without a plan keeps its start time.
   * The visiting order decides only the triples that are both added and
   * removed, so the result is fixed outside those.
   */
  method ExtractActivityStartTime(g: Graph)
    modifies g
    ensures var es := Edges(old(g.triples), ProvStartedAtTime);
            Between(old(g.triples), g.triples, TimeAdded(old(g.triples), es), TimeRemoved(old(g.triples), es))
    ensures SameBut(g.triples, old(g.triples), ProvStartedAtTime)
  {
    ghost var g0 := g.triples;
    var todo := Edges(g.triples, ProvStartedAtTime);
    ghost var done: set<(Node, Node)> := {};
    ghost var A: set<Triple> := {};
    ghost var R: set<Triple> := {};
    assert Between(g0, g.triples, A, R) && SameBut(g.triples, g0, ProvStartedAtTime);
    assert A == TimeAdded(g0, done) && R == TimeRemoved(g0, done);
    hide Between, SameBut, Plans, TimeAdded, TimeRemoved;
    while todo != {}
      invariant todo + done == Edges(g0, ProvStartedAtTime) && todo !! done
      invariant A == TimeAdded(g0, done) && R == TimeRemoved(g0, done)
      invariant Between(g0, g.triples, A, R) && SameBut(g.triples, g0, ProvStartedAtTime)
      decreases todo
    {
      var e :| e in todo;
      A, R := RelocateEdge(g, g0, A, R, done, e);
      todo := todo - {e};
      done := done + {e};
    }
  }

  /**
   * After the pass, every plan of a timed activity carries the activity's
   * start time, and the activity no longer does, unless the same triple is
   * also one the pass adds (the activity is itself a plan of another activity
   * with the same time) or removes.
   */
  lemma {:induction false} PlannedTimeMoves(g0: set<Triple>, g: set<Triple>, a: Node, t: Node, p: Node)
    requires Between(g0, g, TimeAdded(g0, Edges(g0, ProvStartedAtTime)), TimeRemoved(g0, Edges(g0, ProvStartedAtTime)))
    requires (a, ProvStartedAtTime, t) in g0 && p in Plans(g0, a)
    ensures (p, ProvStartedAtTime, t) !in TimeRemoved(g0, Edges(g0, ProvStartedAtTime)) ==> (p, ProvStartedAtTime, t) in g
    ensures (a, ProvStartedAtTime, t) !in TimeAdded(g0, Edges(g0, ProvStartedAtTime)) ==> (a, ProvStartedAtTime, t) !in g
  {
    var es := Edges(g0, ProvStartedAtTime);
    EdgesIn(g0, ProvStartedAtTime, a, t);
    var e := (a, t);
    assert (e.0, ProvStartedAtTime, e.1) in TimeRemoved(g0, es);
    assert (p, ProvStartedAtTime, e.1) in TimeAdded(g0, es);
    var R := TimeRemoved(g0, es);
    var A := TimeAdded(g0, es);
    assert (a, ProvStartedAtTime, t) !in A ==> (a, ProvStartedAtTime, t) in R - A;
    assert (a, ProvStartedAtTime, t) !in g * (R - A);
  }

  /** An activity without a plan keeps its start time. */
  lemma {:induction false} UnplannedTimeKept(g0: set<Triple>, g: set<Triple>, a: Node, t: Node)
    requires Between(g0, g, TimeAdded(g0, Edges(g0, ProvStartedAtTime)), TimeRemoved(g0, Edges(g0, ProvStartedAtTime)))
    requires (a, ProvStartedAtTime, t) in g0 && Plans(g0, a) == {}
    ensures (a, ProvStartedAtTime, t) in g
  {
    var es := Edges(g0, ProvStartedAtTime);
    assert forall e :: e in es && Plans(g0, e.0) != {} ==> (e.0, ProvStartedAtTime, e.1) != (a, ProvStartedAtTime, t);
    assert (a, ProvStartedAtTime, t) !in TimeRemoved(g0, es);
  }

  /** A start time appears after the pass only if it was there before or was moved from an activity onto one of its plans. */
  lemma {:induction false} TimeOrigin(g0: set<Triple>, g: set<Triple>, x: Node, t: Node)
    requires Between(g0, g, TimeAdded(g0, Edges(g0, ProvStartedAtTime)), TimeRemoved(g0, Edges(g0, ProvStartedAtTime)))
    requires (x, ProvStartedAtTime, t) in g
    ensures (x, ProvStartedAtTime, t) in g0 || exists a :: (a, ProvStartedAtTime, t) in g0 && x in Plans(g0, a)
  {
    var es := Edges(g0, ProvStartedAtTime);
    if (x, ProvStartedAtTime, t) !in g0 {
      var e, p :| e in es && p in Plans(g0, e.0) && (p, ProvStartedAtTime, e.1) == (x, ProvStartedAtTime, t);
      EdgesIn(g0, ProvStartedAtTime, e.0, e.1);
    }
  }
}
