/**
 * The triple store the passes work on: nodes, triples, the fixed vocabulary,
 * a mutable `Graph` with rdflib's `add` and wildcard `remove`, and the
 * lookups `g[s:p]` / `g[:p]` as functions of the current triple set.
 */
module Rdf {
  import opened Wrappers

  /** An RDF term: an IRI or a literal, given by its lexical form. */
  datatype Node = IRI(iri: string) | Lit(lex: string)

  type Triple = (Node, Node, Node)

  /** The text of a term as Python sees it (`str(node)`, or `.value` of a plain literal). */
  function Text(n: Node): string
  {
    match n
    case IRI(s) => s
    case Lit(s) => s
  }

  /**
   * `n.n3().strip('"')`: an IRI keeps the angle brackets of its N3 form, a
   * literal loses the quotes around its lexical form.
   */
  function N3Text(n: Node): (r: string)
    ensures n.IRI? ==> |r| == |n.iri| + 2 && r[0] == '<' && r[|r| - 1] == '>' && r[1..|r| - 1] == n.iri
    ensures n.Lit? ==> r == n.lex
  {
    match n
    case IRI(s) => "<" + s + ">"
    case Lit(s) => s
  }

  // The vocabulary (rdf, prov, dcterms, oa, schema.org, Renku and oda ontologies).
  const RdfType := IRI("http://www.w3.org/1999/02/22-rdf-syntax-ns#type")
  const ProvHadPlan := IRI("http://www.w3.org/ns/prov#hadPlan")
  const ProvQualifiedAssociation := IRI("http://www.w3.org/ns/prov#qualifiedAssociation")
  const ProvStartedAtTime := IRI("http://www.w3.org/ns/prov#startedAtTime")
  const DctermsTitle := IRI("http://purl.org/dc/terms/title")
  const OaHasTarget := IRI("http://www.w3.org/ns/oa#hasTarget")
  const SchemaDefaultValue := IRI("http://schema.org/defaultValue")
  const RenkuPosition := IRI("https://swissdatasciencecenter.github.io/renku-ontology#position")
  const RenkuHasArguments := IRI("https://swissdatasciencecenter.github.io/renku-ontology#hasArguments")
  const RenkuHasInputs := IRI("https://swissdatasciencecenter.github.io/renku-ontology#hasInputs")
  const RenkuHasOutputs := IRI("https://swissdatasciencecenter.github.io/renku-ontology#hasOutputs")
  const RenkuIsArgumentOf := IRI("https://swissdatasciencecenter.github.io/renku-ontology#isArgumentOf")
  const RenkuIsInputOf := IRI("https://swissdatasciencecenter.github.io/renku-ontology#isInputOf")
  const RenkuCommandParameter := IRI("https://swissdatasciencecenter.github.io/renku-ontology#CommandParameter")
  const RenkuCommandOutputImage := IRI("https://swissdatasciencecenter.github.io/renku-ontology#CommandOutputImage")
  const RenkuCommandOutputFitsFile := IRI("https://swissdatasciencecenter.github.io/renku-ontology#CommandOutputFitsFile")
  const RenkuCommandOutputNotebook := IRI("https://swissdatasciencecenter.github.io/renku-ontology#CommandOutputNotebook")
  const OdaIsUsing := IRI("http://odahub.io/ontology#isUsing")
  const OdaIsRequestingAstroObject := IRI("http://odahub.io/ontology#isRequestingAstroObject")
  const OdaIsRequestingAstroRegion := IRI("http://odahub.io/ontology#isRequestingAstroRegion")
  const OdaIsRequestingAstroImage := IRI("http://odahub.io/ontology#isRequestingAstroImage")
  const OdaIsUsedDuring := IRI("http://odahub.io/ontology#isUsedDuring")
  const OdaRequestsAstroObject := IRI("http://odahub.io/ontology#requestsAstroObject")
  const OdaRequestsAstroRegion := IRI("http://odahub.io/ontology#requestsAstroRegion")
  const OdaRequestsAstroImage := IRI("http://odahub.io/ontology#requestsAstroImage")
  const OdaIsUsingSkyCoordinates := IRI("http://odahub.io/ontology#isUsingSkyCoordinates")
  const OdaIsUsingRadius := IRI("http://odahub.io/ontology#isUsingRadius")
  const OdaIsUsingCoordinates := IRI("http://odahub.io/ontology#isUsingCoordinates")
  const OdaIsUsingPosition := IRI("http://odahub.io/ontology#isUsingPosition")
  const OdaIsUsingPixels := IRI("http://odahub.io/ontology#isUsingPixels")
  const OdaIsUsingImageBand := IRI("http://odahub.io/ontology#isUsingImageBand")

  /** A triple pattern; `None` is rdflib's `None` wildcard. */
  datatype Pattern = Pattern(s: Option<Node>, p: Option<Node>, o: Option<Node>)

  predicate Matches(pat: Pattern, t: Triple)
  {
    (pat.s.None? || pat.s.value == t.0)
    && (pat.p.None? || pat.p.value == t.1)
    && (pat.o.None? || pat.o.value == t.2)
  }

  /** `g[s:p]`: the objects of `s` under `p`. */
  function Objects(g: set<Triple>, s: Node, p: Node): set<Node>
  {
    set t | t in g && t.0 == s && t.1 == p :: t.2
  }

  /** `g[:p]`: the (subject, object) pairs under `p`. */
  function Edges(g: set<Triple>, p: Node): set<(Node, Node)>
  {
    set t | t in g && t.1 == p :: (t.0, t.2)
  }

  lemma ObjectsIn(g: set<Triple>, s: Node, p: Node, o: Node)
    ensures o in Objects(g, s, p) <==> (s, p, o) in g
  {
    if (s, p, o) in g {
      var t: Triple := (s, p, o);
      assert t.2 in Objects(g, s, p);
    }
  }

  lemma EdgesIn(g: set<Triple>, p: Node, s: Node, o: Node)
    ensures (s, o) in Edges(g, p) <==> (s, p, o) in g
  {
    if (s, p, o) in g {
      var t: Triple := (s, p, o);
      assert (t.0, t.2) in Edges(g, p);
    }
  }

  /** `g[s]`: the (predicate, object) pairs of `s`. */
  function Outgoing(g: set<Triple>, s: Node): set<(Node, Node)>
  {
    set t | t in g && t.0 == s :: (t.1, t.2)
  }

  /** Two stores hold the same triples under predicate `p`. */
  ghost predicate AgreeOn(g1: set<Triple>, g2: set<Triple>, p: Node)
  {
    forall t: Triple :: t.1 == p ==> (t in g1 <==> t in g2)
  }

  lemma ObjectsAgree(g1: set<Triple>, g2: set<Triple>, s: Node, p: Node)
    requires AgreeOn(g1, g2, p)
    ensures Objects(g1, s, p) == Objects(g2, s, p)
  {
    forall o ensures o in Objects(g1, s, p) <==> o in Objects(g2, s, p) {
      ObjectsIn(g1, s, p, o);
      ObjectsIn(g2, s, p, o);
    }
  }

  lemma EdgesAgree(g1: set<Triple>, g2: set<Triple>, p: Node)
    requires AgreeOn(g1, g2, p)
    ensures Edges(g1, p) == Edges(g2, p)
  {
    forall e: (Node, Node) ensures e in Edges(g1, p) <==> e in Edges(g2, p) {
      EdgesIn(g1, p, e.0, e.1);
      EdgesIn(g2, p, e.0, e.1);
    }
  }

  /** Taking away triples under other predicates does not change `g[s:p]`. */
  lemma ObjectsMinus(g: set<Triple>, r: set<Triple>, s: Node, p: Node)
    requires forall t :: t in r ==> t.1 != p
    ensures Objects(g - r, s, p) == Objects(g, s, p)
  {
    forall o ensures o in Objects(g - r, s, p) <==> o in Objects(g, s, p) {
      ObjectsIn(g - r, s, p, o);
      ObjectsIn(g, s, p, o);
    }
  }

  /** Adding triples under other predicates does not change `g[s:p]`. */
  lemma ObjectsPlus(g: set<Triple>, r: set<Triple>, s: Node, p: Node)
    requires forall t :: t in r ==> t.1 != p
    ensures Objects(g + r, s, p) == Objects(g, s, p)
  {
    forall o ensures o in Objects(g + r, s, p) <==> o in Objects(g, s, p) {
      ObjectsIn(g + r, s, p, o);
      ObjectsIn(g, s, p, o);
    }
  }

  /** `g[s]` pairs with predicate `p` are exactly `g[s:p]`. */
  lemma OutgoingObjects(g: set<Triple>, s: Node, p: Node)
    ensures (set e | e in Outgoing(g, s) && e.0 == p :: e.1) == Objects(g, s, p)
  {
    forall o ensures o in (set e | e in Outgoing(g, s) && e.0 == p :: e.1) <==> o in Objects(g, s, p) {
      ObjectsIn(g, s, p, o);
      if (s, p, o) in g {
        var t: Triple := (s, p, o);
        assert (t.1, t.2) in Outgoing(g, s);
      }
    }
  }

  /** The one element of a singleton set (`l[0]` after `len(l) == 1`). */
  ghost function TheOne<T>(s: set<T>): T
    requires |s| == 1
  {
    var x :| x in s; x
  }

  lemma TheOneIn<T>(s: set<T>)
    requires |s| == 1
    ensures s == {TheOne(s)}
  {
    TheOneIs(s, TheOne(s));
  }

  lemma TheOneIs<T>(s: set<T>, x: T)
    requires |s| == 1 && x in s
    ensures TheOne(s) == x && s == {x}
  {
    var y := TheOne(s);
    assert |s - {x}| == 0;
  }

  /**
   * rdflib helpers and the numeric and date libraries the core calls into, as
   * functions the model does not look inside.
   */
  datatype Helpers = Helpers(
    /** `label(x, g)`: first label property, else the qname's local part, else the IRI. */
    labelOf: Node -> string,
    /** `g.compute_qname(o)[2]`: the local name of a type IRI. */
    localName: Node -> string,
    /** `.value` of a position literal. */
    intValue: Node -> int,
    /** `SkyCoord(ra, dec, unit='degree')` as `(str(ra.deg), str(dec.deg))`, or a parse failure. */
    skyCoord: (string, string) -> Option<(string, string)>,
    /** `str(Angle(text).arcmin)`, or a parse failure. */
    arcmin: string -> Option<string>,
    /** `list(g[s:p])[0]`: the element the store enumerates first. */
    first: set<Node> -> Node
  )

  /** The store enumerates only members of a set, so its first element is one of them. */
  ghost predicate PicksMembers(h: Helpers)
  {
    forall s: set<Node> :: s != {} ==> h.first(s) in s
  }

  /** The rdflib graph object: a mutable set of triples. */
  class Graph {
    var triples: set<Triple>

    constructor (init: set<Triple>)
      ensures triples == init
    {
      triples := init;
    }

    /** `g.add(t)`. */
    method Add(t: Triple)
      modifies this
      ensures triples == old(triples) + {t}
    {
      triples := triples + {t};
    }

    /** `g.remove(pattern)`: drop every triple the pattern matches. */
    method Remove(pat: Pattern)
      modifies this
      ensures triples == set t | t in old(triples) && !Matches(pat, t)
    {
      triples := set t | t in triples && !Matches(pat, t);
    }
  }
}
