/** `clean_graph`: drop the provenance and typing triples once the passes have used them. */
module Cleaner {
  import opened Wrappers
  import opened Rdf

  /** The eight predicates whose triples `clean_graph` removes, whatever their subject and object. */
  const CleanedPredicates: set<Node> := {
    ProvHadPlan, DctermsTitle, ProvQualifiedAssociation, OaHasTarget,
    RenkuPosition, RenkuHasArguments, RenkuHasInputs, RdfType
  }

  /** The triples that survive cleaning. */
  function Cleaned(ts: set<Triple>): set<Triple>
  {
    set t | t in ts && t.1 !in CleanedPredicates
  }

  /** One wildcard `remove` per predicate, in the order of the source. */
  method CleanGraph(g: Graph)
    modifies g
    ensures g.triples == Cleaned(old(g.triples))
    ensures forall t :: t in g.triples <==> t in old(g.triples) && t.1 !in CleanedPredicates
  {
    g.Remove(Pattern(None, Some(ProvHadPlan), None));
    g.Remove(Pattern(None, Some(DctermsTitle), None));
    g.Remove(Pattern(None, Some(ProvQualifiedAssociation), None));
    g.Remove(Pattern(None, Some(OaHasTarget), None));
    g.Remove(Pattern(None, Some(RenkuPosition), None));
    g.Remove(Pattern(None, Some(RenkuHasArguments), None));
    g.Remove(Pattern(None, Some(RenkuHasInputs), None));
    g.Remove(Pattern(None, Some(RdfType), None));
  }

  /** Cleaning keeps a triple exactly when its predicate is not one of the eight. */
  lemma CleanedKeeps(ts: set<Triple>, t: Triple)
    ensures t in Cleaned(ts) <==> t in ts && t.1 !in CleanedPredicates
  {
  }

  /** A second `clean_graph` changes nothing. */
  lemma CleanedIdempotent(ts: set<Triple>)
    ensures Cleaned(Cleaned(ts)) == Cleaned(ts)
  {
  }
}
