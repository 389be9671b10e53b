/**
 * `analyze_arguments`: collect the (value, position) entries of each
 * action's arguments, then sort them by position, pair them two by two and
 * mint one `CommandParameter` node per pair.
 */
module Arguments {
  import opened Wrappers
  import opened Texts
  import opened Rdf
  import opened Annotator

  /** A collected argument: its default value's text and its position. */
  type ArgEntry = (string, int)

  // ---------------------------------------------------------------------
  // Collecting

  /** The argument nodes of the store. */
  function ArgumentNodes(g: set<Triple>): set<Node>
  {
    set e | e in Edges(g, RenkuHasArguments) :: e.1
  }

  /** The default-value triples of the nodes of `ns` that have exactly one position. */
  function ConsumedOf(g: set<Triple>, ns: set<Node>): set<Triple>
  {
    set t | t in g && t.1 == SchemaDefaultValue && t.0 in ns && |Objects(g, t.0, RenkuPosition)| == 1
  }

  /** The entry a consumed default-value triple contributes. */
  ghost function EntryOf(g: set<Triple>, h: Helpers, t: Triple): ArgEntry
    requires |Objects(g, t.0, RenkuPosition)| == 1
  {
    (N3Text(t.2), h.intValue(TheOne(Objects(g, t.0, RenkuPosition))))
  }

  /** `entry` comes from a consumed default value of `o`. */
  ghost predicate EntryFrom(g: set<Triple>, h: Helpers, o: Node, entry: ArgEntry)
  {
    exists v :: (o, SchemaDefaultValue, v) in g && |Objects(g, o, RenkuPosition)| == 1
                && entry == EntryOf(g, h, (o, SchemaDefaultValue, v))
  }

  /** Every entry of `entries` comes from a consumed default value of `o`. */
  ghost predicate EntriesOf(g: set<Triple>, h: Helpers, o: Node, entries: seq<ArgEntry>)
  {
    forall i :: 0 <= i < |entries| ==> EntryFrom(g, h, o, entries[i])
  }

  /** The default-value triples of `o` with objects in `vs`. */
  function ValueTriples(o: Node, vs: set<Node>): set<Triple>
  {
    set v | v in vs :: (o, SchemaDefaultValue, v)
  }

  /**
   * One step of the inner loop: when `o` has exactly one position, default
   * value `v` becomes an entry and its triple is removed.
   */
  method TakeValue(g: Graph, h: Helpers, o: Node, v: Node) returns (entry: Option<ArgEntry>)
    modifies g
    ensures var positions := Objects(old(g.triples), o, RenkuPosition);
            if |positions| == 1 then
              entry == Some((N3Text(v), h.intValue(TheOne(positions))))
              && g.triples == old(g.triples) - {(o, SchemaDefaultValue, v)}
            else
              entry == None && g.triples == old(g.triples)
  {
    var positions := Objects(g.triples, o, RenkuPosition);
    if |positions| == 1 {
      var pos :| pos in positions;
      TheOneIs(positions, pos);
      entry := Some((N3Text(v), h.intValue(pos)));
      g.Remove(Pattern(Some(o), Some(SchemaDefaultValue), Some(v)));
      assert g.triples == old(g.triples) - {(o, SchemaDefaultValue, v)};
    } else {
      entry := None;
    }
  }

  /**
   * The inner loop for one argument node `o`: when `o` has exactly one
   * position, every default value still attached to it becomes an entry and
   * is removed.
   */
  method TakeValues(g: Graph, ghost g0: set<Triple>, ghost ns: set<Node>, h: Helpers, o: Node)
    returns (entries: seq<ArgEntry>, ghost taken: seq<Node>)
    requires g.triples == g0 - ConsumedOf(g0, ns)
    modifies g
    ensures g.triples == g0 - ConsumedOf(g0, ns + {o})
    ensures EntriesOf(g0, h, o, entries)
    ensures forall t :: t in ConsumedOf(g0, {o}) && o !in ns ==> EntryOf(g0, h, t) in entries
    ensures o in ns ==> entries == []
    ensures |Objects(g0, o, RenkuPosition)| == 1 ==>
              |entries| == |Objects(g0 - ConsumedOf(g0, ns), o, SchemaDefaultValue)|
    // `taken[i]` is the default value behind `entries[i]`, each taken once
    ensures |taken| == |entries|
    ensures forall i :: 0 <= i < |taken| ==>
              (o, SchemaDefaultValue, taken[i]) in ConsumedOf(g0, {o}) && o !in ns
              && entries[i] == EntryOf(g0, h, (o, SchemaDefaultValue, taken[i]))
    ensures forall i, j :: 0 <= i < j < |taken| ==> taken[i] != taken[j]
    ensures forall t :: t in ConsumedOf(g0, {o}) && o !in ns ==> t.2 in taken
    ensures TakenFrom(g0, h, o, ns, taken, entries)
  {
    ghost var single := |Objects(g0, o, RenkuPosition)| == 1;
    ghost var g1 := g.triples;
    ConsumedStep(g0, ns, o);
    ObjectsMinus(g0, ConsumedOf(g0, ns), o, RenkuPosition);
    TakenStart(g0, h, o);
    ValuesMinus(g1, {}, o);
    hide ConsumedOf, ValueTriples, Taken, EntriesOf, EntryOf, Objects;
    var todo := Objects(g.triples, o, SchemaDefaultValue);
    ghost var all := todo;
    ghost var done: set<Node> := {};
    ghost var gone: set<Triple> := {};
    taken := [];
    entries := [];
    while todo != {}
      invariant todo + done == all && todo !! done
      invariant g.triples == g1 - gone
      invariant gone == if single then ValueTriples(o, done) else {}
      invariant Taken(g0, h, o, done, taken, entries)
      invariant |taken| > 0 ==> single && o !in ns
      decreases todo
    {
      var v :| v in todo;
      ValuesMinus(g1, if single then done else {}, o);
      assert Objects(g.triples, o, RenkuPosition) == Objects(g0, o, RenkuPosition);
      var entry := TakeValue(g, h, o, v);
      TakenStep(g0, h, o, done, taken, entries, v);
      if entry.Some? {
        entries := entries + [entry.value];
        taken := taken + [v];
        ValueTriplesStep(o, done, v);
        MinusStep(g1, ValueTriples(o, done), (o, SchemaDefaultValue, v));
        gone := gone + {(o, SchemaDefaultValue, v)};
      }
      MoveOne(todo, done, v);
      todo := todo - {v};
      done := done + {v};
    }
    TakeValuesEnd(g0, ns, h, o, taken, entries);
  }

  /**
   * `taken` lists, once each, the consumed default values of `o` behind
   * `entries`; when `o` is not among the nodes `seen` before it holds all of
   * them, otherwise it is empty.
   */
  ghost predicate TakenFrom(g: set<Triple>, h: Helpers, o: Node, seen: set<Node>, taken: seq<Node>, entries: seq<ArgEntry>)
  {
    && |taken| == |entries|
    && (|taken| > 0 ==> o !in seen)
    && (forall i :: 0 <= i < |taken| ==>
          (o, SchemaDefaultValue, taken[i]) in ConsumedOf(g, {o})
          && entries[i] == EntryOf(g, h, (o, SchemaDefaultValue, taken[i])))
    && (forall i, j :: 0 <= i < j < |taken| ==> taken[i] != taken[j])
    && (o !in seen ==> forall t :: t in ConsumedOf(g, {o}) ==> t.2 in taken)
  }

  /** What the inner loop's account gives once every remaining value of `o` was tried. */
  lemma TakeValuesEnd(g0: set<Triple>, ns: set<Node>, h: Helpers, o: Node, taken: seq<Node>, entries: seq<ArgEntry>)
    requires Taken(g0, h, o, Objects(g0 - ConsumedOf(g0, ns), o, SchemaDefaultValue), taken, entries)
    requires |taken| > 0 ==> |Objects(g0, o, RenkuPosition)| == 1 && o !in ns
    ensures EntriesOf(g0, h, o, entries)
    ensures forall t :: t in ConsumedOf(g0, {o}) && o !in ns ==> EntryOf(g0, h, t) in entries
    ensures o in ns ==> entries == []
    ensures |Objects(g0, o, RenkuPosition)| == 1 ==>
              |entries| == |Objects(g0 - ConsumedOf(g0, ns), o, SchemaDefaultValue)|
    ensures |taken| == |entries|
    ensures forall i :: 0 <= i < |taken| ==>
              (o, SchemaDefaultValue, taken[i]) in ConsumedOf(g0, {o}) && o !in ns
              && entries[i] == EntryOf(g0, h, (o, SchemaDefaultValue, taken[i]))
    ensures forall i, j :: 0 <= i < j < |taken| ==> taken[i] != taken[j]
    ensures forall t :: t in ConsumedOf(g0, {o}) && o !in ns ==> t.2 in taken
    ensures TakenFrom(g0, h, o, ns, taken, entries)
  {
    var g1 := g0 - ConsumedOf(g0, ns);
    ConsumedStep(g0, ns, o);
    forall i | 0 <= i < |entries|
      ensures EntryFrom(g0, h, o, entries[i])
      ensures (o, SchemaDefaultValue, taken[i]) in ConsumedOf(g0, {o})
    {
      ObjectsIn(g1, o, SchemaDefaultValue, taken[i]);
    }
  }

  /**
   * The account of the inner loop after trying the values of `done`:
   * `taken` lists the values taken, once each, and `entries` their entries;
   * when `o` has one position every tried value was taken.
   */
  ghost predicate Taken(g0: set<Triple>, h: Helpers, o: Node, done: set<Node>, taken: seq<Node>, entries: seq<ArgEntry>)
  {
    && |taken| == |entries|
    && (forall i :: 0 <= i < |taken| ==> taken[i] in done)
    && (forall i, j :: 0 <= i < j < |taken| ==> taken[i] != taken[j])
    && (|Objects(g0, o, RenkuPosition)| == 1 ==>
          && |taken| == |done|
          && (forall v :: v in done ==> v in taken)
          && (forall i :: 0 <= i < |taken| ==> entries[i] == EntryOf(g0, h, (o, SchemaDefaultValue, taken[i]))))
  }

  lemma TakenStart(g0: set<Triple>, h: Helpers, o: Node)
    ensures Taken(g0, h, o, {}, [], [])
  {
  }

  /** Removing default-value triples of `o` leaves its positions alone. */
  lemma ValuesMinus(g: set<Triple>, vs: set<Node>, o: Node)
    ensures Objects(g - ValueTriples(o, vs), o, RenkuPosition) == Objects(g, o, RenkuPosition)
    ensures vs == {} ==> ValueTriples(o, vs) == {}
  {
    ObjectsMinus(g, ValueTriples(o, vs), o, RenkuPosition);
  }

  /** Moving `v` from the items still to visit to the visited ones. */
  lemma MoveOne<T>(todo: set<T>, done: set<T>, v: T)
    requires v in todo && todo !! done
    ensures (todo - {v}) + (done + {v}) == todo + done && (todo - {v}) !! (done + {v})
  {
  }

  lemma MinusStep(g: set<Triple>, r: set<Triple>, t: Triple)
    ensures g - r - {t} == g - (r + {t})
  {
  }

  /** Trying one more value `v` keeps the account, whether or not it is taken. */
  lemma TakenStep(g0: set<Triple>, h: Helpers, o: Node, done: set<Node>, taken: seq<Node>, entries: seq<ArgEntry>, v: Node)
    requires Taken(g0, h, o, done, taken, entries) && v !in done
    ensures var positions := Objects(g0, o, RenkuPosition);
            if |positions| == 1 then
              Taken(g0, h, o, done + {v}, taken + [v], entries + [(N3Text(v), h.intValue(TheOne(positions)))])
            else
              Taken(g0, h, o, done + {v}, taken, entries)
  {
  }

  lemma ValueTriplesStep(o: Node, vs: set<Node>, v: Node)
    ensures ValueTriples(o, vs + {v}) == ValueTriples(o, vs) + {(o, SchemaDefaultValue, v)}
  {
  }

  /** Taking the remaining default values of `o` extends the consumed triples by `o`'s. */
  lemma ConsumedStep(g0: set<Triple>, ns: set<Node>, o: Node)
    ensures var g1 := g0 - ConsumedOf(g0, ns);
            var rest := ValueTriples(o, Objects(g1, o, SchemaDefaultValue));
            && (|Objects(g0, o, RenkuPosition)| == 1 ==> g1 - rest == g0 - ConsumedOf(g0, ns + {o}))
            && (|Objects(g0, o, RenkuPosition)| != 1 ==> g1 == g0 - ConsumedOf(g0, ns + {o}))
            && (forall t :: t in ConsumedOf(g0, {o}) && o !in ns ==> t.2 in Objects(g1, o, SchemaDefaultValue))
            && (o in ns && |Objects(g0, o, RenkuPosition)| == 1 ==> Objects(g1, o, SchemaDefaultValue) == {})
  {
    var g1 := g0 - ConsumedOf(g0, ns);
    var rest := ValueTriples(o, Objects(g1, o, SchemaDefaultValue));
    forall t: Triple | t.0 == o && t.1 == SchemaDefaultValue
      ensures t in g1 <==> t.2 in Objects(g1, o, SchemaDefaultValue)
    {
      ObjectsIn(g1, o, SchemaDefaultValue, t.2);
    }
    if o in ns && |Objects(g0, o, RenkuPosition)| == 1 {
      forall v ensures v !in Objects(g1, o, SchemaDefaultValue) {
        ObjectsIn(g1, o, SchemaDefaultValue, v);
        if (o, SchemaDefaultValue, v) in g0 {
          assert (o, SchemaDefaultValue, v) in ConsumedOf(g0, ns);
        }
      }
    }
  }

  /** The argument nodes of the visited `hasArguments` edges. */
  function NodesOf(done: set<(Node, Node)>): set<Node>
  {
    set e | e in done :: e.1
  }

  /** `a` has a visited `hasArguments` edge. */
  ghost predicate HasVisitedArgument(done: set<(Node, Node)>, a: Node)
  {
    exists o :: (a, o) in done
  }

  /**
   * `action_node_dict` after visiting the edges of `done`: a key per visited
   * label, old keys untouched, and each new key mapped to a visited action
   * with that label (the first one visited).
   */
  ghost predicate ActionsRecorded(base: map<string, Node>, d: map<string, Node>, done: set<(Node, Node)>, h: Helpers)
  {
    && d.Keys == base.Keys + (set e | e in done :: h.labelOf(e.0))
    && (forall k :: k in base ==> d[k] == base[k])
    && (forall k :: k in d && k !in base ==> h.labelOf(d[k]) == k && HasVisitedArgument(done, d[k]))
  }

  /** `entry` was collected from an argument of a visited action labelled `k`. */
  ghost predicate CollectedUnder(g: set<Triple>, h: Helpers, done: set<(Node, Node)>, k: string, entry: ArgEntry)
  {
    exists e :: e in done && h.labelOf(e.0) == k && EntryFrom(g, h, e.1, entry)
  }

  /** Everything appended to `args_default_value_dict` was collected under its key. */
  ghost predicate ArgsSound(base: map<string, seq<ArgEntry>>, d: map<string, seq<ArgEntry>>,
                            done: set<(Node, Node)>, g: set<Triple>, h: Helpers)
  {
    forall k, i :: k in d && BaseLength(base, k) <= i < |d[k]| ==> CollectedUnder(g, h, done, k, d[k][i])
  }

  /** The entry of consumed triple `t` is listed under the label of an action one of whose arguments is `t.0`. */
  ghost predicate Listed(g: set<Triple>, h: Helpers, d: map<string, seq<ArgEntry>>, done: set<(Node, Node)>, t: Triple)
    requires |Objects(g, t.0, RenkuPosition)| == 1
  {
    exists e :: e in done && e.1 == t.0 && h.labelOf(e.0) in d && EntryOf(g, h, t) in d[h.labelOf(e.0)]
  }

  /** Every consumed default value of a visited argument has its entry listed. */
  ghost predicate ArgsComplete(d: map<string, seq<ArgEntry>>, done: set<(Node, Node)>, g: set<Triple>, h: Helpers)
  {
    forall t :: t in ConsumedOf(g, NodesOf(done)) ==> Listed(g, h, d, done, t)
  }

  lemma ActionsRecordedStep(base: map<string, Node>, d: map<string, Node>, done: set<(Node, Node)>,
                            e: (Node, Node), h: Helpers)
    requires ActionsRecorded(base, d, done, h)
    ensures var k := h.labelOf(e.0);
            ActionsRecorded(base, if k in d then d else d[k := e.0], done + {e}, h)
  {
    var k := h.labelOf(e.0);
    var d' := if k in d then d else d[k := e.0];
    assert (set x | x in done + {e} :: h.labelOf(x.0)) == (set x | x in done :: h.labelOf(x.0)) + {k};
    forall j | j in d' && j !in base
      ensures h.labelOf(d'[j]) == j && HasVisitedArgument(done + {e}, d'[j])
    {
      if j == k && k !in d {
        assert (e.0, e.1) in done + {e};
      } else {
        var o :| (d[j], o) in done;
        assert (d[j], o) in done + {e};
      }
    }
  }

  lemma ArgsSoundStep(base: map<string, seq<ArgEntry>>, d: map<string, seq<ArgEntry>>,
                      done: set<(Node, Node)>, e: (Node, Node), entries: seq<ArgEntry>,
                      g: set<Triple>, h: Helpers)
    requires DictKeys(base, d, done, h) && ArgsSound(base, d, done, g, h)
    requires EntriesOf(g, h, e.1, entries)
    ensures ArgsSound(base, Record(d, h.labelOf(e.0), entries), done + {e}, g, h)
  {
    var k := h.labelOf(e.0);
    var d' := Record(d, k, entries);
    forall j, i | j in d' && BaseLength(base, j) <= i < |d'[j]|
      ensures CollectedUnder(g, h, done + {e}, j, d'[j][i])
    {
      var n := if k in d then |d[k]| else 0;
      if j == k && i >= n {
        assert d'[j][i] == entries[i - n];
        assert EntryFrom(g, h, e.1, entries[i - n]);
        assert e in done + {e};
      } else {
        assert j in d && d'[j][i] == d[j][i];
        assert CollectedUnder(g, h, done, j, d[j][i]);
        var x :| x in done && h.labelOf(x.0) == j && EntryFrom(g, h, x.1, d[j][i]);
        assert x in done + {e};
      }
    }
  }

  lemma ArgsCompleteStep(d: map<string, seq<ArgEntry>>, done: set<(Node, Node)>, e: (Node, Node),
                         entries: seq<ArgEntry>, g: set<Triple>, h: Helpers)
    requires ArgsComplete(d, done, g, h)
    requires forall t :: t in ConsumedOf(g, {e.1}) && e.1 !in NodesOf(done) ==> EntryOf(g, h, t) in entries
    ensures ArgsComplete(Record(d, h.labelOf(e.0), entries), done + {e}, g, h)
  {
    var k := h.labelOf(e.0);
    var d' := Record(d, k, entries);
    assert NodesOf(done + {e}) == NodesOf(done) + {e.1};
    forall t | t in ConsumedOf(g, NodesOf(done + {e}))
      ensures Listed(g, h, d', done + {e}, t)
    {
      if t.0 in NodesOf(done) {
        assert t in ConsumedOf(g, NodesOf(done));
        var x :| x in done && x.1 == t.0 && h.labelOf(x.0) in d && EntryOf(g, h, t) in d[h.labelOf(x.0)];
        assert d[h.labelOf(x.0)] <= d'[h.labelOf(x.0)];
        assert x in done + {e};
      } else {
        assert t in ConsumedOf(g, {e.1});
        assert EntryOf(g, h, t) in entries;
        assert e in done + {e};
      }
    }
  }

  /** The default-value triples of `o` for the values of `vs`, in order. */
  function TriplesOf(o: Node, vs: seq<Node>): (ts: seq<Triple>)
    ensures |ts| == |vs| && forall i :: 0 <= i < |vs| ==> ts[i] == (o, SchemaDefaultValue, vs[i])
  {
    if vs == [] then [] else [(o, SchemaDefaultValue, vs[0])] + TriplesOf(o, vs[1..])
  }

  /**
   * `t` is a consumed default-value triple of an argument node collected
   * under `k`, and `entry` is its entry.
   */
  ghost predicate Traced(g: set<Triple>, h: Helpers, owner: map<Node, string>, k: string, t: Triple, entry: ArgEntry)
  {
    && t in g && t.1 == SchemaDefaultValue && |Objects(g, t.0, RenkuPosition)| == 1
    && t.0 in owner && owner[t.0] == k
    && entry == EntryOf(g, h, t)
  }

  /** Each visited argument node is owned by the label of one of its actions. */
  ghost predicate Owners(done: set<(Node, Node)>, h: Helpers, owner: map<Node, string>)
  {
    && owner.Keys == NodesOf(done)
    && (forall o :: o in owner ==> exists a :: (a, o) in done && h.labelOf(a) == owner[o])
  }

  /** `src[k][i]` is the traced triple behind the `i`-th entry appended under `k`. */
  ghost predicate AlignedAt(base: map<string, seq<ArgEntry>>, d: map<string, seq<ArgEntry>>, g: set<Triple>, h: Helpers,
                            owner: map<Node, string>, src: map<string, seq<Triple>>, k: string)
  {
    && k in d && k in src
    && BaseLength(base, k) <= |d[k]| && |src[k]| == |d[k]| - BaseLength(base, k)
    && forall i :: 0 <= i < |src[k]| ==> Traced(g, h, owner, k, src[k][i], d[k][BaseLength(base, k) + i])
  }

  /** Every label's new entries are aligned with their triples. */
  ghost predicate Aligned(base: map<string, seq<ArgEntry>>, d: map<string, seq<ArgEntry>>, g: set<Triple>, h: Helpers,
                          owner: map<Node, string>, src: map<string, seq<Triple>>)
  {
    && src.Keys == d.Keys
    && forall k :: k in d ==> AlignedAt(base, d, g, h, owner, src, k)
  }

  /** No triple is listed twice under one label. */
  ghost predicate Distinct(src: map<string, seq<Triple>>)
  {
    forall k, i, j :: k in src && 0 <= i < j < |src[k]| ==> src[k][i] != src[k][j]
  }

  /** Every consumed triple is listed under its node's label. */
  ghost predicate SourcesListed(g: set<Triple>, done: set<(Node, Node)>, owner: map<Node, string>, src: map<string, seq<Triple>>)
  {
    forall t :: t in ConsumedOf(g, NodesOf(done)) ==> t.0 in owner && owner[t.0] in src && t in src[owner[t.0]]
  }

  /**
   * Where the new entries of `d` came from.  `owner` maps each visited
   * argument node to the label of one of its actions, the one its values
   * went to; `src[k]` lists, without repetition, the consumed triple behind
   * each entry appended under `k`; and every consumed triple is listed under
   * its node's label.  So every consumed default value gives exactly one
   * entry, under exactly one label, and a node reached again gives none.
   */
  ghost predicate Provenance(base: map<string, seq<ArgEntry>>, d: map<string, seq<ArgEntry>>,
                             done: set<(Node, Node)>, g: set<Triple>, h: Helpers,
                             owner: map<Node, string>, src: map<string, seq<Triple>>)
  {
    Owners(done, h, owner) && Aligned(base, d, g, h, owner, src) && Distinct(src) && SourcesListed(g, done, owner, src)
  }

  /** The consumed default-value triples of the argument nodes owned by `k`. */
  ghost function OwnedBy(g: set<Triple>, done: set<(Node, Node)>, owner: map<Node, string>, k: string): set<Triple>
  {
    set t | t in ConsumedOf(g, NodesOf(done)) && t.0 in owner && owner[t.0] == k
  }

  /**
   * The count the account gives: under every label, as many entries were
   * appended as there are consumed default values of the nodes it owns.
   */
  lemma ProvenanceCount(base: map<string, seq<ArgEntry>>, d: map<string, seq<ArgEntry>>,
                        done: set<(Node, Node)>, g: set<Triple>, h: Helpers,
                        owner: map<Node, string>, src: map<string, seq<Triple>>, k: string)
    requires Provenance(base, d, done, g, h, owner, src)
    requires k in d
    ensures |d[k]| - BaseLength(base, k) == |OwnedBy(g, done, owner, k)|
  {
    assert AlignedAt(base, d, g, h, owner, src, k);
    var s := src[k];
    forall t | t in OwnedBy(g, done, owner, k) ensures t in s { }
    forall i | 0 <= i < |s| ensures s[i] in OwnedBy(g, done, owner, k)
    {
      assert Traced(g, h, owner, k, s[i], d[k][BaseLength(base, k) + i]);
      assert s[i].0 in NodesOf(done);
    }
    assert (set t | t in s) == OwnedBy(g, done, owner, k);
    DistinctCard(s);
  }

  /** A sequence without repetitions has as many elements as its set. */
  lemma {:induction false} DistinctCard<T>(s: seq<T>)
    requires forall i, j :: 0 <= i < j < |s| ==> s[i] != s[j]
    ensures |set x | x in s| == |s|
  {
    if s != [] {
      DistinctCard(s[1..]);
      assert (set x | x in s) == {s[0]} + (set x | x in s[1..]);
      assert s[0] !in s[1..];
    }
  }

  lemma ProvenanceStart(base: map<string, seq<ArgEntry>>, g: set<Triple>, h: Helpers)
    ensures Provenance(base, base, {}, g, h, map[], map k | k in base :: [])
  {
    assert NodesOf({}) == {};
    forall k | k in base
      ensures BaseLength(base, k) == |base[k]|
    {
    }
  }

  /**
   * Visiting edge `e`, with the values `taken` of `e.1` behind the new
   * entries, keeps the account: a node not seen before goes to `e`'s label
   * along with its triples.
   */
  lemma ProvenanceStep(base: map<string, seq<ArgEntry>>, d: map<string, seq<ArgEntry>>,
                       done: set<(Node, Node)>, e: (Node, Node), entries: seq<ArgEntry>, taken: seq<Node>,
                       g: set<Triple>, h: Helpers, owner: map<Node, string>, src: map<string, seq<Triple>>)
    requires DictKeys(base, d, done, h) && Provenance(base, d, done, g, h, owner, src)
    requires TakenFrom(g, h, e.1, NodesOf(done), taken, entries)
    ensures var k := h.labelOf(e.0);
            Provenance(base, Record(d, k, entries), done + {e}, g, h,
                       if e.1 in owner then owner else owner[e.1 := k], Record(src, k, TriplesOf(e.1, taken)))
  {
    var k := h.labelOf(e.0);
    assert owner.Keys == NodesOf(done) && src.Keys == d.Keys && (k !in d ==> k !in base);
    ProvenanceOwners(done, e, h, owner);
    ProvenanceTraced(base, d, e.1, k, entries, taken, g, h, owner, src);
    ProvenanceDistinct(base, d, e.1, k, entries, taken, g, h, owner, src);
    ProvenanceListed(d, done, e, entries, taken, g, h, owner, src);
  }

  lemma ProvenanceOwners(done: set<(Node, Node)>, e: (Node, Node), h: Helpers, owner: map<Node, string>)
    requires Owners(done, h, owner)
    ensures Owners(done + {e}, h, if e.1 in owner then owner else owner[e.1 := h.labelOf(e.0)])
  {
    NodesOfStep(done, e);
    var owner' := if e.1 in owner then owner else owner[e.1 := h.labelOf(e.0)];
    forall o | o in owner'
      ensures exists a :: (a, o) in done + {e} && h.labelOf(a) == owner'[o]
    {
      if o in owner {
        var a :| (a, o) in done && h.labelOf(a) == owner[o];
        assert (a, o) in done + {e};
      } else {
        assert (e.0, e.1) in done + {e};
      }
    }
  }

  /** The traced triples of the old labels keep their trace when `o` becomes owned by `k`. */
  lemma ProvenanceTraced(base: map<string, seq<ArgEntry>>, d: map<string, seq<ArgEntry>>, o: Node, k: string,
                         entries: seq<ArgEntry>, taken: seq<Node>,
                         g: set<Triple>, h: Helpers, owner: map<Node, string>, src: map<string, seq<Triple>>)
    requires Aligned(base, d, g, h, owner, src)
    requires k !in d ==> k !in base
    requires TakenFrom(g, h, o, owner.Keys, taken, entries)
    ensures Aligned(base, Record(d, k, entries), g, h, if o in owner then owner else owner[o := k],
                    Record(src, k, TriplesOf(o, taken)))
  {
    var d' := Record(d, k, entries);
    var owner' := if o in owner then owner else owner[o := k];
    var src' := Record(src, k, TriplesOf(o, taken));
    forall j | j in d'
      ensures AlignedAt(base, d', g, h, owner', src', j)
    {
      if j == k {
        if k in d {
          AlignedKept(base, d, g, h, owner, owner', src, k);
        }
        AlignedNew(base, d, o, k, entries, taken, g, h, owner, src);
      } else {
        AlignedOld(base, d, d', j, g, h, owner, owner', src, src');
      }
    }
  }

  /** The label `k` of the visited edge stays aligned after its append. */
  lemma AlignedNew(base: map<string, seq<ArgEntry>>, d: map<string, seq<ArgEntry>>, o: Node, k: string,
                   entries: seq<ArgEntry>, taken: seq<Node>,
                   g: set<Triple>, h: Helpers, owner: map<Node, string>, src: map<string, seq<Triple>>)
    requires src.Keys == d.Keys
    requires k in d ==> AlignedAt(base, d, g, h, if o in owner then owner else owner[o := k], src, k)
    requires k !in d ==> k !in base
    requires TakenFrom(g, h, o, owner.Keys, taken, entries)
    ensures AlignedAt(base, Record(d, k, entries), g, h, if o in owner then owner else owner[o := k],
                      Record(src, k, TriplesOf(o, taken)), k)
  {
    var owner' := if o in owner then owner else owner[o := k];
    var ts := TriplesOf(o, taken);
    var d' := Record(d, k, entries);
    var src' := Record(src, k, ts);
    TracedNew(g, h, owner', o, k, owner.Keys, taken, entries);
    assert |ts| == |entries|;
    hide Traced, TakenFrom, TriplesOf;
    if k in d {
      assert AlignedAt(base, d, g, h, owner', src, k);
      TracedAppend(base, d', src', g, h, owner', k, src[k], d[k], ts, entries);
    } else {
      TracedAppend(base, d', src', g, h, owner', k, [], [], ts, entries);
    }
  }

  /** An aligned label stays aligned, on the old entries, under a larger `owner'`. */
  lemma AlignedKept(base: map<string, seq<ArgEntry>>, d: map<string, seq<ArgEntry>>, g: set<Triple>, h: Helpers,
                    owner: map<Node, string>, owner': map<Node, string>, src: map<string, seq<Triple>>, k: string)
    requires Aligned(base, d, g, h, owner, src) && k in d
    requires forall o :: o in owner ==> o in owner' && owner'[o] == owner[o]
    ensures AlignedAt(base, d, g, h, owner', src, k)
  {
    assert AlignedAt(base, d, g, h, owner, src, k);
    forall i | 0 <= i < |src[k]|
      ensures Traced(g, h, owner', k, src[k][i], d[k][BaseLength(base, k) + i])
    {
      TracedKept(g, h, owner, owner', k, src[k][i], d[k][BaseLength(base, k) + i]);
    }
  }

  /** Appending traced triples and their entries keeps the alignment of one label. */
  lemma TracedAppend(base: map<string, seq<ArgEntry>>, d: map<string, seq<ArgEntry>>, src: map<string, seq<Triple>>,
                     g: set<Triple>, h: Helpers, owner: map<Node, string>, k: string,
                     oldSrc: seq<Triple>, oldD: seq<ArgEntry>, ts: seq<Triple>, entries: seq<ArgEntry>)
    requires k in d && k in src && d[k] == oldD + entries && src[k] == oldSrc + ts
    requires BaseLength(base, k) <= |oldD| && |oldSrc| == |oldD| - BaseLength(base, k) && |ts| == |entries|
    requires forall i :: 0 <= i < |oldSrc| ==> Traced(g, h, owner, k, oldSrc[i], oldD[BaseLength(base, k) + i])
    requires forall i :: 0 <= i < |ts| ==> Traced(g, h, owner, k, ts[i], entries[i])
    ensures AlignedAt(base, d, g, h, owner, src, k)
  {
    hide Traced;
    var b := BaseLength(base, k);
    forall i | 0 <= i < |src[k]|
      ensures Traced(g, h, owner, k, src[k][i], d[k][b + i])
    {
      if i < |oldSrc| {
        assert src[k][i] == oldSrc[i] && d[k][b + i] == oldD[b + i];
      } else {
        assert src[k][i] == ts[i - |oldSrc|] && d[k][b + i] == entries[i - |oldSrc|];
      }
    }
  }

  /** Any other label keeps its alignment. */
  lemma AlignedOld(base: map<string, seq<ArgEntry>>, d: map<string, seq<ArgEntry>>, d': map<string, seq<ArgEntry>>,
                   j: string, g: set<Triple>, h: Helpers, owner: map<Node, string>, owner': map<Node, string>,
                   src: map<string, seq<Triple>>, src': map<string, seq<Triple>>)
    requires Aligned(base, d, g, h, owner, src)
    requires j in d && j in d' && j in src' && d'[j] == d[j] && src'[j] == src[j]
    requires forall o :: o in owner ==> o in owner' && owner'[o] == owner[o]
    ensures AlignedAt(base, d', g, h, owner', src', j)
  {
    assert AlignedAt(base, d, g, h, owner, src, j);
    forall i | 0 <= i < |src[j]|
      ensures Traced(g, h, owner', j, src[j][i], d[j][BaseLength(base, j) + i])
    {
      TracedKept(g, h, owner, owner', j, src[j][i], d[j][BaseLength(base, j) + i]);
    }
  }

  lemma TracedKept(g: set<Triple>, h: Helpers, owner: map<Node, string>, owner': map<Node, string>,
                   k: string, t: Triple, entry: ArgEntry)
    requires Traced(g, h, owner, k, t, entry)
    requires forall o :: o in owner ==> o in owner' && owner'[o] == owner[o]
    ensures Traced(g, h, owner', k, t, entry)
  {
  }

  /** The values taken from `o` are traced once `o` is owned by `k`. */
  lemma TracedNew(g: set<Triple>, h: Helpers, owner: map<Node, string>, o: Node, k: string,
                  seen: set<Node>, taken: seq<Node>, entries: seq<ArgEntry>)
    requires |taken| > 0 ==> o in owner && owner[o] == k
    requires TakenFrom(g, h, o, seen, taken, entries)
    ensures forall i :: 0 <= i < |taken| ==> Traced(g, h, owner, k, TriplesOf(o, taken)[i], entries[i])
  {
  }

  /** Appending the triples of a node not yet owned keeps every label free of repeats. */
  lemma ProvenanceDistinct(base: map<string, seq<ArgEntry>>, d: map<string, seq<ArgEntry>>, o: Node, k: string,
                           entries: seq<ArgEntry>, taken: seq<Node>, g: set<Triple>, h: Helpers,
                           owner: map<Node, string>, src: map<string, seq<Triple>>)
    requires Aligned(base, d, g, h, owner, src) && Distinct(src)
    requires TakenFrom(g, h, o, owner.Keys, taken, entries)
    ensures Distinct(Record(src, k, TriplesOf(o, taken)))
  {
    var ts := TriplesOf(o, taken);
    var old_ := if k in src then src[k] else [];
    forall i | 0 <= i < |old_|
      ensures old_[i].0 in owner
    {
      assert AlignedAt(base, d, g, h, owner, src, k);
      assert Traced(g, h, owner, k, src[k][i], d[k][BaseLength(base, k) + i]);
    }
    DistinctAppend(old_, ts, o, owner);
    var src' := Record(src, k, ts);
    forall j, i, l | j in src' && 0 <= i < l < |src'[j]|
      ensures src'[j][i] != src'[j][l]
    {
      if j != k {
        assert src'[j] == src[j];
      }
    }
  }

  lemma DistinctAppend(a: seq<Triple>, ts: seq<Triple>, o: Node, owner: map<Node, string>)
    requires forall i, j :: 0 <= i < j < |a| ==> a[i] != a[j]
    requires forall i, j :: 0 <= i < j < |ts| ==> ts[i] != ts[j]
    requires forall i :: 0 <= i < |a| ==> a[i].0 in owner
    requires forall i :: 0 <= i < |ts| ==> ts[i].0 == o
    requires |ts| > 0 ==> o !in owner
    ensures forall i, j :: 0 <= i < j < |a + ts| ==> (a + ts)[i] != (a + ts)[j]
  {
  }

  lemma ProvenanceListed(d: map<string, seq<ArgEntry>>, done: set<(Node, Node)>, e: (Node, Node),
                         entries: seq<ArgEntry>, taken: seq<Node>,
                         g: set<Triple>, h: Helpers, owner: map<Node, string>, src: map<string, seq<Triple>>)
    requires owner.Keys == NodesOf(done) && src.Keys == d.Keys
    requires SourcesListed(g, done, owner, src)
    requires TakenFrom(g, h, e.1, NodesOf(done), taken, entries)
    ensures SourcesListed(g, done + {e}, if e.1 in owner then owner else owner[e.1 := h.labelOf(e.0)],
                    Record(src, h.labelOf(e.0), TriplesOf(e.1, taken)))
  {
    var k := h.labelOf(e.0);
    var owner' := if e.1 in owner then owner else owner[e.1 := k];
    var ts := TriplesOf(e.1, taken);
    var src' := Record(src, k, ts);
    NodesOfStep(done, e);
    forall t | t in ConsumedOf(g, NodesOf(done + {e}))
      ensures t.0 in owner' && owner'[t.0] in src' && t in src'[owner'[t.0]]
    {
      if t.0 in NodesOf(done) {
        assert t in ConsumedOf(g, NodesOf(done));
        assert src[owner[t.0]] <= src'[owner[t.0]];
      } else {
        assert t in ConsumedOf(g, {e.1});
        var m :| 0 <= m < |taken| && taken[m] == t.2;
        assert ts[m] == t;
        assert src'[k] == (if k in src then src[k] else []) + ts;
      }
    }
  }

  lemma NodesOfStep(done: set<(Node, Node)>, e: (Node, Node))
    ensures NodesOf(done + {e}) == NodesOf(done) + {e.1}
  {
  }

  /** The account of the first loop of `analyze_arguments` after visiting the edges of `done`. */
  ghost predicate Collected(actions: map<string, Node>, actions': map<string, Node>,
                            args: map<string, seq<ArgEntry>>, args': map<string, seq<ArgEntry>>,
                            done: set<(Node, Node)>, g: set<Triple>, h: Helpers,
                            owner: map<Node, string>, src: map<string, seq<Triple>>)
  {
    && ActionsRecorded(actions, actions', done, h)
    && DictKeys(args, args', done, h)
    && ArgsSound(args, args', done, g, h)
    && ArgsComplete(args', done, g, h)
    && Provenance(args, args', done, g, h, owner, src)
  }

  /** Visiting edge `e`, whose argument gave `entries` from the values `taken`, keeps the account. */
  lemma CollectedStep(actions: map<string, Node>, actions': map<string, Node>,
                      args: map<string, seq<ArgEntry>>, args': map<string, seq<ArgEntry>>,
                      done: set<(Node, Node)>, e: (Node, Node), entries: seq<ArgEntry>, taken: seq<Node>,
                      g: set<Triple>, h: Helpers, owner: map<Node, string>, src: map<string, seq<Triple>>)
    requires Collected(actions, actions', args, args', done, g, h, owner, src)
    requires EntriesOf(g, h, e.1, entries)
    requires forall t :: t in ConsumedOf(g, {e.1}) && e.1 !in NodesOf(done) ==> EntryOf(g, h, t) in entries
    requires TakenFrom(g, h, e.1, NodesOf(done), taken, entries)
    ensures var k := h.labelOf(e.0);
            Collected(actions, if k in actions' then actions' else actions'[k := e.0],
                      args, Record(args', k, entries), done + {e}, g, h,
                      if e.1 in owner then owner else owner[e.1 := k], Record(src, k, TriplesOf(e.1, taken)))
  {
    hide ActionsRecorded, DictKeys, ArgsSound, ArgsComplete, Provenance, TakenFrom, EntriesOf, ConsumedOf, NodesOf;
    ActionsRecordedStep(actions, actions', done, e, h);
    DictKeysStep(args, args', done, e, entries, h);
    ArgsSoundStep(args, args', done, e, entries, g, h);
    ArgsCompleteStep(args', done, e, entries, g, h);
    ProvenanceStep(args, args', done, e, entries, taken, g, h, owner, src);
  }

  /**
   * The first loop of `analyze_arguments`: for every `hasArguments` edge,
   * register the action under its label (first one wins), make sure the
   * label has an entry list, and move the default values of each argument
   * with exactly one position into that list.  An argument node reached a
   * second time adds nothing, its values being gone; the ghost `owner` and
   * `src` record which label each node's values went to.
   */
  method CollectArguments(g: Graph, h: Helpers, actions: map<string, Node>, args: map<string, seq<ArgEntry>>)
    returns (actions': map<string, Node>, args': map<string, seq<ArgEntry>>,
             ghost owner: map<Node, string>, ghost src: map<string, seq<Triple>>)
    modifies g
    ensures g.triples == old(g.triples) - ConsumedOf(old(g.triples), ArgumentNodes(old(g.triples)))
    ensures ActionsRecorded(actions, actions', Edges(old(g.triples), RenkuHasArguments), h)
    ensures DictKeys(args, args', Edges(old(g.triples), RenkuHasArguments), h)
    ensures ArgsSound(args, args', Edges(old(g.triples), RenkuHasArguments), old(g.triples), h)
    ensures ArgsComplete(args', Edges(old(g.triples), RenkuHasArguments), old(g.triples), h)
    ensures Provenance(args, args', Edges(old(g.triples), RenkuHasArguments), old(g.triples), h, owner, src)
  {
    ghost var g0 := g.triples;
    var todo := Edges(g.triples, RenkuHasArguments);
    ghost var all := todo;
    ghost var done: set<(Node, Node)> := {};
    actions', args' := actions, args;
    owner, src := map[], map k | k in args :: [];
    DictKeysStart(args, h);
    ProvenanceStart(args, g0, h);
    while todo != {}
      invariant todo + done == all && todo !! done
      invariant g.triples == g0 - ConsumedOf(g0, NodesOf(done))
      invariant Collected(actions, actions', args, args', done, g0, h, owner, src)
      decreases todo
    {
      hide Collected, ConsumedOf, NodesOf;
      var e :| e in todo;
      var key := h.labelOf(e.0);
      var entries, taken := TakeValues(g, g0, NodesOf(done), h, e.1);
      CollectedStep(actions, actions', args, args', done, e, entries, taken, g0, h, owner, src);
      if key !in actions' {
        actions' := actions'[key := e.0];
      }
      if e.1 !in owner {
        owner := owner[e.1 := key];
      }
      src := Record(src, key, TriplesOf(e.1, taken));
      args' := Record(args', key, entries);
      NodesOfStep(done, e);
      MoveOne(todo, done, e);
      todo := todo - {e};
      done := done + {e};
    }
    assert NodesOf(done) == ArgumentNodes(g0);
  }

  // ---------------------------------------------------------------------
  // Sorting, pairing and minting

  /** Ordered by position. */
  predicate SortedByPosition(xs: seq<ArgEntry>)
  {
    forall i, j :: 0 <= i < j < |xs| ==> xs[i].1 <= xs[j].1
  }

  /** Insert `x` before the first entry whose position is not smaller. */
  function InsertByPosition(x: ArgEntry, xs: seq<ArgEntry>): (r: seq<ArgEntry>)
    requires SortedByPosition(xs)
    ensures SortedByPosition(r)
    ensures multiset(r) == multiset(xs) + multiset{x}
    ensures |r| == |xs| + 1
    ensures r[0] == x || (|xs| > 0 && r[0] == xs[0])
  {
    if |xs| == 0 || x.1 <= xs[0].1 then [x] + xs
    else
      assert xs == [xs[0]] + xs[1..];
      var rest := InsertByPosition(x, xs[1..]);
      assert rest[0].1 >= xs[0].1;
      ConsSorted(xs[0], rest);
      [xs[0]] + rest
  }

  lemma ConsSorted(y: ArgEntry, rest: seq<ArgEntry>)
    requires SortedByPosition(rest) && (|rest| > 0 ==> y.1 <= rest[0].1)
    ensures SortedByPosition([y] + rest)
  {
    var r := [y] + rest;
    forall i, j | 0 <= i < j < |r| ensures r[i].1 <= r[j].1 {
      if i == 0 {
        assert r[j] == rest[j - 1];
        assert rest[0].1 <= rest[j - 1].1;
      } else {
        assert r[i] == rest[i - 1] && r[j] == rest[j - 1];
      }
    }
  }

  /**
   * `list.sort(key=lambda e: e[1])`: a stable sort by position, written as
   * an insertion sort in which each entry goes in front of the later
   * entries with the same position.
   */
  function SortByPosition(xs: seq<ArgEntry>): (r: seq<ArgEntry>)
    ensures SortedByPosition(r)
    ensures multiset(r) == multiset(xs)
    ensures |r| == |xs|
  {
    if |xs| == 0 then []
    else
      assert xs == [xs[0]] + xs[1..];
      var r := InsertByPosition(xs[0], SortByPosition(xs[1..]));
      assert |r| == |multiset(r)|;
      r
  }

  /** `zip(it, it)` over one iterator: consecutive pairs, the odd last element dropped. */
  function Pairs<T>(xs: seq<T>): (ps: seq<(T, T)>)
    ensures |ps| == |xs| / 2
    ensures forall k :: 0 <= k < |ps| ==> ps[k] == (xs[2 * k], xs[2 * k + 1])
  {
    if |xs| < 2 then [] else [(xs[0], xs[1])] + Pairs(xs[2..])
  }

  const ParametersPrefix := "https://github.com/plans/84d9b437-4a55-4573-9aa3-4669ff641f1b/parameters/"

  /** The IRI minted for the pair of values `x`, `y`: the prefix, then both values with spaces as `_`. */
  function ParamNode(x: string, y: string): Node
  {
    IRI(ParametersPrefix + ReplaceChar(x, ' ', '_') + "_" + ReplaceChar(y, ' ', '_'))
  }

  /** The three triples added for one pair: the `isArgumentOf` link, the joined value and the type. */
  function ParamTriples(a: Node, p: (ArgEntry, ArgEntry)): set<Triple>
  {
    var n := ParamNode(p.0.0, p.1.0);
    {(n, RenkuIsArgumentOf, a), (n, SchemaDefaultValue, Lit(Strip(p.0.0 + " " + p.1.0))), (n, RdfType, RenkuCommandParameter)}
  }

  /** The triples added for the pairs `ps` of action `a`. */
  function MintedFor(a: Node, ps: seq<(ArgEntry, ArgEntry)>): set<Triple>
  {
    if |ps| == 0 then {} else MintedFor(a, ps[..|ps| - 1]) + ParamTriples(a, ps[|ps| - 1])
  }

  /** The triples added for action `a` with collected entries `es`. */
  function MintedKey(a: Node, es: seq<ArgEntry>): set<Triple>
  {
    MintedFor(a, Pairs(SortByPosition(es)))
  }

  /** The triples added for the labels of `ks` that have an action. */
  function MintedOver(args: map<string, seq<ArgEntry>>, actions: map<string, Node>, ks: set<string>): set<Triple>
  {
    set k, t | k in ks && k in args && k in actions && t in MintedKey(actions[k], args[k]) :: t
  }

  /** Some label with at least one pair has no action: `action_node_dict[action]` raises. */
  predicate MissingAction(args: map<string, seq<ArgEntry>>, actions: map<string, Node>)
  {
    exists k :: k in args && |args[k]| >= 2 && k !in actions
  }

  lemma MintedOverStep(args: map<string, seq<ArgEntry>>, actions: map<string, Node>, ks: set<string>, k: string)
    requires k in args
    ensures MintedOver(args, actions, ks + {k})
            == MintedOver(args, actions, ks) + (if k in actions then MintedKey(actions[k], args[k]) else {})
  {
  }

  lemma MintedForStep(a: Node, ps: seq<(ArgEntry, ArgEntry)>, j: nat)
    requires j < |ps|
    ensures MintedFor(a, ps[..j + 1]) == MintedFor(a, ps[..j]) + ParamTriples(a, ps[j])
  {
    hide ParamTriples;
    assert ps[..j + 1][..j] == ps[..j];
  }

  /** The triples minted for pairs `ps` are the three of each pair, and nothing else. */
  lemma {:induction false} MintedForMembers(a: Node, ps: seq<(ArgEntry, ArgEntry)>, t: Triple)
    ensures t in MintedFor(a, ps) <==> exists k :: 0 <= k < |ps| && t in ParamTriples(a, ps[k])
  {
    hide ParamTriples;
    if |ps| > 0 {
      var init := ps[..|ps| - 1];
      MintedForMembers(a, init, t);
      if t in MintedFor(a, init) {
        var k :| 0 <= k < |init| && t in ParamTriples(a, init[k]);
        assert ps[k] == init[k];
      }
      if exists k :: 0 <= k < |ps| && t in ParamTriples(a, ps[k]) {
        var k :| 0 <= k < |ps| && t in ParamTriples(a, ps[k]);
        if k < |init| {
          assert init[k] == ps[k];
        }
      }
    }
  }

  /** The subjects of the minted triples. */
  function MintedNodes(ts: set<Triple>): set<Node>
  {
    set t | t in ts :: t.0
  }

  /** At most one parameter node per pair (fewer when two pairs mint the same IRI). */
  lemma {:induction false} MintedForNodes(a: Node, ps: seq<(ArgEntry, ArgEntry)>)
    ensures |MintedNodes(MintedFor(a, ps))| <= |ps|
  {
    hide ParamTriples, ParamNode;
    if |ps| > 0 {
      var init := ps[..|ps| - 1];
      var last := ps[|ps| - 1];
      MintedForNodes(a, init);
      ParamTriplesNode(a, last);
      MintedNodesUnion(MintedFor(a, init), ParamTriples(a, last));
    }
  }

  /** The three triples of a pair share one subject, the minted node. */
  lemma ParamTriplesNode(a: Node, p: (ArgEntry, ArgEntry))
    ensures MintedNodes(ParamTriples(a, p)) == {ParamNode(p.0.0, p.1.0)}
  {
    hide ParamNode;
  }

  lemma MintedNodesUnion(ts: set<Triple>, us: set<Triple>)
    ensures MintedNodes(ts + us) == MintedNodes(ts) + MintedNodes(us)
  {
  }

  /** An odd last element has no partner and is dropped. */
  lemma {:induction false} PairsDropOddLast<T>(xs: seq<T>)
    requires |xs| % 2 == 1
    ensures Pairs(xs) == Pairs(xs[..|xs| - 1])
  {
    var ys := xs[..|xs| - 1];
    assert |Pairs(xs)| == |Pairs(ys)|;
    forall k | 0 <= k < |Pairs(xs)| ensures Pairs(xs)[k] == Pairs(ys)[k] {
      assert ys[2 * k] == xs[2 * k] && ys[2 * k + 1] == xs[2 * k + 1];
    }
  }

  // For an action with collected entries `es`, what is minted is
  // `MintedFor(a, Pairs(v))` with `v == SortByPosition(es)`; the lemmas
  // below are stated for any such `v` (see also `MintedForNodes` and
  // `PairsDropOddLast`).

  /** The `k`-th parameter is minted from `v[2k]` and `v[2k+1]`. */
  lemma PairMinted(a: Node, v: seq<ArgEntry>, k: nat)
    requires k < |v| / 2
    ensures ParamTriples(a, (v[2 * k], v[2 * k + 1])) <= MintedFor(a, Pairs(v))
  {
    hide ParamTriples;
    var ps := Pairs(v);
    forall t | t in ParamTriples(a, ps[k]) ensures t in MintedFor(a, ps) {
      MintedForMembers(a, ps, t);
    }
  }

  /** Every minted triple belongs to the parameter of some pair `v[2k]`, `v[2k+1]`. */
  lemma MintedFromPair(a: Node, v: seq<ArgEntry>, t: Triple)
    requires t in MintedFor(a, Pairs(v))
    ensures exists k :: 0 <= k < |v| / 2 && t in ParamTriples(a, (v[2 * k], v[2 * k + 1]))
  {
    hide ParamTriples;
    var ps := Pairs(v);
    MintedForMembers(a, ps, t);
    var k :| 0 <= k < |ps| && t in ParamTriples(a, ps[k]);
    assert ps[k] == (v[2 * k], v[2 * k + 1]);
  }

  /** The three `g.add` calls for one pair. */
  method AddParam(g: Graph, a: Node, p: (ArgEntry, ArgEntry))
    modifies g
    ensures g.triples == old(g.triples) + ParamTriples(a, p)
  {
    var x, y := p.0, p.1;
    var n := ParamNode(x.0, y.0);
    g.Add((n, RenkuIsArgumentOf, a));
    g.Add((n, SchemaDefaultValue, Lit(Strip(x.0 + " " + y.0))));
    g.Add((n, RdfType, RenkuCommandParameter));
  }

  /** The loop over the pairs of one label. */
  method MintPairs(g: Graph, a: Node, ps: seq<(ArgEntry, ArgEntry)>)
    modifies g
    ensures g.triples == old(g.triples) + MintedFor(a, ps)
  {
    hide ParamTriples;
    var j := 0;
    while j < |ps|
      invariant 0 <= j <= |ps|
      invariant g.triples == old(g.triples) + MintedFor(a, ps[..j])
    {
      AddParam(g, a, ps[j]);
      MintedForStep(a, ps, j);
      j := j + 1;
    }
    assert ps[..|ps|] == ps;
  }

  /**
   * The second loop of `analyze_arguments`: for every label, sort its
   * entries by position, pair them and mint one parameter node per pair
   * linked to the label's action.  A label with a pair but no action raises
   * `KeyError`.
   */
  method MintParameters(g: Graph, actions: map<string, Node>, args: map<string, seq<ArgEntry>>)
    returns (r: Outcome<()>)
    modifies g
    ensures r.Failed? <==> MissingAction(args, actions)
    ensures r.Failed? ==> r.reason == KeyError
    ensures r.Done? ==> g.triples == old(g.triples) + MintedOver(args, actions, args.Keys)
  {
    hide MintedFor, ParamTriples;
    var keys := args.Keys;
    ghost var done: set<string> := {};
    while keys != {}
      invariant keys + done == args.Keys && keys !! done
      invariant g.triples == old(g.triples) + MintedOver(args, actions, done)
      invariant forall k :: k in done ==> |args[k]| < 2 || k in actions
      decreases keys
    {
      var k :| k in keys;
      var ps := Pairs(SortByPosition(args[k]));
      assert |ps| > 0 <==> |args[k]| >= 2;
      if |ps| > 0 && k !in actions {
        return Failed(KeyError);
      }
      MintedOverStep(args, actions, done, k);
      if k in actions {
        MintPairs(g, actions[k], ps);
      }
      keys := keys - {k};
      done := done + {k};
    }
    assert !MissingAction(args, actions);
    return Done(());
  }

  /**
   * `analyze_arguments`: collect, then mint.  The dictionaries come back
   * updated even when the minting raises.
   */
  method AnalyzeArguments(g: Graph, h: Helpers, actions: map<string, Node>, args: map<string, seq<ArgEntry>>)
    returns (r: Outcome<()>, actions': map<string, Node>, args': map<string, seq<ArgEntry>>,
             ghost owner: map<Node, string>, ghost src: map<string, seq<Triple>>)
    modifies g
    ensures ActionsRecorded(actions, actions', Edges(old(g.triples), RenkuHasArguments), h)
    ensures DictKeys(args, args', Edges(old(g.triples), RenkuHasArguments), h)
    ensures ArgsSound(args, args', Edges(old(g.triples), RenkuHasArguments), old(g.triples), h)
    ensures ArgsComplete(args', Edges(old(g.triples), RenkuHasArguments), old(g.triples), h)
    ensures Provenance(args, args', Edges(old(g.triples), RenkuHasArguments), old(g.triples), h, owner, src)
    ensures r.Failed? <==> MissingAction(args', actions')
    ensures r.Failed? ==> r.reason == KeyError
    ensures r.Done? ==> g.triples == old(g.triples) - ConsumedOf(old(g.triples), ArgumentNodes(old(g.triples)))
                                     + MintedOver(args', actions', args'.Keys)
  {
    actions', args', owner, src := CollectArguments(g, h, actions, args);
    r := MintParameters(g, actions', args');
  }
}
