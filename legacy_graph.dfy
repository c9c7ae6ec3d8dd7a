/** The older `Graph` class of src/graph.js: an adjacency list of
    three-slot records `[edges, x, y]`, where `edges` maps a target name to
    its weight, a `stable` flag for the one-off layout and the `activeNode`
    the mouse has picked up.

    The records are values. `activeNode` holds an `[name, record]` entry
    whose record is the one stored in the list, so the model keeps the
    name and writes through it. `Math.random()` and the force-directed
    layout are not modelled: the random coordinates and the layout's
    displacements are parameters. Drawing on the canvas has no counterpart. */
module LegacyGraph {
  import opened Values
  import opened Adjacency

  /** A record `[edges, x, y]`. */
  datatype Record = Record(edges: OrderedMap<int>, x: int, y: int)

  type Records = OrderedMap<Record>

  /** One `[target, weight]` of a source's edge object. */
  datatype Pair = Pair(target: string, weight: int)

  /** One property of the data: a source and its pairs, in property order. */
  datatype Entry = Entry(source: string, targets: seq<Pair>)

  /** `exampleAdjacencyList`, the data `populateAdjListFromJSObject` loads
      whatever it is called with. */
  const Example: seq<Entry> :=
    [Entry("a", [Pair("b", 1), Pair("d", 6), Pair("e", 2), Pair("f", 3)]),
     Entry("b", [Pair("c", 7), Pair("e", 5), Pair("f", 1)]),
     Entry("c", [Pair("e", 9)]),
     Entry("d", [Pair("f", 2)]),
     Entry("e", [Pair("f", 6)])]

  /** A point of the canvas. */
  datatype Pos = Pos(x: int, y: int)

  /** `Math.floor(Math.random() * 800)` can give both coordinates of `p`. */
  predicate Drawn(p: Pos)
  {
    0 <= p.x < 800 && 0 <= p.y < 800
  }

  /** The random pair vertex `u` draws when `place` lists the draws by name;
      a name it omits draws (0, 0). */
  function Draw(place: map<string, Pos>, u: string): Pos
  {
    if u in place then place[u] else Pos(0, 0)
  }

  /** The position a record stores. */
  function At(r: Record): Pos
  {
    Pos(r.x, r.y)
  }

  // ---------------------------------------------------------------------
  // Populating

  /** `keys` after `Map.prototype.set(u, ...)`: a new key goes last. */
  function Grown(keys: seq<string>, u: string): (r: seq<string>)
    ensures Distinct(keys) ==> Distinct(r)
  {
    if u in keys then keys else keys + [u]
  }

  /** `createNewVertex(u)` unless `u` is present; `place` lists the random
      draws. */
  function WithVertex(g: Records, u: string, place: map<string, Pos>): (h: Records)
    ensures h.vals.Keys == g.vals.Keys + {u}
  {
    if u in g.vals then g else OrderedMap(g.keys + [u], g.vals[u := Record(EmptyMap(), Draw(place, u).x, Draw(place, u).y)])
  }

  /** `adjList.get(s)[0].set(t, w)`. */
  function WithEdge(g: Records, s: string, t: string, w: int): (h: Records)
    requires s in g.vals
    ensures h.keys == g.keys && h.vals.Keys == g.vals.Keys
  {
    var e := g.vals[s].edges;
    var e' := if t in e.vals then OrderedMap(e.keys, e.vals[t := w]) else OrderedMap(e.keys + [t], e.vals[t := w]);
    OrderedMap(g.keys, g.vals[s := g.vals[s].(edges := e')])
  }

  /** One `[target, weight]` of source `s`: the target created if absent,
      then the weight set. */
  function WithTarget(g: Records, s: string, t: Pair, place: map<string, Pos>): (h: Records)
    requires s in g.vals
    ensures h.vals.Keys == g.vals.Keys + {t.target}
  {
    WithEdge(WithVertex(g, t.target, place), s, t.target, t.weight)
  }

  /** The first `n` targets of source `s`, in order. */
  function WithTargets(g: Records, s: string, ts: seq<Pair>, n: nat,
                       place: map<string, Pos>): (h: Records)
    requires s in g.vals && n <= |ts|
    ensures s in h.vals
  {
    if n == 0 then g else WithTarget(WithTargets(g, s, ts, n - 1, place), s, ts[n - 1], place)
  }

  /** One property of the data: its source, then its targets. */
  function WithEntry(g: Records, e: Entry, place: map<string, Pos>): Records
  {
    WithTargets(WithVertex(g, e.source, place), e.source, e.targets, |e.targets|, place)
  }

  /** The first `n` properties of the data, in order. */
  function Populated(g: Records, es: seq<Entry>, n: nat, place: map<string, Pos>): Records
    requires n <= |es|
  {
    if n == 0 then g else WithEntry(Populated(g, es, n - 1, place), es[n - 1], place)
  }

  /** Every source of the data is a vertex of `g`, and every
      `[target, weight]` of it an edge of `g` with that weight. */
  ghost predicate Holds(g: Records, es: seq<Entry>)
  {
    && (forall i :: 0 <= i < |es| ==> es[i].source in g.vals)
    && (forall i, k :: 0 <= i < |es| && 0 <= k < |es[i].targets| ==> EdgeIs(g, es[i].source, es[i].targets[k]))
  }

  /** `s -> t.target` is an edge of `g` with weight `t.weight`, between vertices of `g`. */
  ghost predicate EdgeIs(g: Records, s: string, t: Pair)
  {
    s in g.vals && t.target in g.vals && t.target in g.vals[s].edges.vals && g.vals[s].edges.vals[t.target] == t.weight
  }

  /** The first `n` targets of `s` are edges of `h` with their weights. */
  ghost predicate TargetsAre(h: Records, s: string, ts: seq<Pair>, n: nat)
  {
    forall k :: 0 <= k < n && k < |ts| ==> EdgeIs(h, s, ts[k])
  }

  /** No source is listed twice, and no source lists a target twice. */
  predicate Unique(es: seq<Entry>)
  {
    && (forall i, j :: 0 <= i < j < |es| ==> es[i].source != es[j].source)
    && (forall i, k, l :: 0 <= i < |es| && 0 <= k < l < |es[i].targets| ==> es[i].targets[k].target != es[i].targets[l].target)
  }

  /** A target whose edge is already there with its weight changes nothing. */
  lemma TargetFixed(g: Records, s: string, t: Pair, place: map<string, Pos>)
    requires EdgeIs(g, s, t)
    ensures WithTarget(g, s, t, place) == g
  {
    var e := g.vals[s].edges;
    assert e.vals[t.target := t.weight] == e.vals;
    assert g.vals[s := g.vals[s].(edges := OrderedMap(e.keys, e.vals[t.target := t.weight]))] == g.vals;
  }

  lemma {:induction false} TargetsFixed(g: Records, s: string, ts: seq<Pair>, n: nat,
                                        place: map<string, Pos>)
    requires s in g.vals && n <= |ts| && TargetsAre(g, s, ts, n)
    ensures WithTargets(g, s, ts, n, place) == g
  {
    if n > 0 {
      assert EdgeIs(g, s, ts[n - 1]);
      TargetsFixed(g, s, ts, n - 1, place);
      TargetFixed(g, s, ts[n - 1], place);
    }
  }

  /** Data that already holds leaves the list as it is, whatever would
      have been drawn. */
  lemma {:induction false} PopulatedFixed(g: Records, es: seq<Entry>, n: nat,
                                          place: map<string, Pos>)
    requires Holds(g, es) && n <= |es|
    ensures Populated(g, es, n, place) == g
  {
    if n > 0 {
      PopulatedFixed(g, es, n - 1, place);
      var e := es[n - 1];
      assert TargetsAre(g, e.source, e.targets, |e.targets|);
      TargetsFixed(g, e.source, e.targets, |e.targets|, place);
      EntryFixed(g, e, place);
    }
  }

  lemma EntryFixed(g: Records, e: Entry, place: map<string, Pos>)
    requires e.source in g.vals && WithTargets(g, e.source, e.targets, |e.targets|, place) == g
    ensures WithEntry(g, e, place) == g
  {
  }

  /** From `g` to `h`, the first `n` targets of `s` were set: each is an
      edge with its weight; no position moved, and the edges of every other
      source are untouched. */
  ghost predicate TargetsSet(g: Records, h: Records, s: string, ts: seq<Pair>, n: nat)
  {
    && TargetsAre(h, s, ts, n)
    && (forall u :: u in g.vals ==> u in h.vals && At(h.vals[u]) == At(g.vals[u]))
    && (forall u :: u in g.vals && u != s ==> h.vals[u].edges == g.vals[u].edges)
  }

  /** From `h` to `h'`, target `t` of `s` was set and nothing else. */
  ghost predicate TargetSet(h: Records, h': Records, s: string, t: Pair)
  {
    && h'.vals.Keys >= h.vals.Keys && EdgeIs(h', s, t)
    && (forall u :: u in h.vals ==> At(h'.vals[u]) == At(h.vals[u]))
    && (forall u :: u in h.vals && u != s ==> h'.vals[u].edges == h.vals[u].edges)
    && (forall t' :: EdgeIs(h, s, t') && t'.target != t.target ==> EdgeIs(h', s, t'))
  }

  /** One target: its edge is set, the other edges of `s` and those of
      every other source are kept, and no position moves. */
  lemma TargetHolds(g: Records, s: string, t: Pair, place: map<string, Pos>)
    requires s in g.vals
    ensures TargetSet(g, WithTarget(g, s, t, place), s, t)
  {
  }

  /** After the first `n` targets of `s` (no name twice), each of them is an
      edge with its weight; no position moves, and the edges of every other
      source are untouched. */
  lemma {:induction false} TargetsHold(g: Records, s: string, ts: seq<Pair>, n: nat,
                                       place: map<string, Pos>)
    requires s in g.vals && n <= |ts|
    requires forall k, l :: 0 <= k < l < |ts| ==> ts[k].target != ts[l].target
    ensures TargetsSet(g, WithTargets(g, s, ts, n, place), s, ts, n)
  {
    if n > 0 {
      var h := WithTargets(g, s, ts, n - 1, place);
      TargetsHold(g, s, ts, n - 1, place);
      TargetHolds(h, s, ts[n - 1], place);
      TargetStep(g, h, WithTarget(h, s, ts[n - 1], place), s, ts, n);
    } else {
      assert WithTargets(g, s, ts, n, place) == g;
    }
  }

  /** The step of `TargetsHold`: the earlier targets survive a later one
      with a different name. */
  lemma TargetStep(g: Records, h: Records, h': Records, s: string, ts: seq<Pair>, n: nat)
    requires 0 < n <= |ts| && forall k, l :: 0 <= k < l < |ts| ==> ts[k].target != ts[l].target
    requires TargetsSet(g, h, s, ts, n - 1) && TargetSet(h, h', s, ts[n - 1])
    ensures TargetsSet(g, h', s, ts, n)
  {
    forall k | 0 <= k < n - 1
      ensures EdgeIs(h', s, ts[k])
    {
      assert EdgeIs(h, s, ts[k]);
    }
  }

  /** From `g` to `h`, property `e` was loaded: its source and each of its
      targets are there with the listed weights; nothing that was there
      moved, and the edges of every other source are untouched. */
  ghost predicate EntrySet(g: Records, h: Records, e: Entry)
  {
    && e.source in h.vals && TargetsAre(h, e.source, e.targets, |e.targets|)
    && (forall u :: u in g.vals ==> u in h.vals && At(h.vals[u]) == At(g.vals[u]))
    && (forall u :: u in g.vals && u != e.source ==> h.vals[u].edges == g.vals[u].edges)
  }

  /** From `g` to `h`, the first `n` properties were loaded and hold, and
      nothing that was there moved. */
  ghost predicate EntriesSet(g: Records, h: Records, es: seq<Entry>, n: nat)
  {
    && (forall i :: 0 <= i < n && i < |es| ==> es[i].source in h.vals)
    && (forall i, k :: 0 <= i < n && i < |es| && 0 <= k < |es[i].targets| ==> EdgeIs(h, es[i].source, es[i].targets[k]))
    && (forall u :: u in g.vals ==> u in h.vals && At(h.vals[u]) == At(g.vals[u]))
  }

  /** A property whose targets are distinct holds once loaded. */
  lemma EntryHolds(g: Records, e: Entry, place: map<string, Pos>)
    requires forall k, l :: 0 <= k < l < |e.targets| ==> e.targets[k].target != e.targets[l].target
    ensures EntrySet(g, WithEntry(g, e, place), e)
  {
    var g1 := WithVertex(g, e.source, place);
    assert forall u :: u in g.vals ==> g1.vals[u] == g.vals[u];
    TargetsHold(g1, e.source, e.targets, |e.targets|, place);
  }

  /** After the first `n` properties of data listed without repeats, each
      of them holds, and no position that was there moves. */
  lemma {:induction false} PopulatedHolds(g: Records, es: seq<Entry>, n: nat,
                                          place: map<string, Pos>)
    requires Unique(es) && n <= |es|
    ensures EntriesSet(g, Populated(g, es, n, place), es, n)
  {
    if n > 0 {
      PopulatedHolds(g, es, n - 1, place);
      EntriesStep(g, Populated(g, es, n - 1, place), es, n, place);
    }
  }

  /** One more property loaded keeps the earlier ones. */
  lemma EntriesStep(g: Records, p: Records, es: seq<Entry>, n: nat, place: map<string, Pos>)
    requires 0 < n <= |es| && Unique(es) && EntriesSet(g, p, es, n - 1)
    ensures EntriesSet(g, WithEntry(p, es[n - 1], place), es, n)
  {
    EntryHolds(p, es[n - 1], place);
    HoldsStep(g, p, WithEntry(p, es[n - 1], place), es, n);
  }

  /** The step of `PopulatedHolds`: the earlier properties survive a later
      one with a different source. */
  lemma HoldsStep(g: Records, p: Records, h: Records, es: seq<Entry>, n: nat)
    requires 0 < n <= |es| && Unique(es)
    requires EntriesSet(g, p, es, n - 1) && EntrySet(p, h, es[n - 1])
    ensures EntriesSet(g, h, es, n)
  {
    forall i, k | 0 <= i < n && 0 <= k < |es[i].targets|
      ensures EdgeIs(h, es[i].source, es[i].targets[k])
    {
      if i < n - 1 {
        assert EdgeIs(p, es[i].source, es[i].targets[k]);
        assert es[i].source != es[n - 1].source;
      } else {
        assert TargetsAre(h, es[i].source, es[i].targets, |es[i].targets|);
      }
    }
  }

  /** All the data holds once loaded. */
  lemma AllHold(g: Records, h: Records, es: seq<Entry>)
    requires EntriesSet(g, h, es, |es|)
    ensures Holds(h, es)
  {
  }

  /** Loading the data a second time changes nothing: every vertex is then
      present, and every weight is set to the value it already has. */
  lemma PopulateTwice(g: Records, place: map<string, Pos>, again: map<string, Pos>)
    ensures var h := Populated(g, Example, |Example|, place);
      Populated(h, Example, |Example|, again) == h
  {
    assert Unique(Example);
    PopulatedHolds(g, Example, |Example|, place);
    AllHold(g, Populated(g, Example, |Example|, place), Example);
    PopulatedFixed(Populated(g, Example, |Example|, place), Example, |Example|, again);
  }

  // The key order: `set` puts a new key last.

  /** The keys after the first `n` targets: each new name goes last. */
  function GrownTargets(keys: seq<string>, ts: seq<Pair>, n: nat): seq<string>
    requires n <= |ts|
  {
    if n == 0 then keys else Grown(GrownTargets(keys, ts, n - 1), ts[n - 1].target)
  }

  /** The keys after the first `n` properties: source, then targets. */
  function GrownAll(keys: seq<string>, es: seq<Entry>, n: nat): seq<string>
    requires n <= |es|
  {
    if n == 0 then keys else GrownTargets(Grown(GrownAll(keys, es, n - 1), es[n - 1].source), es[n - 1].targets, |es[n - 1].targets|)
  }

  /** `h` is well formed with keys `keys`. */
  ghost predicate Keyed(h: Records, keys: seq<string>)
  {
    h.Valid() && h.keys == keys
  }

  lemma TargetKeys(g: Records, s: string, t: Pair, place: map<string, Pos>)
    requires g.Valid() && s in g.vals
    ensures Keyed(WithTarget(g, s, t, place), Grown(g.keys, t.target))
  {
  }

  lemma {:induction false} TargetsKeys(g: Records, s: string, ts: seq<Pair>, n: nat,
                                       place: map<string, Pos>)
    requires g.Valid() && s in g.vals && n <= |ts|
    ensures Keyed(WithTargets(g, s, ts, n, place), GrownTargets(g.keys, ts, n))
  {
    if n > 0 {
      TargetsKeys(g, s, ts, n - 1, place);
      TargetKeys(WithTargets(g, s, ts, n - 1, place), s, ts[n - 1], place);
    }
  }

  /** Populating keeps the list well formed and orders its keys by first
      occurrence in the data, after the keys already there. */
  lemma {:induction false} PopulatedKeys(g: Records, es: seq<Entry>, n: nat, place: map<string, Pos>)
    requires g.Valid() && n <= |es|
    ensures Keyed(Populated(g, es, n, place), GrownAll(g.keys, es, n))
  {
    if n > 0 {
      PopulatedKeys(g, es, n - 1, place);
      EntryKeys(Populated(g, es, n - 1, place), es[n - 1], place);
    }
  }

  lemma EntryKeys(p: Records, e: Entry, place: map<string, Pos>)
    requires p.Valid()
    ensures Keyed(WithEntry(p, e, place), GrownTargets(Grown(p.keys, e.source), e.targets, |e.targets|))
  {
    VertexKeys(p, e.source, place);
    TargetsKeys(WithVertex(p, e.source, place), e.source, e.targets, |e.targets|, place);
  }

  /** Growing never drops a key. */
  lemma {:induction false} TargetsKeep(keys: seq<string>, ts: seq<Pair>, n: nat, k: string)
    requires n <= |ts| && k in keys
    ensures k in GrownTargets(keys, ts, n)
  {
    if n > 0 {
      TargetsKeep(keys, ts, n - 1, k);
    }
  }

  lemma {:induction false} AllKeep(keys: seq<string>, es: seq<Entry>, n: nat, k: string)
    requires n <= |es| && k in keys
    ensures k in GrownAll(keys, es, n)
  {
    if n > 0 {
      AllKeep(keys, es, n - 1, k);
      TargetsKeep(Grown(GrownAll(keys, es, n - 1), es[n - 1].source), es[n - 1].targets, |es[n - 1].targets|, k);
    }
  }

  lemma VertexKeys(g: Records, u: string, place: map<string, Pos>)
    requires g.Valid()
    ensures Keyed(WithVertex(g, u, place), Grown(g.keys, u))
  {
  }

  /** The first occurrences in the data are a, b, d, e, f, c. */
  lemma ExampleKeys()
    ensures GrownAll([], Example, |Example|) == ["a", "b", "d", "e", "f", "c"]
  {
    var e := Example;
    var k2 := ["a", "b", "d", "e", "f", "c"];
    FirstKeys();
    SecondKeys();
    assert GrownAll([], e, 2) == k2;
    assert GrownAll([], e, 3) == GrownTargets(k2, e[2].targets, 1) == k2;
    assert GrownAll([], e, 4) == GrownTargets(k2, e[3].targets, 1) == k2;
    assert GrownAll([], e, 5) == GrownTargets(k2, e[4].targets, 1) == k2;
  }

  /** The second property adds c only. */
  lemma SecondKeys()
    ensures GrownTargets(["a", "b", "d", "e", "f"], Example[1].targets, 3) == ["a", "b", "d", "e", "f", "c"]
  {
    var k1 := ["a", "b", "d", "e", "f"];
    assert GrownTargets(k1, Example[1].targets, 1) == k1 + ["c"];
  }

  /** The first property alone gives a, b, d, e, f. */
  lemma FirstKeys()
    ensures GrownAll([], Example, 1) == ["a", "b", "d", "e", "f"]
  {
    var e := Example;
    var k0 := ["a"];
    assert Grown([], "a") == k0;
    assert GrownAll([], e, 1) == GrownTargets(k0, e[0].targets, 4);
    assert GrownTargets(k0, e[0].targets, 1) == ["a", "b"];
    assert GrownTargets(k0, e[0].targets, 2) == ["a", "b", "d"];
    assert GrownTargets(k0, e[0].targets, 3) == ["a", "b", "d", "e"];
  }

  // What populating adds: only listed edges, and new vertices at their draws.

  /** The `source -> target` pairs of the first `n` properties. */
  function Pairs(es: seq<Entry>, n: nat): set<(string, string)>
    requires n <= |es|
  {
    if n == 0 then {} else Pairs(es, n - 1) + TargetPairs(es[n - 1].source, es[n - 1].targets, |es[n - 1].targets|)
  }

  /** The pairs `s -> ts[k]` for `k < n`. */
  function TargetPairs(s: string, ts: seq<Pair>, n: nat): set<(string, string)>
    requires n <= |ts|
  {
    if n == 0 then {} else TargetPairs(s, ts, n - 1) + {(s, ts[n - 1].target)}
  }

  /** Where target `t` leaves vertex `u`: where it was, or at its draw when new. */
  lemma TargetAt(g: Records, s: string, t: Pair, place: map<string, Pos>, u: string)
    requires s in g.vals && u in WithTarget(g, s, t, place).vals
    ensures At(WithTarget(g, s, t, place).vals[u]) == if u in g.vals then At(g.vals[u]) else Draw(place, u)
  {
  }

  /** Target `t` of `s` adds the edge `s -> t.target` and no other. */
  lemma TargetEdge(g: Records, s: string, t: Pair, place: map<string, Pos>, u: string, v: string)
    requires s in g.vals
    requires u in WithTarget(g, s, t, place).vals && v in WithTarget(g, s, t, place).vals[u].edges.vals
    ensures (u in g.vals && v in g.vals[u].edges.vals) || (u, v) == (s, t.target)
  {
  }

  /** The targets never remove a vertex. */
  lemma {:induction false} TargetsHave(g: Records, s: string, ts: seq<Pair>, n: nat,
                                       place: map<string, Pos>, u: string)
    requires s in g.vals && n <= |ts| && u in g.vals
    ensures u in WithTargets(g, s, ts, n, place).vals
  {
    if n > 0 {
      TargetsHave(g, s, ts, n - 1, place, u);
    }
  }

  /** Populating never removes a vertex. */
  lemma {:induction false} PopulatedHas(g: Records, es: seq<Entry>, n: nat, place: map<string, Pos>, u: string)
    requires n <= |es| && u in g.vals
    ensures u in Populated(g, es, n, place).vals
  {
    if n > 0 {
      var p := Populated(g, es, n - 1, place);
      PopulatedHas(g, es, n - 1, place, u);
      TargetsHave(WithVertex(p, es[n - 1].source, place), es[n - 1].source, es[n - 1].targets, |es[n - 1].targets|, place, u);
    }
  }

  lemma {:induction false} TargetsAt(g: Records, s: string, ts: seq<Pair>, n: nat,
                                     place: map<string, Pos>, u: string)
    requires s in g.vals && n <= |ts| && u in WithTargets(g, s, ts, n, place).vals
    ensures At(WithTargets(g, s, ts, n, place).vals[u]) == if u in g.vals then At(g.vals[u]) else Draw(place, u)
  {
    if n > 0 {
      var h := WithTargets(g, s, ts, n - 1, place);
      TargetAt(h, s, ts[n - 1], place, u);
      if u in h.vals {
        TargetsAt(g, s, ts, n - 1, place, u);
      } else if u in g.vals {
        TargetsHave(g, s, ts, n - 1, place, u);
      }
    }
  }

  lemma {:induction false} TargetsEdge(g: Records, s: string, ts: seq<Pair>, n: nat,
                                       place: map<string, Pos>, u: string, v: string)
    requires s in g.vals && n <= |ts|
    requires u in WithTargets(g, s, ts, n, place).vals && v in WithTargets(g, s, ts, n, place).vals[u].edges.vals
    ensures (u in g.vals && v in g.vals[u].edges.vals) || (u, v) in TargetPairs(s, ts, n)
  {
    if n > 0 {
      var h := WithTargets(g, s, ts, n - 1, place);
      TargetEdge(h, s, ts[n - 1], place, u, v);
      if u in h.vals && v in h.vals[u].edges.vals {
        TargetsEdge(g, s, ts, n - 1, place, u, v);
      }
    }
  }

  /** Where loading property `e` leaves vertex `u`. */
  lemma EntryAt(g: Records, e: Entry, place: map<string, Pos>, u: string)
    requires u in WithEntry(g, e, place).vals
    ensures At(WithEntry(g, e, place).vals[u]) == if u in g.vals then At(g.vals[u]) else Draw(place, u)
  {
    var g1 := WithVertex(g, e.source, place);
    TargetsAt(g1, e.source, e.targets, |e.targets|, place, u);
  }

  /** Loading property `e` adds only the edges it lists. */
  lemma EntryEdge(g: Records, e: Entry, place: map<string, Pos>, u: string, v: string)
    requires u in WithEntry(g, e, place).vals && v in WithEntry(g, e, place).vals[u].edges.vals
    ensures (u in g.vals && v in g.vals[u].edges.vals) || (u, v) in TargetPairs(e.source, e.targets, |e.targets|)
  {
    var g1 := WithVertex(g, e.source, place);
    TargetsEdge(g1, e.source, e.targets, |e.targets|, place, u, v);
  }

  /** Populating leaves a vertex that was there where it was, and places a
      new one at its draw. */
  lemma {:induction false} PopulatedAt(g: Records, es: seq<Entry>, n: nat, place: map<string, Pos>, u: string)
    requires n <= |es| && u in Populated(g, es, n, place).vals
    ensures At(Populated(g, es, n, place).vals[u]) == if u in g.vals then At(g.vals[u]) else Draw(place, u)
  {
    if n > 0 {
      var p := Populated(g, es, n - 1, place);
      EntryAt(p, es[n - 1], place, u);
      if u in p.vals {
        PopulatedAt(g, es, n - 1, place, u);
      } else if u in g.vals {
        PopulatedHas(g, es, n - 1, place, u);
      }
    }
  }

  /** Populating adds only edges the data lists. */
  lemma {:induction false} PopulatedEdge(g: Records, es: seq<Entry>, n: nat, place: map<string, Pos>,
                                         u: string, v: string)
    requires n <= |es|
    requires u in Populated(g, es, n, place).vals && v in Populated(g, es, n, place).vals[u].edges.vals
    ensures (u in g.vals && v in g.vals[u].edges.vals) || (u, v) in Pairs(es, n)
  {
    if n > 0 {
      var p := Populated(g, es, n - 1, place);
      EntryEdge(p, es[n - 1], place, u, v);
      if u in p.vals && v in p.vals[u].edges.vals {
        PopulatedEdge(g, es, n - 1, place, u, v);
      }
    }
  }

  /** Loaded into an empty list, the data gives the vertices a, b, d, e, f, c
      in that order, exactly the listed edges with their weights, and every
      vertex at its draw. */
  lemma PopulateFromEmpty(place: map<string, Pos>)
    ensures var h := Populated(EmptyMap(), Example, |Example|, place);
      && Keyed(h, ["a", "b", "d", "e", "f", "c"])
      && Holds(h, Example)
      && (forall u, v :: u in h.vals && v in h.vals[u].edges.vals ==> (u, v) in Pairs(Example, |Example|))
      && (forall u :: u in h.vals ==> At(h.vals[u]) == Draw(place, u))
  {
    var h := Populated(EmptyMap(), Example, |Example|, place);
    EmptyKeys(place);
    EmptyHolds(place);
    EmptyEdges(h, place);
    EmptyAt(h, place);
  }

  lemma EmptyKeys(place: map<string, Pos>)
    ensures Keyed(Populated(EmptyMap(), Example, |Example|, place), ["a", "b", "d", "e", "f", "c"])
  {
    PopulatedKeys(EmptyMap(), Example, |Example|, place);
    ExampleKeys();
  }

  lemma EmptyHolds(place: map<string, Pos>)
    ensures Holds(Populated(EmptyMap(), Example, |Example|, place), Example)
  {
    assert Unique(Example);
    PopulatedHolds(EmptyMap(), Example, |Example|, place);
    AllHold(EmptyMap(), Populated(EmptyMap(), Example, |Example|, place), Example);
  }

  lemma EmptyEdges(h: Records, place: map<string, Pos>)
    requires h == Populated(EmptyMap(), Example, |Example|, place)
    ensures forall u, v :: u in h.vals && v in h.vals[u].edges.vals ==> (u, v) in Pairs(Example, |Example|)
  {
    forall u, v | u in h.vals && v in h.vals[u].edges.vals
      ensures (u, v) in Pairs(Example, |Example|)
    {
      PopulatedEdge(EmptyMap(), Example, |Example|, place, u, v);
    }
  }

  lemma EmptyAt(h: Records, place: map<string, Pos>)
    requires h == Populated(EmptyMap(), Example, |Example|, place)
    ensures forall u :: u in h.vals ==> At(h.vals[u]) == Draw(place, u)
  {
    forall u | u in h.vals
      ensures At(h.vals[u]) == Draw(place, u)
    {
      PopulatedAt(EmptyMap(), Example, |Example|, place, u);
    }
  }

  // ---------------------------------------------------------------------
  // Drawing

  /** `drawAll`'s correction of one coordinate: below 0 becomes 0, above
      800 becomes 760, anything else stays. */
  function Clamp(v: int): (c: int)
    ensures 0 <= c <= 800
    ensures 0 <= v <= 800 ==> c == v
    ensures v < 0 ==> c == 0
    ensures v > 800 ==> c == 760
  {
    if v < 0 then 0 else if v > 800 then 760 else v
  }

  /** A record with both coordinates corrected. */
  function ClampRecord(r: Record): Record
  {
    r.(x := Clamp(r.x), y := Clamp(r.y))
  }

  /** The list as `drawAll` leaves it: every position corrected. */
  function Clamped(g: Records): (h: Records)
    ensures h.keys == g.keys && h.vals.Keys == g.vals.Keys
    ensures forall u :: u in g.vals ==> h.vals[u].edges == g.vals[u].edges
  {
    OrderedMap(g.keys, map u | u in g.vals :: ClampRecord(g.vals[u]))
  }

  /** After `drawAll` every vertex lies in [0, 800] x [0, 800], a vertex
      already there has not moved, and drawing again moves nothing. */
  lemma ClampedFacts(g: Records)
    ensures forall u :: u in g.vals ==> 0 <= Clamped(g).vals[u].x <= 800 && 0 <= Clamped(g).vals[u].y <= 800
    ensures forall u :: u in g.vals && 0 <= g.vals[u].x <= 800 && 0 <= g.vals[u].y <= 800 ==>
      Clamped(g).vals[u] == g.vals[u]
    ensures Clamped(Clamped(g)) == Clamped(g)
  {
    var h := Clamped(g);
    assert forall u :: u in h.vals ==> ClampRecord(h.vals[u]) == h.vals[u];
    assert Clamped(h).vals == h.vals;
  }

  /** The first `i` keys corrected, the others as they were. */
  function ClampedUpTo(g: Records, i: nat): Records
    requires i <= |g.keys|
  {
    OrderedMap(g.keys, map u | u in g.vals :: if u in g.keys[..i] then ClampRecord(g.vals[u]) else g.vals[u])
  }

  lemma ClampedStep(g: Records, i: nat)
    requires g.Valid() && i < |g.keys|
    ensures ClampedUpTo(g, i + 1) == ClampedUpTo(g, i).Update(g.keys[i], ClampRecord(g.vals[g.keys[i]]))
  {
    assert g.keys[..i + 1] == g.keys[..i] + [g.keys[i]];
    assert g.keys[i] !in g.keys[..i];
  }

  lemma ClampedAll(g: Records)
    requires g.Valid()
    ensures ClampedUpTo(g, |g.keys|) == Clamped(g)
  {
    assert g.keys[..|g.keys|] == g.keys;
  }

  /** What the force-directed layout does to the list: each vertex moved by
      its displacement in `moves` (none when omitted); keys and edges stay. */
  function Arranged(g: Records, moves: map<string, Pos>): (h: Records)
    ensures h.keys == g.keys && h.vals.Keys == g.vals.Keys
    ensures forall u :: u in g.vals ==> h.vals[u].edges == g.vals[u].edges
  {
    OrderedMap(g.keys, map u | u in g.vals ::
      var d := if u in moves then moves[u] else Pos(0, 0);
      g.vals[u].(x := g.vals[u].x + d.x, y := g.vals[u].y + d.y))
  }

  // ---------------------------------------------------------------------
  // Selecting

  /** The inclusive 20-pixel box around `r` holds `p`. */
  predicate Near(r: Record, p: Pos)
  {
    InBox(r.x, r.y, p.x, p.y)
  }

  /** None of the first `i` keys of `ks` is near `p`. */
  predicate NoneNearBefore(g: Records, ks: seq<string>, i: int, p: Pos)
    requires forall k :: k in ks ==> k in g.vals
  {
    forall j :: 0 <= j < i && j < |ks| ==> !Near(g.vals[ks[j]], p)
  }

  /** `matching[0]` of `selectActiveNode`: the first key of `ks` whose
      vertex is near `p`, none when no vertex is. */
  function FirstNear(g: Records, ks: seq<string>, p: Pos): (r: Option<string>)
    requires forall k :: k in ks ==> k in g.vals
    ensures r.Some? ==> r.value in ks && Near(g.vals[r.value], p)
    ensures r.Some? ==> exists i :: 0 <= i < |ks| && ks[i] == r.value && NoneNearBefore(g, ks, i, p)
    ensures r.None? <==> forall k :: k in ks ==> !Near(g.vals[k], p)
  {
    if ks == [] then None
    else if Near(g.vals[ks[0]], p) then
      assert NoneNearBefore(g, ks, 0, p);
      Some(ks[0])
    else
      var r := FirstNear(g, ks[1..], p);
      assert r.Some? ==> exists i :: 0 <= i < |ks| && ks[i] == r.value && NoneNearBefore(g, ks, i, p) by {
        if r.Some? {
          var i :| 0 <= i < |ks[1..]| && ks[1..][i] == r.value && NoneNearBefore(g, ks[1..], i, p);
          assert ks[i + 1] == r.value;
          NearShift(g, ks, i, p);
        }
      }
      r
  }

  /** Not near at the head, then none near before `i` in the tail: none
      near before `i + 1`. */
  lemma NearShift(g: Records, ks: seq<string>, i: nat, p: Pos)
    requires forall k :: k in ks ==> k in g.vals
    requires ks != [] && !Near(g.vals[ks[0]], p) && NoneNearBefore(g, ks[1..], i, p)
    ensures NoneNearBefore(g, ks, i + 1, p)
  {
    forall j | 1 <= j < i + 1 && j < |ks|
      ensures !Near(g.vals[ks[j]], p)
    {
      assert ks[j] == ks[1..][j - 1];
    }
  }

  // ---------------------------------------------------------------------
  // The class

  class Graph {
    var adjList: Records
    var stable: bool
    var activeNode: Option<string>

    /** The list is well formed and the active vertex is one of its. */
    ghost predicate Valid()
      reads this
    {
      adjList.Valid() && (activeNode.Some? ==> activeNode.value in adjList.vals)
    }

    constructor ()
      ensures adjList == EmptyMap() && !stable && activeNode.None? && Valid()
    {
      adjList := EmptyMap();
      stable := false;
      activeNode := None;
    }

    /** `createNewVertex(name)`: a record with no edges at the random pair
      `drawn`, stored under `name` (last, when new). */
    method CreateNewVertex(name: string, drawn: Pos)
      requires Drawn(drawn)
      modifies this
      ensures adjList == old(adjList).Set(name, Record(EmptyMap(), drawn.x, drawn.y))
      ensures stable == old(stable) && activeNode == old(activeNode)
    {
      adjList := adjList.Set(name, Record(EmptyMap(), drawn.x, drawn.y));
    }

    /** `populateAdjListFromJSObject()`: the example data loaded, a vertex
      created only when absent; `place` lists the random draws. */
    method PopulateAdjListFromJSObject(place: map<string, Pos>)
      requires Valid() && forall u :: u in place ==> Drawn(place[u])
      modifies this
      ensures adjList == Populated(old(adjList), Example, |Example|, place)
      ensures stable == old(stable) && activeNode == old(activeNode) && Valid()
    {
      PopulatedKeys(adjList, Example, |Example|, place);
      if activeNode.Some? {
        AllKeep(adjList.keys, Example, |Example|, activeNode.value);
      }
      for i := 0 to |Example|
        invariant adjList == Populated(old(adjList), Example, i, place)
        invariant stable == old(stable) && activeNode == old(activeNode)
      {
        AddEntry(Example[i], place);
      }
    }

    /** One property of the data: its source created if absent, then each
      of its targets. */
    method AddEntry(e: Entry, place: map<string, Pos>)
      requires forall u :: u in place ==> Drawn(place[u])
      modifies this
      ensures adjList == WithEntry(old(adjList), e, place)
      ensures stable == old(stable) && activeNode == old(activeNode)
    {
      AddVertex(e.source, place);
      AddTargets(e.source, e.targets, place);
    }

    /** `if (!adjList.has(u)) createNewVertex(u)`. */
    method AddVertex(u: string, place: map<string, Pos>)
      requires forall v :: v in place ==> Drawn(place[v])
      modifies this
      ensures adjList == WithVertex(old(adjList), u, place)
      ensures stable == old(stable) && activeNode == old(activeNode)
    {
      if u !in adjList.vals {
        CreateNewVertex(u, Draw(place, u));
      }
    }

    /** The pairs of `source`'s edge object, in order. */
    method AddTargets(source: string, ts: seq<Pair>, place: map<string, Pos>)
      requires source in adjList.vals && forall u :: u in place ==> Drawn(place[u])
      modifies this
      ensures adjList == WithTargets(old(adjList), source, ts, |ts|, place)
      ensures stable == old(stable) && activeNode == old(activeNode)
    {
      for j := 0 to |ts|
        invariant adjList == WithTargets(old(adjList), source, ts, j, place)
        invariant stable == old(stable) && activeNode == old(activeNode)
      {
        AddTarget(source, ts[j], place);
      }
    }

    /** `[target, weight]` of `source`: the target created if absent, then
      the weight set. */
    method AddTarget(source: string, t: Pair, place: map<string, Pos>)
      requires source in adjList.vals && forall u :: u in place ==> Drawn(place[u])
      modifies this
      ensures adjList == WithTarget(old(adjList), source, t, place)
      ensures stable == old(stable) && activeNode == old(activeNode)
    {
      AddVertex(t.target, place);
      var r := adjList.vals[source];
      adjList := adjList.Update(source, r.(edges := r.edges.Set(t.target, t.weight)));
    }

    /** `drawAll()` on the list: every stored coordinate corrected in key
      order; the canvas is not modelled. */
    method DrawAll()
      requires Valid()
      modifies this
      ensures adjList == Clamped(old(adjList))
      ensures stable == old(stable) && activeNode == old(activeNode) && Valid()
    {
      ghost var g0 := adjList;
      var ks := adjList.keys;
      for i := 0 to |ks|
        invariant adjList == ClampedUpTo(g0, i)
        invariant stable == old(stable) && activeNode == old(activeNode)
      {
        var u := ks[i];
        var r := adjList.vals[u];
        assert r == g0.vals[u];
        if r.x < 0 {
          r := r.(x := 0);
        } else if r.x > 800 {
          r := r.(x := 760);
        }
        if r.y < 0 {
          r := r.(y := 0);
        } else if r.y > 800 {
          r := r.(y := 760);
        }
        ClampedStep(g0, i);
        adjList := adjList.Update(u, r);
      }
      ClampedAll(g0);
    }

    /** `drawToCanvas()`: the layout (its displacements given as `moves`)
      runs only while the graph is not yet stable; then the list is drawn. */
    method DrawToCanvas(moves: map<string, Pos>)
      requires Valid()
      modifies this
      ensures adjList == Clamped(if old(stable) then old(adjList) else Arranged(old(adjList), moves))
      ensures stable && activeNode == old(activeNode) && Valid()
    {
      if !stable {
        adjList := Arranged(adjList, moves);
        stable := true;
        DrawAll();
      } else {
        DrawAll();
      }
    }

    /** `selectActiveNode(position)`: the first vertex, in key order, whose
      box holds the position, or none. */
    method SelectActiveNode(position: Pos)
      requires Valid()
      modifies this
      ensures adjList == old(adjList) && stable == old(stable)
      ensures activeNode == FirstNear(adjList, adjList.keys, position) && Valid()
    {
      activeNode := FirstNear(adjList, adjList.keys, position);
    }

    /** `moveNode(position)`: the active vertex, if any, placed at the
      position; its edges and every other vertex stay. */
    method MoveNode(position: Pos)
      requires Valid()
      modifies this
      ensures old(activeNode).None? ==> adjList == old(adjList)
      ensures old(activeNode).Some? ==>
        var u := old(activeNode).value;
        && adjList.keys == old(adjList.keys) && adjList.vals.Keys == old(adjList.vals.Keys)
        && At(adjList.vals[u]) == position && adjList.vals[u].edges == old(adjList.vals[u].edges)
        && forall v :: v in old(adjList.vals) && v != u ==> adjList.vals[v] == old(adjList.vals[v])
      ensures stable == old(stable) && activeNode == old(activeNode) && Valid()
    {
      if activeNode.Some? {
        var u := activeNode.value;
        adjList := adjList.Update(u, adjList.vals[u].(x := position.x, y := position.y));
      }
    }

    /** `deselectActiveNode()`. */
    method DeselectActiveNode()
      requires Valid()
      modifies this
      ensures activeNode.None? && adjList == old(adjList) && stable == old(stable) && Valid()
    {
      activeNode := None;
    }
  }
}
