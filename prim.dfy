/** The `mstprim` runner of pub/graph-lib.js.

    Every record's slot 4 becomes the marker `[Infinity, null]`; the root is
    the first key of the adjacency list (the `source` argument is not used).
    The root's edge Map entries go onto a min-heap keyed by weight. Popping
    an item `[a, b, w]`, the runner looks for an unmarked end, `a` first;
    if it finds one and its name is truthy, the item is accepted: it joins
    `edges`, its edge is coloured red, the end is marked with its own name
    and that end's entries towards unmarked vertices are pushed. When the
    heap is empty every slot 4 becomes `""`.

    The run is specified by a fold `Run` over the items in the order they
    left the heap, from the configuration the pushes of the root give:
    the marked set, the accepted items and what the heap holds. `Popped`
    says each item left the heap as one of its lightest; which of several
    equally light items goes first is the heap's business and is left open. */
module Prim {
  import opened Values
  import opened Adjacency
  import opened Paths
  import opened PriorityQueue
  import opened Weighted
  import Traversal

  // ---------------------------------------------------------------------
  // Markers

  /** Slot 4 during the run: `[Infinity, u]` for a marked `u`, else `[Infinity, null]`. */
  function Mark(M: set<string>, u: string): State
  {
    Marker(if u in M then Some(u) else None)
  }

  function Marks(g: AdjList, M: set<string>): (h: AdjList)
    ensures h.keys == g.keys && h.vals.Keys == g.vals.Keys
    ensures forall u :: u in g.vals ==> h.vals[u] == g.vals[u].(state := Mark(M, u))
  {
    OrderedMap(g.keys, map u | u in g.vals :: g.vals[u].(state := Mark(M, u)))
  }

  /** Marking one more vertex of the coloured graph. */
  lemma MarkStep(g0: AdjList, M: set<string>, P: set<(string, string)>, x: string)
    requires x in g0.vals
    ensures SetState(RedAt(Marks(g0, M), P), x, Marker(Some(x))) == RedAt(Marks(g0, M + {x}), P)
  {
    var a := SetState(RedAt(Marks(g0, M), P), x, Marker(Some(x)));
    var b := RedAt(Marks(g0, M + {x}), P);
    assert a.vals == b.vals;
  }

  // ---------------------------------------------------------------------
  // The fold

  /** The first key of the adjacency list. */
  function Root(g: AdjList): string
    requires g.keys != []
  {
    g.keys[0]
  }

  /** The items pushed for a newly marked `x`, over the first `n` keys
      of its Map: the entries whose target is unmarked, in Map order. */
  function FreshFrom(x: string, ks: seq<string>, vals: map<string, Edge>, M: set<string>, n: nat): (es: seq<WEdge>)
    requires n <= |ks| && forall k :: k in ks ==> k in vals
  {
    if n == 0 then []
    else
      var k := ks[n - 1];
      FreshFrom(x, ks, vals, M, n - 1) + (if k in M then [] else [WEdge(x, k, vals[k].weight)])
  }

  /** The pushed items leave `x` for unmarked targets, all of them, with
      the stored weights. */
  lemma {:induction false} FreshFacts(x: string, ks: seq<string>, vals: map<string, Edge>, M: set<string>, n: nat)
    requires n <= |ks| && forall k :: k in ks ==> k in vals
    ensures forall e :: e in FreshFrom(x, ks, vals, M, n) ==>
      e.from == x && e.to in ks && e.to !in M && e.weight == vals[e.to].weight
    ensures forall i :: 0 <= i < n && ks[i] !in M ==> WEdge(x, ks[i], vals[ks[i]].weight) in FreshFrom(x, ks, vals, M, n)
  {
    if n > 0 {
      FreshFacts(x, ks, vals, M, n - 1);
    }
  }

  function FreshOut(x: string, m: OrderedMap<Edge>, M: set<string>): seq<WEdge>
    requires m.Valid()
  {
    FreshFrom(x, m.keys, m.vals, M, |m.keys|)
  }

  /** Only the weights of the entries matter to the pushed items. */
  lemma {:induction false} FreshSameWeights(x: string, ks: seq<string>, v1: map<string, Edge>, v2: map<string, Edge>,
                                            M: set<string>, n: nat)
    requires n <= |ks|
    requires forall k :: k in ks ==> k in v1 && k in v2 && v1[k].weight == v2[k].weight
    ensures FreshFrom(x, ks, v1, M, n) == FreshFrom(x, ks, v2, M, n)
  {
    if n > 0 {
      FreshSameWeights(x, ks, v1, v2, M, n - 1);
    }
  }

  /** The end the runner would mark: the source if it is unmarked, else
      the target if it is unmarked. */
  function Unvisited(M: set<string>, e: WEdge): (r: Option<string>)
  {
    if e.from !in M then Some(e.from) else if e.to !in M then Some(e.to) else None
  }

  /** `if (unvisited)`: there is an unmarked end and its name is truthy. */
  predicate Accepts(M: set<string>, e: WEdge)
  {
    Unvisited(M, e).Some? && Truthy(Str(Unvisited(M, e).value))
  }

  datatype Config = Config(marked: set<string>, sol: seq<WEdge>, pool: multiset<WEdge>)

  ghost predicate AllStored(g: AdjList, es: seq<WEdge>)
  {
    forall e :: e in es ==> Stored(g, e)
  }

  /** After the root's pushes. */
  ghost function Start(g: AdjList): Config
    requires Closed(g) && g.keys != []
  {
    Config({}, [], multiset(OutEdges(Root(g), g.vals[Root(g)].edges)))
  }

  /** One pass of the loop, for the popped item `e`. */
  ghost function StepC(g: AdjList, c: Config, e: WEdge): Config
    requires Closed(g) && Stored(g, e)
  {
    var pool := c.pool - multiset{e};
    if Accepts(c.marked, e) then
      var x := Unvisited(c.marked, e).value;
      var M := c.marked + {x};
      Config(M, c.sol + [e], pool + multiset(FreshOut(x, g.vals[x].edges, M)))
    else
      Config(c.marked, c.sol, pool)
  }

  ghost function Run(g: AdjList, es: seq<WEdge>): Config
    requires Closed(g) && g.keys != [] && AllStored(g, es)
  {
    if es == [] then Start(g)
    else
      assert es[|es| - 1] in es;
      StepC(g, Run(g, es[..|es| - 1]), es[|es| - 1])
  }

  /** `e` is one of the lightest items of the heap. */
  ghost predicate MinOf(pool: multiset<WEdge>, e: WEdge)
  {
    e in pool && forall y :: y in pool ==> e.weight <= y.weight
  }

  /** Each item of `es` left the heap as one of its lightest. */
  ghost predicate Popped(g: AdjList, es: seq<WEdge>)
    requires Closed(g) && g.keys != [] && AllStored(g, es)
  {
    es == [] || (Popped(g, es[..|es| - 1]) && MinOf(Run(g, es[..|es| - 1]).pool, es[|es| - 1]))
  }

  /** The fold and `Popped` one item further. */
  lemma RunSnoc(g: AdjList, es: seq<WEdge>, e: WEdge)
    requires Closed(g) && g.keys != [] && AllStored(g, es) && Stored(g, e)
    ensures AllStored(g, es + [e])
    ensures Run(g, es + [e]) == StepC(g, Run(g, es), e)
    ensures Popped(g, es + [e]) <==> Popped(g, es) && MinOf(Run(g, es).pool, e)
  {
    assert (es + [e])[..|es|] == es;
  }

  // ---------------------------------------------------------------------
  // What every configuration of a run satisfies

  /** The marked vertices are named and in the graph, one item is accepted
      per marked vertex, and the heap's and accepted items are edges of the
      graph. */
  ghost predicate Sane(g: AdjList, c: Config)
  {
    && c.marked <= g.vals.Keys
    && "" !in c.marked
    && |c.sol| == |c.marked|
    && (forall e :: e in c.pool ==> Stored(g, e))
    && (forall e :: e in c.sol ==> Stored(g, e))
  }

  lemma StartSane(g: AdjList)
    requires Closed(g) && g.keys != []
    ensures Sane(g, Start(g))
  {
    var r := Root(g);
    OutEdgesFacts(r, g.vals[r].edges);
  }

  lemma StepSane(g: AdjList, c: Config, e: WEdge)
    requires Closed(g) && Stored(g, e) && Sane(g, c) && MinOf(c.pool, e)
    ensures Sane(g, StepC(g, c, e))
  {
    var c' := StepC(g, c, e);
    forall y | y in c.pool - multiset{e}
      ensures y in c.pool
    {
    }
    if Accepts(c.marked, e) {
      var x := Unvisited(c.marked, e).value;
      assert x !in c.marked;
      var m := g.vals[x].edges;
      FreshFacts(x, m.keys, m.vals, c.marked + {x}, |m.keys|);
    }
  }

  lemma {:induction false} RunSane(g: AdjList, es: seq<WEdge>)
    requires Closed(g) && g.keys != [] && AllStored(g, es) && Popped(g, es)
    ensures Sane(g, Run(g, es))
  {
    if es == [] {
      StartSane(g);
    } else {
      var p := es[..|es| - 1];
      var e := es[|es| - 1];
      assert e in es;
      RunSane(g, p);
      StepSane(g, Run(g, p), e);
    }
  }

  // ---------------------------------------------------------------------
  // What a run promises

  /** One item is accepted per marked vertex, so at most one per vertex. */
  lemma SolBound(g: AdjList, es: seq<WEdge>)
    requires Closed(g) && g.keys != [] && AllStored(g, es) && Popped(g, es)
    ensures |Run(g, es).sol| == |Run(g, es).marked| <= |g.keys|
    ensures forall e :: e in Run(g, es).sol ==> Stored(g, e)
  {
    RunSane(g, es);
    KeysCard(g);
    SubsetCard(Run(g, es).marked, g.vals.Keys);
  }

  lemma KeysCard(g: AdjList)
    requires g.Valid()
    ensures |g.vals.Keys| == |g.keys|
  {
    DistinctCard(g.keys);
    assert g.vals.Keys == set k | k in g.keys;
  }

  lemma SubsetCard(A: set<string>, B: set<string>)
    requires A <= B
    ensures |A| <= |B|
  {
    assert B == A + (B - A);
  }

  lemma {:induction false} DistinctCard(s: seq<string>)
    requires Distinct(s)
    ensures |set k | k in s| == |s|
  {
    if s != [] {
      var t := s[..|s| - 1];
      var z := s[|s| - 1];
      DistinctCard(t);
      assert (set k | k in s) == (set k | k in t) + {z};
      assert z !in (set k | k in t);
    }
  }

  /** The marked vertices are reachable from the root, and every heap item
      leaves the root or a marked vertex. */
  ghost predicate Grown(g: AdjList, c: Config)
    requires g.keys != []
  {
    && (forall u :: u in c.marked ==> u in Traversal.ReachFrom(g, Root(g)))
    && (forall e :: e in c.pool ==> e.from == Root(g) || e.from in c.marked)
  }

  lemma StepGrown(g: AdjList, c: Config, e: WEdge)
    requires Closed(g) && g.keys != [] && Stored(g, e) && Sane(g, c) && Grown(g, c) && MinOf(c.pool, e)
    ensures Grown(g, StepC(g, c, e))
  {
    var r := Root(g);
    var R := Traversal.ReachFrom(g, r);
    Traversal.ReachFromFacts(g, r);
    assert e.from in R;
    forall y | y in c.pool - multiset{e}
      ensures y in c.pool
    {
    }
    if Accepts(c.marked, e) {
      var x := Unvisited(c.marked, e).value;
      var m := g.vals[x].edges;
      FreshFacts(x, m.keys, m.vals, c.marked + {x}, |m.keys|);
    }
  }

  lemma {:induction false} RunGrown(g: AdjList, es: seq<WEdge>)
    requires Closed(g) && g.keys != [] && AllStored(g, es) && Popped(g, es)
    ensures Grown(g, Run(g, es))
  {
    if es == [] {
      var r := Root(g);
      OutEdgesFacts(r, g.vals[r].edges);
    } else {
      var p := es[..|es| - 1];
      var e := es[|es| - 1];
      assert e in es;
      RunSane(g, p);
      RunGrown(g, p);
      StepGrown(g, Run(g, p), e);
    }
  }

  /** Only vertices reachable from the root are marked. */
  lemma MarkedReachable(g: AdjList, es: seq<WEdge>)
    requires Closed(g) && g.keys != [] && AllStored(g, es) && Popped(g, es)
    ensures Run(g, es).marked <= Traversal.ReachFrom(g, Root(g))
  {
    RunGrown(g, es);
  }

  /** The source and target pairs of the heap items. */
  ghost function Ends(pool: multiset<WEdge>): set<(string, string)>
  {
    set e | e in pool :: (e.from, e.to)
  }

  /** An out-edge of a marked vertex ends at a marked vertex, at a vertex
      named `""` (which is never accepted), or is still on the heap. */
  ghost predicate Frontier(g: AdjList, c: Config)
  {
    forall x, w :: x in c.marked && x in g.vals && w in g.vals[x].edges.vals ==>
      w in c.marked || w == "" || (x, w) in Ends(c.pool)
  }

  lemma StepFrontier(g: AdjList, c: Config, e: WEdge)
    requires Closed(g) && Stored(g, e) && Sane(g, c) && Frontier(g, c) && MinOf(c.pool, e)
    ensures Frontier(g, StepC(g, c, e))
  {
    var c' := StepC(g, c, e);
    forall x, w | x in c'.marked && x in g.vals && w in g.vals[x].edges.vals
      ensures w in c'.marked || w == "" || (x, w) in Ends(c'.pool)
    {
      if x in c.marked {
        FrontierOld(g, c, e, x, w);
      } else {
        FrontierNew(g, c, e, x, w);
      }
    }
  }

  /** An out-edge of a vertex marked before: its item is still on the heap,
      or it was the popped one and its target is now marked or `""`. */
  lemma FrontierOld(g: AdjList, c: Config, e: WEdge, x: string, w: string)
    requires Closed(g) && Stored(g, e) && Frontier(g, c) && Sane(g, c)
    requires x in c.marked && w in g.vals[x].edges.vals
    ensures var c' := StepC(g, c, e); w in c'.marked || w == "" || (x, w) in Ends(c'.pool)
  {
    var c' := StepC(g, c, e);
    if w !in c.marked && w != "" {
      var f :| f in c.pool && (f.from, f.to) == (x, w);
      if f != e {
        assert f in c.pool - multiset{e};
        assert f in c'.pool;
      } else {
        assert Unvisited(c.marked, e) == Some(w);
      }
    }
  }

  /** An out-edge of the vertex just marked: pushed unless its target is marked. */
  lemma FrontierNew(g: AdjList, c: Config, e: WEdge, x: string, w: string)
    requires Closed(g) && Stored(g, e)
    requires x in StepC(g, c, e).marked && x !in c.marked && x in g.vals && w in g.vals[x].edges.vals
    ensures var c' := StepC(g, c, e); w in c'.marked || (x, w) in Ends(c'.pool)
  {
    var c' := StepC(g, c, e);
    assert Accepts(c.marked, e) && x == Unvisited(c.marked, e).value;
    var m := g.vals[x].edges;
    FreshFacts(x, m.keys, m.vals, c'.marked, |m.keys|);
    if w !in c'.marked {
      var i :| 0 <= i < |m.keys| && m.keys[i] == w;
      var f := WEdge(x, w, m.vals[w].weight);
      assert f in FreshOut(x, m, c'.marked);
      assert f in c'.pool;
    }
  }

  lemma {:induction false} RunFrontier(g: AdjList, es: seq<WEdge>)
    requires Closed(g) && g.keys != [] && AllStored(g, es) && Popped(g, es)
    ensures Frontier(g, Run(g, es))
  {
    if es != [] {
      var p := es[..|es| - 1];
      var e := es[|es| - 1];
      assert e in es;
      RunSane(g, p);
      RunFrontier(g, p);
      StepFrontier(g, Run(g, p), e);
    }
  }

  /** Once the heap is empty, every out-edge of a marked vertex ends at a
      marked vertex or at a vertex named `""`. */
  lemma DrainedClosed(g: AdjList, es: seq<WEdge>)
    requires Closed(g) && g.keys != [] && AllStored(g, es) && Popped(g, es)
    requires Run(g, es).pool == multiset{}
    ensures Run(g, es).marked <= g.vals.Keys
    ensures forall x, w :: x in Run(g, es).marked && w in g.vals[x].edges.vals ==>
      w in Run(g, es).marked || w == ""
  {
    var c := Run(g, es);
    RunSane(g, es);
    RunFrontier(g, es);
    forall x, w | x in c.marked && w in g.vals[x].edges.vals
      ensures w in c.marked || w == ""
    {
      assert (x, w) !in Ends(c.pool);
    }
  }

  /** The first item popped leaves the root, whose marking is accepted
      unless the root is named `""`; marks are never removed. */
  lemma {:induction false} RootMarked(g: AdjList, es: seq<WEdge>)
    requires Closed(g) && g.keys != [] && AllStored(g, es) && Popped(g, es)
    requires es != [] && Root(g) != ""
    ensures Root(g) in Run(g, es).marked
  {
    var p := es[..|es| - 1];
    var e := es[|es| - 1];
    assert e in es;
    if p == [] {
      var r := Root(g);
      OutEdgesFacts(r, g.vals[r].edges);
      assert e.from == r;
    } else {
      RootMarked(g, p);
    }
  }

  /** A root without out-edges gives an empty heap: nothing is popped and
      nothing accepted. A root with one gives a non-empty run. */
  lemma RootOutEdges(g: AdjList, es: seq<WEdge>)
    requires Closed(g) && g.keys != [] && AllStored(g, es) && Popped(g, es)
    requires Run(g, es).pool == multiset{}
    ensures es == [] <==> g.vals[Root(g)].edges.keys == []
    ensures es == [] ==> Run(g, es).sol == []
  {
    var r := Root(g);
    OutEdgesFacts(r, g.vals[r].edges);
    if es != [] {
      var e := es[0];
      assert es[..1] == [e];
      PoppedPrefix(g, es, 1);
      assert Popped(g, es[..1]);
      assert MinOf(Run(g, []).pool, e);
      assert e in OutEdges(r, g.vals[r].edges);
    }
  }

  lemma {:induction false} PoppedPrefix(g: AdjList, es: seq<WEdge>, n: nat)
    requires Closed(g) && g.keys != [] && AllStored(g, es) && Popped(g, es) && n <= |es|
    ensures AllStored(g, es[..n]) && Popped(g, es[..n])
  {
    if n < |es| {
      var p := es[..|es| - 1];
      assert p[..n] == es[..n];
      PoppedPrefix(g, p, n);
    } else {
      assert es[..n] == es;
    }
  }

  /** With no vertex named `""` and a root with an out-edge, the marked
      vertices are exactly those reachable from the root. */
  lemma MarkedIsReach(g: AdjList, es: seq<WEdge>)
    requires Closed(g) && g.keys != [] && AllStored(g, es) && Popped(g, es)
    requires Run(g, es).pool == multiset{}
    requires "" !in g.vals && g.vals[Root(g)].edges.keys != []
    ensures Run(g, es).marked == Traversal.ReachFrom(g, Root(g))
  {
    var r := Root(g);
    var M := Run(g, es).marked;
    RootOutEdges(g, es);
    RootMarked(g, es);
    MarkedReachable(g, es);
    DrainedClosed(g, es);
    RunSane(g, es);
    assert ClosedUnder(g, M);
    forall u | u in Traversal.ReachFrom(g, r)
      ensures u in M
    {
      ClosedHoldsReachable(g, M, r, u);
    }
  }

  /** Item `k` left the heap as one of the lightest of the run before it. */
  lemma PoppedAt(g: AdjList, es: seq<WEdge>, k: nat)
    requires Closed(g) && g.keys != [] && AllStored(g, es) && Popped(g, es) && k < |es|
    ensures AllStored(g, es[..k]) && Stored(g, es[k]) && Popped(g, es[..k])
    ensures MinOf(Run(g, es[..k]).pool, es[k])
    ensures Run(g, es[..k + 1]) == StepC(g, Run(g, es[..k]), es[k])
  {
    PoppedPrefix(g, es, k + 1);
    assert es[..k + 1][..k] == es[..k];
    assert es[k] in es;
  }

  /** The graph with the single edge `r -> a` of weight 2. */
  function OneEdge(): (g: AdjList)
  {
    OrderedMap(["r", "a"], map[
      "r" := Vertex(OrderedMap(["a"], map["a" := Edge(2, map[])]), 0, 0, map[], Text(""), None),
      "a" := Vertex(EmptyMap(), 0, 0, map[], Text(""), None)])
  }

  /** On `r -> a` the one item is accepted twice: once to mark the root
      and once, pushed again, to mark `a`. */
  lemma OneEdgeTwice(es: seq<WEdge>)
    requires Closed(OneEdge()) && AllStored(OneEdge(), es) && Popped(OneEdge(), es)
    requires Run(OneEdge(), es).pool == multiset{}
    ensures Run(OneEdge(), es).sol == [WEdge("r", "a", 2), WEdge("r", "a", 2)]
  {
    OneEdgeFacts();
    AcceptedTwice(OneEdge(), es);
  }

  lemma OneEdgeFacts()
    ensures var g := OneEdge();
            && g.keys == ["r", "a"] && g.vals.Keys == {"r", "a"}
            && g.vals["r"].edges.keys == ["a"] && "a" in g.vals["r"].edges.vals
            && (forall f :: Stored(g, f) ==> f == WEdge("r", "a", 2))
  {
  }

  /** The argument for `OneEdgeTwice`, over any graph whose one edge is `r -> a`. */
  lemma AcceptedTwice(g: AdjList, es: seq<WEdge>)
    requires Closed(g) && g.keys == ["r", "a"] && g.vals.Keys == {"r", "a"}
    requires g.vals["r"].edges.keys == ["a"] && "a" in g.vals["r"].edges.vals
    requires forall f :: Stored(g, f) ==> f == WEdge("r", "a", 2)
    requires AllStored(g, es) && Popped(g, es) && Run(g, es).pool == multiset{}
    ensures Run(g, es).sol == [WEdge("r", "a", 2), WEdge("r", "a", 2)]
  {
    BothMarked(g, es);
    SolBound(g, es);
    SameTwice(Run(g, es).sol, WEdge("r", "a", 2), g);
  }

  lemma BothMarked(g: AdjList, es: seq<WEdge>)
    requires Closed(g) && g.keys == ["r", "a"] && g.vals.Keys == {"r", "a"}
    requires g.vals["r"].edges.keys == ["a"] && "a" in g.vals["r"].edges.vals
    requires AllStored(g, es) && Popped(g, es) && Run(g, es).pool == multiset{}
    ensures |Run(g, es).marked| == 2
  {
    MarkedIsReach(g, es);
    Traversal.ReachFromFacts(g, "r");
    assert Run(g, es).marked == {"r", "a"};
  }

  lemma SameTwice(sol: seq<WEdge>, e: WEdge, g: AdjList)
    requires |sol| == 2 && forall f :: f in sol ==> Stored(g, f)
    requires forall f :: Stored(g, f) ==> f == e
    ensures sol == [e, e]
  {
    assert sol[0] in sol && sol[1] in sol;
  }

  // ---------------------------------------------------------------------
  // The loop

  /** The loop's invariant: `popped` is a run with the heap holding its
      pool, `sol` its accepted items, and the graph marked and coloured
      accordingly. */
  ghost predicate LoopInv(g0: AdjList, popped: seq<WEdge>, C: multiset<WEdge>, g: AdjList, sol: seq<WEdge>)
  {
    && Closed(g0) && g0.keys != [] && AllStored(g0, popped) && Popped(g0, popped)
    && var c := Run(g0, popped);
       && Sane(g0, c)
       && C == c.pool && sol == c.sol
       && g == RedAt(Marks(g0, c.marked), Pairs(sol))
  }

  /** `mstprim(graph, source)` on the adjacency list: `None` for an empty
      list, where reading the first key's record throws; otherwise the
      coloured list with every slot 4 reset to `""`, the accepted items and,
      as a ghost, the order in which items left the heap. */
  method Prim(g0: AdjList) returns (g: Option<AdjList>, sol: seq<WEdge>, ghost popped: seq<WEdge>)
    requires Closed(g0)
    ensures g.None? <==> g0.keys == []
    ensures g.Some? ==> AllStored(g0, popped) && Popped(g0, popped)
    ensures g.Some? ==> Run(g0, popped).pool == multiset{} && sol == Run(g0, popped).sol
    ensures g.Some? ==> g.value.keys == g0.keys && g.value.vals.Keys == g0.vals.Keys
    ensures g.Some? ==> forall u :: u in g0.vals ==>
      g.value.vals[u] == g0.vals[u].(edges := RedOut(u, g0.vals[u].edges, Pairs(sol)), state := Text(""))
  {
    var g1 := Marks(g0, {});
    if |g1.keys| == 0 {
      return None, [], [];
    }
    var root := g1.keys[0];
    var heap := new TinyQueue<WEdge>([], Weight);
    PushEdges(heap, root, g1.vals[root].edges);
    var h;
    h, sol, popped := PrimLoop(g0, g1, heap);
    g := Some(ResetStates(h));
    PrimRecords(g0, Run(g0, popped).marked, Pairs(sol), h);
  }

  lemma PrimRecords(g0: AdjList, M: set<string>, P: set<(string, string)>, h: AdjList)
    requires h == RedAt(Marks(g0, M), P)
    ensures forall u :: u in g0.vals ==>
      ResetStates(h).vals[u] == g0.vals[u].(edges := RedOut(u, g0.vals[u].edges, P), state := Text(""))
  {
  }

  /** The `while (p_queue.length)` loop. */
  method PrimLoop(g0: AdjList, g1: AdjList, heap: TinyQueue<WEdge>)
    returns (g: AdjList, sol: seq<WEdge>, ghost popped: seq<WEdge>)
    requires Closed(g0) && g0.keys != [] && g1 == Marks(g0, {})
    requires heap.Valid() && heap.key == Weight && heap.Contents() == Start(g0).pool
    modifies heap
    ensures LoopInv(g0, popped, multiset{}, g, sol)
  {
    g, sol, popped := g1, [], [];
    StartSane(g0);
    PairsNone(sol);
    RedAtNone(g1);
    while heap.length > 0
      invariant heap.Valid() && heap.key == Weight
      invariant LoopInv(g0, popped, heap.Contents(), g, sol)
      decreases |g0.vals.Keys - Run(g0, popped).marked|, heap.length
    {
      g, sol, popped := PrimStep(g0, heap, g, sol, popped);
    }
    assert heap.data == [];
  }

  /** One pass: pop, find the unmarked end, and accept or drop the item. */
  method PrimStep(g0: AdjList, heap: TinyQueue<WEdge>, g: AdjList, sol0: seq<WEdge>, ghost popped0: seq<WEdge>)
    returns (g': AdjList, sol: seq<WEdge>, ghost popped: seq<WEdge>)
    requires heap.Valid() && heap.key == Weight && heap.length > 0
    requires LoopInv(g0, popped0, heap.Contents(), g, sol0)
    modifies heap
    ensures heap.Valid() && heap.key == Weight
    ensures LoopInv(g0, popped, heap.Contents(), g', sol)
    ensures var M0 := Run(g0, popped0).marked;
            var M := Run(g0, popped).marked;
            |g0.vals.Keys - M| < |g0.vals.Keys - M0| || (M == M0 && heap.length < old(heap.length))
  {
    ghost var C0 := heap.Contents();
    ghost var M0 := Run(g0, popped0).marked;
    var top := heap.Pop();
    var edge := top.value;
    PopIsMin(C0, heap.data, edge);
    popped := popped0 + [edge];
    PoppedEnds(g0, popped0, C0, g, sol0, edge);
    var unvisited := UnmarkedEnd(g, edge);
    if unvisited.Some? && Truthy(Str(unvisited.value)) {
      sol := sol0 + [edge];
      g' := Accept(g0, heap, g, edge, unvisited.value, M0, sol0);
      StepAccept(g0, popped0, C0, g, sol0, edge, unvisited.value, heap.Contents(), g');
      MeasureDrops(g0.vals.Keys, M0, unvisited.value);
    } else {
      g', sol := g, sol0;
      StepDrop(g0, popped0, C0, g, sol0, edge);
    }
  }

  /** The if-chain that picks `unvisited`: the source if its marker holds
      `null`, else the target if its marker does. */
  function UnmarkedEnd(g: AdjList, e: WEdge): (r: Option<string>)
    requires e.from in g.vals && e.to in g.vals
  {
    if g.vals[e.from].state == Marker(None) then Some(e.from)
    else if g.vals[e.to].state == Marker(None) then Some(e.to)
    else None
  }

  /** What `pop` answers is one of the lightest items. */
  lemma PopIsMin(C0: multiset<WEdge>, data: seq<WEdge>, edge: WEdge)
    requires multiset(data) + multiset{edge} == C0
    requires forall y :: y in data ==> Weight(edge) <= Weight(y)
    ensures MinOf(C0, edge) && multiset(data) == C0 - multiset{edge}
  {
    forall y | y in C0
      ensures edge.weight <= y.weight
    {
      if y != edge {
        assert y in multiset(data);
        assert y in data;
        assert Weight(edge) <= Weight(y);
      }
    }
  }

  /** On the graph of the invariant, the ends of a heap item are known and
      `UnmarkedEnd` is `Unvisited`. */
  lemma PoppedEnds(g0: AdjList, popped0: seq<WEdge>, C0: multiset<WEdge>, g: AdjList, sol0: seq<WEdge>, edge: WEdge)
    requires LoopInv(g0, popped0, C0, g, sol0) && edge in C0
    ensures Stored(g0, edge) && edge.from in g.vals && edge.to in g.vals
    ensures edge.from in g0.vals && edge.to in g0.vals
    ensures UnmarkedEnd(g, edge) == Unvisited(Run(g0, popped0).marked, edge)
    ensures g == RedAt(Marks(g0, Run(g0, popped0).marked), Pairs(sol0))
  {
  }

  /** The invariant one pass further when the popped item is dropped. */
  lemma StepDrop(g0: AdjList, popped0: seq<WEdge>, C0: multiset<WEdge>, g: AdjList, sol0: seq<WEdge>, edge: WEdge)
    requires LoopInv(g0, popped0, C0, g, sol0) && MinOf(C0, edge) && Stored(g0, edge)
    requires !Accepts(Run(g0, popped0).marked, edge)
    ensures LoopInv(g0, popped0 + [edge], C0 - multiset{edge}, g, sol0)
    ensures Run(g0, popped0 + [edge]).marked == Run(g0, popped0).marked
  {
    var c := Run(g0, popped0);
    RunSnoc(g0, popped0, edge);
    StepSane(g0, c, edge);
  }

  /** The invariant one pass further when the popped item is accepted and
      `x` marked. */
  lemma StepAccept(g0: AdjList, popped0: seq<WEdge>, C0: multiset<WEdge>, g: AdjList, sol0: seq<WEdge>, edge: WEdge,
                   x: string, C: multiset<WEdge>, g': AdjList)
    requires LoopInv(g0, popped0, C0, g, sol0) && MinOf(C0, edge) && Stored(g0, edge)
    requires Accepts(Run(g0, popped0).marked, edge) && Unvisited(Run(g0, popped0).marked, edge) == Some(x)
    requires x in g0.vals
    requires C == (C0 - multiset{edge}) + multiset(FreshOut(x, g0.vals[x].edges, Run(g0, popped0).marked + {x}))
    requires g' == RedAt(Marks(g0, Run(g0, popped0).marked + {x}), Pairs(sol0 + [edge]))
    ensures LoopInv(g0, popped0 + [edge], C, g', sol0 + [edge])
    ensures Run(g0, popped0 + [edge]).marked == Run(g0, popped0).marked + {x}
    ensures x !in Run(g0, popped0).marked
  {
    var c := Run(g0, popped0);
    RunSnoc(g0, popped0, edge);
    StepSane(g0, c, edge);
  }

  /** Marking one more vertex of the graph shrinks the unmarked set. */
  lemma MeasureDrops(K: set<string>, M: set<string>, x: string)
    requires x in K && x !in M
    ensures |K - (M + {x})| < |K - M|
  {
    assert K - (M + {x}) == (K - M) - {x};
  }

  /** Accepting `edge` and marking `x`: colour, mark, push `x`'s entries
      towards unmarked vertices. */
  method Accept(g0: AdjList, heap: TinyQueue<WEdge>, g: AdjList, edge: WEdge, x: string,
                ghost M0: set<string>, ghost sol0: seq<WEdge>)
    returns (g': AdjList)
    requires Closed(g0) && Stored(g0, edge) && x in g0.vals
    requires g == RedAt(Marks(g0, M0), Pairs(sol0))
    requires heap.Valid() && heap.key == Weight
    modifies heap
    ensures heap.Valid() && heap.key == Weight
    ensures heap.Contents() == old(heap.Contents()) + multiset(FreshOut(x, g0.vals[x].edges, M0 + {x}))
    ensures g' == RedAt(Marks(g0, M0 + {x}), Pairs(sol0 + [edge]))
  {
    g' := SetState(SetEdgeStyle(g, edge.from, edge.to, Traversal.EdgeColor, Str("red")), x, Marker(Some(x)));
    AcceptGraph(g0, M0, sol0, edge, x, g, g');
    PictureFacts(g0, M0 + {x}, Pairs(sol0 + [edge]), x, g');
    PushFresh(heap, g', x, M0 + {x});
  }

  /** Colouring then marking gives the next picture. */
  lemma AcceptGraph(g0: AdjList, M0: set<string>, sol0: seq<WEdge>, edge: WEdge, x: string, g: AdjList, g': AdjList)
    requires Stored(g0, edge) && x in g0.vals
    requires g == RedAt(Marks(g0, M0), Pairs(sol0))
    requires g' == SetState(SetEdgeStyle(g, edge.from, edge.to, Traversal.EdgeColor, Str("red")), x, Marker(Some(x)))
    ensures g' == RedAt(Marks(g0, M0 + {x}), Pairs(sol0 + [edge]))
  {
    RedAtStep(Marks(g0, M0), Pairs(sol0), edge.from, edge.to);
    PairsSnoc(sol0, edge);
    MarkStep(g0, M0, Pairs(sol0 + [edge]), x);
  }

  /** What `PushFresh` reads of a picture: the marks, and `x`'s entries
      with the weights of the original. */
  lemma PictureFacts(g0: AdjList, M: set<string>, P: set<(string, string)>, x: string, h: AdjList)
    requires Closed(g0) && x in g0.vals
    requires h == RedAt(Marks(g0, M), P)
    ensures x in h.vals && h.vals[x].edges.Valid() && (x in M ==> h.vals[x].state != Marker(None))
    ensures forall w :: w in h.vals[x].edges.vals ==> w in h.vals && (h.vals[w].state == Marker(None) <==> w !in M)
    ensures FreshOut(x, h.vals[x].edges, M) == FreshOut(x, g0.vals[x].edges, M)
  {
    var m0 := g0.vals[x].edges;
    var m := RedOut(x, m0, P);
    assert h.vals[x].edges == m;
    FreshSameWeights(x, m.keys, m.vals, m0.vals, M, |m.keys|);
  }

  /** `x` is a marked vertex with well-formed entries, and a target of its
      is unmarked exactly when it is not in `M`. */
  ghost predicate Feeds(g: AdjList, x: string, M: set<string>)
  {
    && x in g.vals && g.vals[x].edges.Valid() && g.vals[x].state != Marker(None)
    && forall w :: w in g.vals[x].edges.vals ==> w in g.vals && (g.vals[w].state == Marker(None) <==> w !in M)
  }

  /** The `forEach` over the newly marked `x`'s entries: an entry is pushed
      when `x` or its target is unmarked (`M` is the marked set), and `x` is
      marked by now. */
  method PushFresh(heap: TinyQueue<WEdge>, g: AdjList, x: string, ghost M: set<string>)
    requires Feeds(g, x, M)
    requires heap.Valid()
    modifies heap
    ensures heap.Valid()
    ensures heap.Contents() == old(heap.Contents()) + multiset(FreshOut(x, g.vals[x].edges, M))
  {
    ghost var c0 := heap.Contents();
    for j := 0 to |g.vals[x].edges.keys|
      invariant heap.Valid() && heap.Contents() == Pushed(c0, x, g.vals[x].edges, M, j)
    {
      PushNext(heap, g, x, M, j, c0);
    }
  }

  /** `c0` with the fresh entries of the first `j` keys of `m` added. */
  ghost function Pushed(c0: multiset<WEdge>, x: string, m: OrderedMap<Edge>, M: set<string>, j: nat): multiset<WEdge>
    requires m.Valid() && j <= |m.keys|
  {
    c0 + multiset(FreshFrom(x, m.keys, m.vals, M, j))
  }

  /** Entry `j` pushed after the earlier ones: the pushes so far are the
      fresh entries of the first `j + 1` keys. */
  method PushNext(heap: TinyQueue<WEdge>, g: AdjList, x: string, ghost M: set<string>, j: nat,
                  ghost c0: multiset<WEdge>)
    requires Feeds(g, x, M)
    requires j < |g.vals[x].edges.keys| && heap.Valid()
    requires heap.Contents() == Pushed(c0, x, g.vals[x].edges, M, j)
    modifies heap
    ensures heap.Valid()
    ensures heap.Contents() == Pushed(c0, x, g.vals[x].edges, M, j + 1)
  {
    var m := g.vals[x].edges;
    ghost var c := heap.Contents();
    PushEntry(heap, g, x, M, j);
    FreshStep(x, m.keys, m.vals, M, j);
    UnionAssoc(c0, multiset(FreshFrom(x, m.keys, m.vals, M, j)), heap.Contents() - c);
  }

  /** One step of the `forEach`: entry `j` of `x` is pushed exactly when
      its target is unmarked. */
  method PushEntry(heap: TinyQueue<WEdge>, g: AdjList, x: string, ghost M: set<string>, j: nat)
    requires Feeds(g, x, M)
    requires j < |g.vals[x].edges.keys| && heap.Valid()
    modifies heap
    ensures heap.Valid()
    ensures var m := g.vals[x].edges; var w := m.keys[j];
      heap.Contents() == old(heap.Contents()) + multiset(if w in M then [] else [WEdge(x, w, m.vals[w].weight)])
  {
    var m := g.vals[x].edges;
    var w := m.keys[j];
    var pushIt := g.vals[x].state == Marker(None) || g.vals[w].state == Marker(None);
    ghost var add := if w in M then [] else [WEdge(x, w, m.vals[w].weight)];
    PushIf(heap, WEdge(x, w, m.vals[w].weight), pushIt, add);
  }

  lemma UnionAssoc<T>(a: multiset<T>, b: multiset<T>, c: multiset<T>)
    ensures a + b + c == a + (b + c)
  {
  }

  lemma FreshStep(x: string, ks: seq<string>, vals: map<string, Edge>, M: set<string>, j: nat)
    requires j < |ks| && forall k :: k in ks ==> k in vals
    ensures FreshFrom(x, ks, vals, M, j + 1)
      == FreshFrom(x, ks, vals, M, j) + (if ks[j] in M then [] else [WEdge(x, ks[j], vals[ks[j]].weight)])
  {
  }

  /** Push `e` when `b` holds; `add` is what is pushed. */
  method PushIf(heap: TinyQueue<WEdge>, e: WEdge, b: bool, ghost add: seq<WEdge>)
    requires heap.Valid() && add == if b then [e] else []
    modifies heap
    ensures heap.Valid()
    ensures heap.Contents() == old(heap.Contents()) + multiset(add)
  {
    if b {
      heap.Push(e);
    }
  }
}
