/** Kruskal's runner of pub/scripts/algorithms/mst-kruskal.js, without its
    redraw.

    The run registers every record with a fresh disjoint set, pushes every
    stored edge entry `[source, target, weight]` into a min-heap on the
    weight, pops the whole heap and accepts an edge exactly when its two
    records are not yet connected, uniting them. The accepted edges' styles
    get a red `edgeColor`; at the end every state slot becomes `""`.

    The disjoint set tags the records themselves (`_disjointSetId`) and the
    final `delete v[5]` removes nothing (a record has five slots), so the
    tags survive the run. A record tagged by an earlier run keeps its old tag
    and a fresh instance knows none of them; `Consistent` below is the
    condition under which no edge joins a record the new instance knows to
    one it does not (otherwise `union` reads `_size[undefined]`).

    The flag writes and the `options.directed` toggle belong to the graph
    (graph.dfy). */
module Kruskal {
  import opened Values
  import opened Adjacency
  import opened UnionFind
  import opened PriorityQueue
  import opened Weighted
  import Traversal

  // ---------------------------------------------------------------------
  // The items the reduce pushes

  /** The edge entries of the first `n` vertices, vertex by vertex. */
  ghost function EntriesUpTo(g: AdjList, n: nat): seq<WEdge>
    requires Closed(g) && n <= |g.keys|
  {
    if n == 0 then [] else EntriesUpTo(g, n - 1) + OutEdges(g.keys[n - 1], g.vals[g.keys[n - 1]].edges)
  }

  /** Every stored edge entry, in the order the reduce pushes them. */
  ghost function Entries(g: AdjList): seq<WEdge>
    requires Closed(g)
  {
    EntriesUpTo(g, |g.keys|)
  }

  /** The items pushed are exactly the stored entries, each once. */
  lemma EntriesAreStored(g: AdjList)
    requires Closed(g)
    ensures forall e :: e in Entries(g) <==> Stored(g, e)
    ensures Distinct(Entries(g))
  {
    EntriesUpToFacts(g, |g.keys|);
    forall e | Stored(g, e)
      ensures e in Entries(g)
    {
      var i :| 0 <= i < |g.keys| && g.keys[i] == e.from;
      OutEdgesFacts(e.from, g.vals[e.from].edges);
      EntriesUpToHas(g, i + 1, |g.keys|, e);
    }
  }

  lemma {:induction false} EntriesUpToFacts(g: AdjList, n: nat)
    requires Closed(g) && n <= |g.keys|
    ensures forall e :: e in EntriesUpTo(g, n) ==> Stored(g, e) && e.from in g.keys[..n]
    ensures Distinct(EntriesUpTo(g, n))
  {
    if n > 0 {
      EntriesUpToFacts(g, n - 1);
      var u := g.keys[n - 1];
      OutEdgesFacts(u, g.vals[u].edges);
      PrefixSnoc(g.keys, n);
      assert u !in g.keys[..n - 1] by {
        forall k | 0 <= k < n - 1 ensures g.keys[k] != u { }
      }
      AppendDistinct(EntriesUpTo(g, n - 1), OutEdges(u, g.vals[u].edges), g.keys[..n - 1], u);
    }
  }

  lemma PrefixSnoc<T>(s: seq<T>, n: nat)
    requires 0 < n <= |s|
    ensures s[..n] == s[..n - 1] + [s[n - 1]]
  {
  }

  /** The entries so far, from other vertices, followed by `u`'s
      entries, which have different targets, repeat nothing. */
  lemma AppendDistinct(a: seq<WEdge>, b: seq<WEdge>, before: seq<string>, u: string)
    requires Distinct(a) && (forall e :: e in a ==> e.from in before) && u !in before
    requires forall e :: e in b ==> e.from == u
    requires forall i, j :: 0 <= i < j < |b| ==> b[i].to != b[j].to
    ensures Distinct(a + b)
  {
    forall i, j | 0 <= i < j < |a + b|
      ensures (a + b)[i] != (a + b)[j]
    {
      if i >= |a| {
        assert b[i - |a|].to != b[j - |a|].to;
      } else if j >= |a| {
        assert a[i] in a && b[j - |a|] in b;
      }
    }
  }

  lemma {:induction false} EntriesUpToHas(g: AdjList, n: nat, m: nat, e: WEdge)
    requires Closed(g) && 0 < n <= m <= |g.keys|
    requires e in OutEdges(g.keys[n - 1], g.vals[g.keys[n - 1]].edges)
    ensures e in EntriesUpTo(g, m)
  {
    if m > n {
      EntriesUpToHas(g, n, m - 1, e);
      MemberAppend(EntriesUpTo(g, m - 1), OutEdges(g.keys[m - 1], g.vals[g.keys[m - 1]].edges), e);
    }
  }

  lemma MemberAppend<T>(a: seq<T>, b: seq<T>, x: T)
    requires x in a
    ensures x in a + b
  {
  }

  // ---------------------------------------------------------------------
  // Tagging the records

  /** How many of the first `i` records carry no tag. */
  function Untagged(g: AdjList, i: nat): (k: nat)
    requires g.Valid() && i <= |g.keys|
    ensures k <= i
  {
    if i == 0 then 0 else Untagged(g, i - 1) + (if g.vals[g.keys[i - 1]].setTag.None? then 1 else 0)
  }

  /** The tag record `i` carries after `ds.add`: its own if it had one, else
      the next fresh id. */
  function NewTag(g: AdjList, i: nat): Option<nat>
    requires g.Valid() && i < |g.keys|
  {
    var t := g.vals[g.keys[i]].setTag;
    if t.None? then Some(Untagged(g, i)) else t
  }

  /** The tag a record carries in `g`. */
  function TagsOf(g: AdjList): (T: map<string, Option<nat>>)
    ensures T.Keys == g.vals.Keys
    ensures forall u :: u in g.vals ==> T[u] == g.vals[u].setTag
  {
    map u | u in g.vals :: g.vals[u].setTag
  }

  /** The tags after `ds.add` on the first `i` records. */
  function RetagMap(g: AdjList, i: nat): (T: map<string, Option<nat>>)
    requires g.Valid() && i <= |g.keys|
    ensures T.Keys == g.vals.Keys
  {
    if i == 0 then TagsOf(g) else RetagMap(g, i - 1)[g.keys[i - 1] := NewTag(g, i - 1)]
  }

  /** Tagging gives the first `i` records their new tags and leaves the
      others' alone. */
  lemma {:induction false} RetagAt(g: AdjList, i: nat, j: nat)
    requires g.Valid() && i <= |g.keys| && j < |g.keys|
    ensures RetagMap(g, i)[g.keys[j]] == if j < i then NewTag(g, j) else g.vals[g.keys[j]].setTag
  {
    if i > 0 {
      if j != i - 1 {
        assert g.keys[j] != g.keys[i - 1];
        RetagAt(g, i - 1, j);
      }
    }
  }

  /** `g1` is `g0` with the tags `T`. */
  ghost predicate Tagged(g0: AdjList, T: map<string, Option<nat>>, g1: AdjList)
  {
    && g1.keys == g0.keys && g1.vals.Keys == g0.vals.Keys && T.Keys == g0.vals.Keys
    && forall u :: u in g0.vals ==> g1.vals[u] == g0.vals[u].(setTag := T[u])
  }

  /** `t` names a set of an instance that handed out `k` ids. */
  predicate Known(t: Option<nat>, k: nat)
  {
    t.Some? && t.value < k
  }

  /** No stored edge joins a record the fresh instance knows to one it does not. */
  ghost predicate Consistent(g: AdjList)
    requires g.Valid()
  {
    var T := RetagMap(g, |g.keys|);
    var k := Untagged(g, |g.keys|);
    forall u, w :: u in g.vals && w in g.vals && w in g.vals[u].edges.vals ==>
      (Known(T[u], k) <==> Known(T[w], k))
  }

  /** On records that are all untagged (a first run) or all tagged (a
      later one) every edge is consistent. */
  lemma UniformIsConsistent(g: AdjList)
    requires g.Valid()
    requires (forall u :: u in g.vals ==> g.vals[u].setTag.None?) || (forall u :: u in g.vals ==> g.vals[u].setTag.Some?)
    ensures Consistent(g)
  {
    var n := |g.keys|;
    var T := RetagMap(g, n);
    if forall u :: u in g.vals ==> g.vals[u].setTag.None? {
      CountUntagged(g, n);
      forall u | u in g.vals
        ensures Known(T[u], n)
      {
        var j :| 0 <= j < n && g.keys[j] == u;
        RetagAt(g, n, j);
        CountUntagged(g, j);
      }
    } else {
      CountTagged(g, n);
    }
  }

  lemma {:induction false} CountUntagged(g: AdjList, i: nat)
    requires g.Valid() && i <= |g.keys|
    requires forall u :: u in g.vals ==> g.vals[u].setTag.None?
    ensures Untagged(g, i) == i
  {
    if i > 0 {
      CountUntagged(g, i - 1);
    }
  }

  lemma {:induction false} CountTagged(g: AdjList, i: nat)
    requires g.Valid() && i <= |g.keys|
    requires forall u :: u in g.vals ==> g.vals[u].setTag.Some?
    ensures Untagged(g, i) == 0
  {
    if i > 0 {
      CountTagged(g, i - 1);
    }
  }

  // ---------------------------------------------------------------------
  // The accepting fold

  /** `n` singletons: the forest a fresh disjoint set holds after `n` adds. */
  ghost function Singletons(n: nat): (f: Forest)
    ensures f.Valid() && |f.rel| == n
    ensures forall x :: 0 <= x < n ==> f.rel[x] == x
  {
    if n == 0 then Forest([], [], 0) else Singletons(n - 1).Add()
  }

  /** The accepted edges and the forest after them. */
  datatype Choice = Choice(sol: seq<WEdge>, forest: Forest)

  /** The records of `e` are both known to the forest or both unknown. */
  ghost predicate Joinable(f: Forest, T: map<string, Option<nat>>, e: WEdge)
    requires f.Valid()
  {
    e.from in T && e.to in T && (f.Lookup(T[e.from]).Some? <==> f.Lookup(T[e.to]).Some?)
  }

  /** The pop loop over the popped edges `es`: an edge is accepted exactly
      when its records' roots differ, and acceptance hangs the target's root
      under the source's. */
  ghost function Select(f: Forest, T: map<string, Option<nat>>, es: seq<WEdge>): (c: Choice)
    requires f.Valid()
    requires forall e :: e in es ==> Joinable(f, T, e)
    ensures c.forest.Valid() && |c.forest.rel| == |f.rel|
  {
    if es == [] then Choice([], f)
    else
      var c0 := Select(f, T, es[..|es| - 1]);
      var e := es[|es| - 1];
      assert e in es && Joinable(f, T, e);
      var a := c0.forest.Lookup(T[e.from]);
      var b := c0.forest.Lookup(T[e.to]);
      if a == b then c0 else Choice(c0.sol + [e], c0.forest.Link(a.value, b.value))
  }

  /** Joined records stay joined when two roots are linked. */
  lemma LinkKeepsJoined(f: Forest, r1: nat, r2: nat, s: Option<nat>, t: Option<nat>)
    requires f.Valid() && r1 < |f.rel| && r2 < |f.rel| && f.rel[r1] == r1 && f.rel[r2] == r2 && r1 != r2
    requires f.Lookup(s) == f.Lookup(t)
    ensures f.Link(r1, r2).Lookup(s) == f.Link(r1, r2).Lookup(t)
  {
    if s.Some? && s.value < |f.rel| {
      LinkRoot(f, r1, r2, s.value);
      LinkRoot(f, r1, r2, t.value);
    }
  }

  /** Each acceptance removes one root: with `n` singletons to start with,
      fewer than `n` edges are accepted (none when `n` is 0, as on records
      all tagged by an earlier run). */
  lemma {:induction false} SelectCount(f: Forest, T: map<string, Option<nat>>, es: seq<WEdge>)
    requires f.Valid()
    requires forall e :: e in es ==> Joinable(f, T, e)
    ensures |Select(f, T, es).sol| + |Roots(Select(f, T, es).forest.rel)| == |Roots(f.rel)|
  {
    if es != [] {
      var p := es[..|es| - 1];
      SelectCount(f, T, p);
      var c0 := Select(f, T, p);
      var e := es[|es| - 1];
      assert e in es && Joinable(f, T, e);
      var a := c0.forest.Lookup(T[e.from]);
      var b := c0.forest.Lookup(T[e.to]);
      if a != b {
        LinkRootCount(c0.forest.rel, a.value, b.value);
      }
    }
  }

  lemma SelectBound(n: nat, T: map<string, Option<nat>>, es: seq<WEdge>)
    requires forall e :: e in es ==> Joinable(Singletons(n), T, e)
    ensures n == 0 ==> Select(Singletons(n), T, es).sol == []
    ensures n > 0 ==> |Select(Singletons(n), T, es).sol| <= n - 1
  {
    var f := Singletons(n);
    var c := Select(f, T, es);
    SelectCount(f, T, es);
    SingletonRoots(n);
    if n > 0 {
      assert c.forest.Root(0) in Roots(c.forest.rel);
    }
  }

  /** Each of `n` singletons is a root. */
  lemma {:induction false} SingletonRoots(n: nat)
    ensures |Roots(Singletons(n).rel)| == n
  {
    if n > 0 {
      SingletonRoots(n - 1);
      RootsSnoc(Singletons(n - 1).rel);
    }
  }

  /** A fresh singleton adds one root. */
  lemma RootsSnoc(rel: seq<nat>)
    ensures |Roots(rel + [|rel|])| == |Roots(rel)| + 1
  {
    assert |rel| !in Roots(rel);
    assert Roots(rel + [|rel|]) == Roots(rel) + {|rel|};
  }

  /** After the loop the records of every popped edge are connected. */
  lemma {:induction false} SelectSpans(f: Forest, T: map<string, Option<nat>>, es: seq<WEdge>)
    requires f.Valid()
    requires forall e :: e in es ==> Joinable(f, T, e)
    ensures forall e :: e in es ==> Select(f, T, es).forest.Lookup(T[e.from]) == Select(f, T, es).forest.Lookup(T[e.to])
  {
    if es != [] {
      var p := es[..|es| - 1];
      SelectSpans(f, T, p);
      var c0 := Select(f, T, p);
      var e := es[|es| - 1];
      assert e in es && Joinable(f, T, e);
      var a := c0.forest.Lookup(T[e.from]);
      var b := c0.forest.Lookup(T[e.to]);
      if a != b {
        forall d | d in es
          ensures c0.forest.Link(a.value, b.value).Lookup(T[d.from]) == c0.forest.Link(a.value, b.value).Lookup(T[d.to])
        {
          if d in p {
            LinkKeepsJoined(c0.forest, a.value, b.value, T[d.from], T[d.to]);
          } else {
            assert d == e;
            LinkRoot(c0.forest, a.value, b.value, T[e.from].value);
            LinkRoot(c0.forest, a.value, b.value, T[e.to].value);
          }
        }
      }
    }
  }

  /** `a` and `b` join the same two records, in either direction. */
  predicate SameEnds(a: WEdge, b: WEdge)
  {
    (a.from == b.from && a.to == b.to) || (a.from == b.to && a.to == b.from)
  }

  /** Only popped edges are accepted, and no two accepted edges join the
      same two records: of `u -> v` and `v -> u` at most one is taken. */
  lemma {:induction false} SelectNoRepeat(f: Forest, T: map<string, Option<nat>>, es: seq<WEdge>)
    requires f.Valid()
    requires forall e :: e in es ==> Joinable(f, T, e)
    ensures forall e :: e in Select(f, T, es).sol ==> e in es
    ensures forall i, j :: 0 <= i < j < |Select(f, T, es).sol| ==> !SameEnds(Select(f, T, es).sol[i], Select(f, T, es).sol[j])
  {
    if es != [] {
      var p := es[..|es| - 1];
      SelectNoRepeat(f, T, p);
      SelectSpans(f, T, p);
      var c0 := Select(f, T, p);
      var e := es[|es| - 1];
      assert e in es && Joinable(f, T, e);
      var a := c0.forest.Lookup(T[e.from]);
      var b := c0.forest.Lookup(T[e.to]);
      if a != b {
        var s := c0.sol + [e];
        forall i, j | 0 <= i < j < |s|
          ensures !SameEnds(s[i], s[j])
        {
          if j == |s| - 1 {
            assert s[i] in c0.sol;
          } else {
            assert s[i] == c0.sol[i] && s[j] == c0.sol[j];
          }
        }
      }
    }
  }

  // ---------------------------------------------------------------------
  // The accepted edges as an undirected graph on the records

  /** `e` joins `u` and `w`, in one direction or the other. */
  predicate Joins(e: WEdge, u: string, w: string)
  {
    (e.from == u && e.to == w) || (e.from == w && e.to == u)
  }

  /** Some edge of `es` joins `u` and `w`. */
  ghost predicate Adjacent(es: seq<WEdge>, u: string, w: string)
  {
    exists e :: e in es && Joins(e, u, w)
  }

  /** `p` goes from record to record along edges of `es`, either way round. */
  ghost predicate IsWalk(es: seq<WEdge>, p: seq<string>)
  {
    p != [] && forall i :: 0 <= i < |p| - 1 ==> Adjacent(es, p[i], p[i + 1])
  }

  /** Some walk along `es` leads from `u` to `w`. */
  ghost predicate Connected(es: seq<WEdge>, u: string, w: string)
  {
    exists p :: IsWalk(es, p) && p[0] == u && p[|p| - 1] == w
  }

  /** No edge of `es` joins two records the edges before it already
      connect: `es`, taken as an undirected graph, has no cycle. */
  ghost predicate Acyclic(es: seq<WEdge>)
  {
    forall i :: 0 <= i < |es| ==> !Connected(es[..i], es[i].from, es[i].to)
  }

  lemma ConnectedRefl(es: seq<WEdge>, u: string)
    ensures Connected(es, u, u)
  {
    assert IsWalk(es, [u]);
  }

  lemma ConnectedEdge(es: seq<WEdge>, e: WEdge, u: string, w: string)
    requires e in es && Joins(e, u, w)
    ensures Connected(es, u, w)
  {
    var p := [u, w];
    assert Adjacent(es, p[0], p[1]);
    assert IsWalk(es, p);
  }

  lemma ConnectedTrans(es: seq<WEdge>, u: string, v: string, w: string)
    requires Connected(es, u, v) && Connected(es, v, w)
    ensures Connected(es, u, w)
  {
    var p :| IsWalk(es, p) && p[0] == u && p[|p| - 1] == v;
    var q :| IsWalk(es, q) && q[0] == v && q[|q| - 1] == w;
    var r := p + q[1..];
    forall i | 0 <= i < |r| - 1
      ensures Adjacent(es, r[i], r[i + 1])
    {
      if i < |p| - 1 {
        assert r[i] == p[i] && r[i + 1] == p[i + 1];
      } else {
        assert r[i] == q[i - |p| + 1] && r[i + 1] == q[i - |p| + 2];
      }
    }
    assert IsWalk(es, r);
    assert r[|r| - 1] == w;
  }

  /** A walk along some edges is a walk along more. */
  lemma ConnectedMore(es: seq<WEdge>, x: WEdge, u: string, w: string)
    requires Connected(es, u, w)
    ensures Connected(es + [x], u, w)
  {
    var p :| IsWalk(es, p) && p[0] == u && p[|p| - 1] == w;
    WalkMore(es, es + [x], p);
  }

  lemma WalkMore(es: seq<WEdge>, es': seq<WEdge>, p: seq<string>)
    requires IsWalk(es, p) && forall e :: e in es ==> e in es'
    ensures IsWalk(es', p)
  {
    forall i | 0 <= i < |p| - 1
      ensures Adjacent(es', p[i], p[i + 1])
    {
      assert Adjacent(es, p[i], p[i + 1]);
      var e :| e in es && Joins(e, p[i], p[i + 1]);
      assert e in es';
    }
  }

  /** Edges whose records share a root in `F`: every record a walk along
      them passes shares it. */
  lemma {:induction false} WalkOneSet(F: Forest, T: map<string, Option<nat>>, es: seq<WEdge>, p: seq<string>, i: nat)
    requires F.Valid() && IsWalk(es, p) && i < |p| && p[0] in T
    requires forall e :: e in es ==> e.from in T && e.to in T && F.Lookup(T[e.from]) == F.Lookup(T[e.to])
    ensures p[i] in T && F.Lookup(T[p[i]]) == F.Lookup(T[p[0]])
  {
    if i > 0 {
      WalkOneSet(F, T, es, p, i - 1);
      assert Adjacent(es, p[i - 1], p[i]);
      var e :| e in es && Joins(e, p[i - 1], p[i]);
    }
  }

  lemma ConnectedOneSet(F: Forest, T: map<string, Option<nat>>, es: seq<WEdge>, u: string, w: string)
    requires F.Valid() && u in T && Connected(es, u, w)
    requires forall e :: e in es ==> e.from in T && e.to in T && F.Lookup(T[e.from]) == F.Lookup(T[e.to])
    ensures w in T && F.Lookup(T[u]) == F.Lookup(T[w])
  {
    var p :| IsWalk(es, p) && p[0] == u && p[|p| - 1] == w;
    WalkOneSet(F, T, es, p, |p| - 1);
  }

  /** The records of an accepted edge share a root after the loop. */
  lemma SolOneSet(f: Forest, T: map<string, Option<nat>>, es: seq<WEdge>)
    requires f.Valid()
    requires forall e :: e in es ==> Joinable(f, T, e)
    ensures forall e :: e in Select(f, T, es).sol ==>
      e.from in T && e.to in T && Select(f, T, es).forest.Lookup(T[e.from]) == Select(f, T, es).forest.Lookup(T[e.to])
  {
    SelectNoRepeat(f, T, es);
    SelectSpans(f, T, es);
    forall e | e in Select(f, T, es).sol
      ensures e.from in T && e.to in T
    {
      assert Joinable(f, T, e);
    }
  }

  /** Kruskal's invariant, forest half: an accepted edge never joins two
      records the edges accepted before it connect. */
  lemma {:induction false} SelectAcyclic(f: Forest, T: map<string, Option<nat>>, es: seq<WEdge>)
    requires f.Valid()
    requires forall e :: e in es ==> Joinable(f, T, e)
    ensures Acyclic(Select(f, T, es).sol)
  {
    if es != [] {
      var p := es[..|es| - 1];
      SelectAcyclic(f, T, p);
      var c0 := Select(f, T, p);
      var e := es[|es| - 1];
      assert e in es && Joinable(f, T, e);
      var a := c0.forest.Lookup(T[e.from]);
      var b := c0.forest.Lookup(T[e.to]);
      if a != b {
        var s := c0.sol + [e];
        forall i | 0 <= i < |s|
          ensures !Connected(s[..i], s[i].from, s[i].to)
        {
          if i < |c0.sol| {
            assert s[..i] == c0.sol[..i] && s[i] == c0.sol[i];
          } else {
            assert s[..i] == c0.sol && s[i] == e;
            if Connected(c0.sol, e.from, e.to) {
              SolOneSet(f, T, p);
              ConnectedOneSet(c0.forest, T, c0.sol, e.from, e.to);
            }
          }
        }
      }
    }
  }

  /** The forest starts as singletons, and the ids it knows tag one record
      each. */
  ghost predicate Apart(f: Forest, T: map<string, Option<nat>>)
    requires f.Valid()
  {
    && (forall x :: 0 <= x < |f.rel| ==> f.rel[x] == x)
    && (forall u, w :: u in T && w in T && f.Lookup(T[u]).Some? && T[u] == T[w] ==> u == w)
  }

  /** Kruskal's invariant, connection half: two known records sharing a
      root after the loop are connected by accepted edges. */
  lemma {:induction false} SelectConnects(f: Forest, T: map<string, Option<nat>>, es: seq<WEdge>, u: string, w: string)
    requires f.Valid() && Apart(f, T)
    requires forall e :: e in es ==> Joinable(f, T, e)
    requires u in T && w in T && Select(f, T, es).forest.Lookup(T[u]).Some?
    requires Select(f, T, es).forest.Lookup(T[u]) == Select(f, T, es).forest.Lookup(T[w])
    ensures Connected(Select(f, T, es).sol, u, w)
    decreases |es|, 1
  {
    if es == [] {
      assert T[u] == T[w];
      ConnectedRefl([], u);
    } else {
      var p := es[..|es| - 1];
      var c0 := Select(f, T, p);
      var e := es[|es| - 1];
      assert e in es && Joinable(f, T, e);
      var a := c0.forest.Lookup(T[e.from]);
      var b := c0.forest.Lookup(T[e.to]);
      if a == b {
        SelectConnects(f, T, p, u, w);
      } else {
        LinkJoins(f, T, p, e, u, w);
      }
    }
  }

  /** The step of `SelectConnects` that accepts `e`: a pair newly sharing a
      root is connected through `e`. */
  lemma {:induction false} LinkJoins(f: Forest, T: map<string, Option<nat>>, p: seq<WEdge>, e: WEdge, u: string, w: string)
    requires f.Valid() && Apart(f, T)
    requires forall d :: d in p ==> Joinable(f, T, d)
    requires Joinable(f, T, e) && u in T && w in T
    requires var c0 := Select(f, T, p);
      c0.forest.Lookup(T[e.from]) != c0.forest.Lookup(T[e.to])
    requires var c0 := Select(f, T, p);
      var a := c0.forest.Lookup(T[e.from]); var b := c0.forest.Lookup(T[e.to]);
      var F := c0.forest.Link(a.value, b.value);
      F.Lookup(T[u]).Some? && F.Lookup(T[u]) == F.Lookup(T[w])
    ensures Connected(Select(f, T, p).sol + [e], u, w)
    decreases |p| + 1, 0
  {
    var c0 := Select(f, T, p);
    var a := c0.forest.Lookup(T[e.from]);
    var b := c0.forest.Lookup(T[e.to]);
    var F := c0.forest.Link(a.value, b.value);
    var s := c0.sol + [e];
    var xu, xw := T[u].value, T[w].value;
    LinkRoot(c0.forest, a.value, b.value, xu);
    LinkRoot(c0.forest, a.value, b.value, xw);
    var ru, rw := c0.forest.Root(xu), c0.forest.Root(xw);
    if ru == rw {
      SelectConnects(f, T, p, u, w);
      ConnectedMore(c0.sol, e, u, w);
    } else if ru == a.value {
      assert rw == b.value;
      SelectConnects(f, T, p, u, e.from);
      SelectConnects(f, T, p, e.to, w);
      ConnectedMore(c0.sol, e, u, e.from);
      ConnectedMore(c0.sol, e, e.to, w);
      ConnectedEdge(s, e, e.from, e.to);
      ConnectedTrans(s, u, e.from, e.to);
      ConnectedTrans(s, u, e.to, w);
    } else {
      assert ru == b.value && rw == a.value;
      SelectConnects(f, T, p, u, e.to);
      SelectConnects(f, T, p, e.from, w);
      ConnectedMore(c0.sol, e, u, e.to);
      ConnectedMore(c0.sol, e, e.from, w);
      ConnectedEdge(s, e, e.to, e.from);
      ConnectedTrans(s, u, e.to, e.from);
      ConnectedTrans(s, u, e.from, w);
    }
  }

  /** Every popped edge between known records ends up connected by the
      accepted ones. */
  lemma SelectSpansConnected(f: Forest, T: map<string, Option<nat>>, es: seq<WEdge>, e: WEdge)
    requires f.Valid() && Apart(f, T)
    requires forall d :: d in es ==> Joinable(f, T, d)
    requires e in es && e.from in T && f.Lookup(T[e.from]).Some?
    ensures Connected(Select(f, T, es).sol, e.from, e.to)
  {
    SelectSpans(f, T, es);
    assert Joinable(f, T, e);
    SelectConnects(f, T, es, e.from, e.to);
  }

  /** `sol.forEach(e => ...edgeColor = "red")`. */
  method PaintSolution(g1: AdjList, sol: seq<WEdge>) returns (g: AdjList)
    requires forall e :: e in sol ==> e.from in g1.vals && e.to in g1.vals[e.from].edges.vals
    ensures g == RedAt(g1, Pairs(sol))
  {
    g := g1;
    RedAtNone(g1);
    PairsNone(sol[..0]);
    var i := 0;
    while i < |sol|
      invariant 0 <= i <= |sol|
      invariant g == RedAt(g1, Pairs(sol[..i]))
    {
      PaintStep(g1, sol, i);
      g := SetEdgeStyle(g, sol[i].from, sol[i].to, Traversal.EdgeColor, Str("red"));
      i := i + 1;
    }
    Traversal.TakeAll(sol);
  }

  // ---------------------------------------------------------------------
  // The run

  /** Sorted by weight: the heap gives up its items in this order. */
  ghost predicate Ascending(es: seq<WEdge>)
  {
    forall i, j :: 0 <= i < j < |es| ==> es[i].weight <= es[j].weight
  }

  /** `mstkruskal` after the flag writes: the new adjacency list, the
      accepted edges `sol` and, as a ghost, the order the heap gave up its
      items. Every record gets its tag from `add`, its state `""` and its
      accepted out-edges a red `edgeColor`; nothing else changes. */
  method Kruskal(g0: AdjList) returns (g: AdjList, sol: seq<WEdge>, ghost popped: seq<WEdge>)
    requires Closed(g0) && Consistent(g0)
    ensures g.keys == g0.keys && g.vals.Keys == g0.vals.Keys
    ensures TagsOf(g) == RetagMap(g0, |g0.keys|)
    ensures forall u :: u in g0.vals ==>
      g.vals[u] == g0.vals[u].(edges := RedOut(u, g0.vals[u].edges, Pairs(sol)), state := Text(""),
                               setTag := g.vals[u].setTag)
    ensures multiset(popped) == multiset(Entries(g0)) && Ascending(popped)
    ensures forall e :: e in popped ==> Joinable(Singletons(Untagged(g0, |g0.keys|)), TagsOf(g), e)
    ensures sol == Select(Singletons(Untagged(g0, |g0.keys|)), TagsOf(g), popped).sol
    ensures Acyclic(sol)
    ensures (forall u :: u in g0.vals ==> g0.vals[u].setTag.None?) ==>
      forall e :: Stored(g0, e) ==> Connected(sol, e.from, e.to)
  {
    var g1;
    g1, sol, popped := Reduce(g0);
    ghost var k := Untagged(g0, |g0.keys|);
    ghost var T := RetagMap(g0, |g0.keys|);
    SolutionStored(g0, g1, k, T, popped, sol);
    SelectAcyclic(Singletons(k), T, popped);
    if forall u :: u in g0.vals ==> g0.vals[u].setTag.None? {
      FirstRunSpans(g0, popped);
    }
    var g2 := PaintSolution(g1, sol);
    g := ResetStates(g2);
    KruskalRecords(g0, T, g1, Pairs(sol), g);
  }

  /** On a first run every record gets a fresh id of its own. */
  lemma FirstRunApart(g0: AdjList)
    requires g0.Valid()
    requires forall u :: u in g0.vals ==> g0.vals[u].setTag.None?
    ensures Untagged(g0, |g0.keys|) == |g0.keys|
    ensures forall u :: u in g0.vals ==> Known(RetagMap(g0, |g0.keys|)[u], |g0.keys|)
    ensures Apart(Singletons(|g0.keys|), RetagMap(g0, |g0.keys|))
  {
    var n := |g0.keys|;
    var T := RetagMap(g0, n);
    CountUntagged(g0, n);
    forall j | 0 <= j < n
      ensures T[g0.keys[j]] == Some(j)
    {
      RetagAt(g0, n, j);
      CountUntagged(g0, j);
    }
    forall u | u in g0.vals
      ensures Known(T[u], n)
    {
      var j :| 0 <= j < n && g0.keys[j] == u;
    }
    forall u, w | u in T && w in T && T[u] == T[w]
      ensures u == w
    {
      var i :| 0 <= i < n && g0.keys[i] == u;
      var j :| 0 <= j < n && g0.keys[j] == w;
    }
  }

  /** On a first run every stored edge is popped between known records, so
      the accepted edges connect its ends. */
  lemma FirstRunSpans(g0: AdjList, popped: seq<WEdge>)
    requires Closed(g0) && Consistent(g0)
    requires forall u :: u in g0.vals ==> g0.vals[u].setTag.None?
    requires multiset(popped) == multiset(Entries(g0))
    requires forall e :: e in popped ==> Joinable(Singletons(Untagged(g0, |g0.keys|)), RetagMap(g0, |g0.keys|), e)
    ensures forall e :: Stored(g0, e) ==>
      Connected(Select(Singletons(Untagged(g0, |g0.keys|)), RetagMap(g0, |g0.keys|), popped).sol, e.from, e.to)
  {
    FirstRunApart(g0);
    EntriesAreStored(g0);
    var n := |g0.keys|;
    var T := RetagMap(g0, n);
    forall e | Stored(g0, e)
      ensures Connected(Select(Singletons(n), T, popped).sol, e.from, e.to)
    {
      assert e in multiset(popped);
      assert Known(T[e.from], n);
      SelectSpansConnected(Singletons(n), T, popped, e);
    }
  }

  /** The reduce and the pop loop, on a fresh disjoint set and heap. */
  method Reduce(g0: AdjList)
    returns (g1: AdjList, sol: seq<WEdge>, ghost popped: seq<WEdge>)
    requires Closed(g0) && Consistent(g0)
    ensures Tagged(g0, RetagMap(g0, |g0.keys|), g1)
    ensures multiset(popped) == multiset(Entries(g0)) && Ascending(popped)
    ensures forall e :: e in popped ==> Joinable(Singletons(Untagged(g0, |g0.keys|)), RetagMap(g0, |g0.keys|), e)
    ensures sol == Select(Singletons(Untagged(g0, |g0.keys|)), RetagMap(g0, |g0.keys|), popped).sol
  {
    var ds := new DisjointSet<string>();
    var heap := new TinyQueue<WEdge>([], Weight);
    g1 := AddAll(g0, ds, heap);
    ReadyToPop(g0, g1, heap.Contents());
    sol, popped := PopLoop(g1, ds, heap, Singletons(Untagged(g0, |g0.keys|)), RetagMap(g0, |g0.keys|),
                           multiset(Entries(g0)));
  }

  /** Accepted edges are stored edges, so colouring them finds them. */
  lemma SolutionStored(g0: AdjList, g1: AdjList, k: nat, T: map<string, Option<nat>>, popped: seq<WEdge>, sol: seq<WEdge>)
    requires Closed(g0) && Tagged(g0, T, g1)
    requires multiset(popped) == multiset(Entries(g0))
    requires forall e :: e in popped ==> Joinable(Singletons(k), T, e)
    requires sol == Select(Singletons(k), T, popped).sol
    ensures forall e :: e in sol ==> e.from in g1.vals && e.to in g1.vals[e.from].edges.vals
  {
    EntriesAreStored(g0);
    SelectNoRepeat(Singletons(k), T, popped);
    forall e | e in sol
      ensures e.from in g1.vals && e.to in g1.vals[e.from].edges.vals
    {
      assert e in multiset(popped);
      assert Stored(g0, e);
    }
  }

  /** The tags of a tagged list are the tags it was given. */
  lemma TaggedTags(g0: AdjList, T: map<string, Option<nat>>, g1: AdjList)
    requires Tagged(g0, T, g1)
    ensures TagsOf(g1) == T
  {
  }

  /** The records after tagging, colouring and the reset. */
  lemma KruskalRecords(g0: AdjList, T: map<string, Option<nat>>, g1: AdjList, P: set<(string, string)>, g: AdjList)
    requires Tagged(g0, T, g1) && g == ResetStates(RedAt(g1, P))
    ensures g.keys == g0.keys && g.vals.Keys == g0.vals.Keys
    ensures TagsOf(g) == T
    ensures forall u :: u in g0.vals ==>
      g.vals[u] == g0.vals[u].(edges := RedOut(u, g0.vals[u].edges, P), state := Text(""), setTag := T[u])
  {
    forall u | u in g0.vals
      ensures g.vals[u] == g0.vals[u].(edges := RedOut(u, g0.vals[u].edges, P), state := Text(""), setTag := T[u])
    {
      assert g1.vals[u].edges == g0.vals[u].edges;
    }
  }

  /** The reduce leaves what the pop loop needs. */
  lemma ReadyToPop(g0: AdjList, g1: AdjList, M: multiset<WEdge>)
    requires Closed(g0) && Consistent(g0)
    requires Tagged(g0, RetagMap(g0, |g0.keys|), g1) && M == multiset(Entries(g0))
    ensures PopReady(g1, Singletons(Untagged(g0, |g0.keys|)), RetagMap(g0, |g0.keys|), M)
  {
    EntriesAreStored(g0);
    JoinableEntries(g0);
    TaggedTags(g0, RetagMap(g0, |g0.keys|), g1);
  }

  /** The tags `add` leaves make every stored entry joinable. */
  lemma JoinableEntries(g0: AdjList)
    requires Closed(g0) && Consistent(g0)
    requires forall e :: e in Entries(g0) <==> Stored(g0, e)
    ensures forall e :: e in multiset(Entries(g0)) ==> Joinable(Singletons(Untagged(g0, |g0.keys|)), RetagMap(g0, |g0.keys|), e)
  {
    var k := Untagged(g0, |g0.keys|);
    var T := RetagMap(g0, |g0.keys|);
    forall e | e in multiset(Entries(g0))
      ensures Joinable(Singletons(k), T, e)
    {
      assert Stored(g0, e);
    }
  }

  /** `g0` with the tags `ds.add` gives the first `i` records. */
  ghost function TaggedTo(g0: AdjList, i: nat): (g1: AdjList)
    requires g0.Valid() && i <= |g0.keys|
    ensures Tagged(g0, RetagMap(g0, i), g1)
  {
    OrderedMap(g0.keys, map u | u in g0.vals :: g0.vals[u].(setTag := RetagMap(g0, i)[u]))
  }

  /** After the reduce has visited `i` records: those are tagged, the
      forest holds a singleton per fresh id and the heap holds their edge
      entries. */
  ghost function ReduceState(g0: AdjList, i: nat): (AdjList, Forest, multiset<WEdge>)
    requires Closed(g0) && i <= |g0.keys|
  {
    (TaggedTo(g0, i), Singletons(Untagged(g0, i)), multiset(EntriesUpTo(g0, i)))
  }

  /** The reduce: `ds.add` on every record and a push of every edge entry. */
  method AddAll(g0: AdjList, ds: DisjointSet<string>, heap: TinyQueue<WEdge>) returns (g1: AdjList)
    requires Closed(g0)
    requires ds.Valid() && ds.Links() == Forest([], [], 0)
    requires heap.Valid() && heap.key == Weight && heap.Contents() == multiset{}
    modifies ds, heap
    ensures Tagged(g0, RetagMap(g0, |g0.keys|), g1)
    ensures ds.Valid() && ds.Links() == Singletons(Untagged(g0, |g0.keys|))
    ensures heap.Valid() && heap.key == Weight && heap.Contents() == multiset(Entries(g0))
  {
    g1 := g0;
    TaggedNone(g0);
    var i := 0;
    while i < |g0.keys|
      invariant 0 <= i <= |g0.keys|
      invariant ds.Valid() && heap.Valid() && heap.key == Weight
      invariant (g1, ds.Links(), heap.Contents()) == ReduceState(g0, i)
    {
      g1 := AddOne(g0, ds, heap, g1, i);
      i := i + 1;
    }
  }

  /** Before any `ds.add`, the records are as they were. */
  lemma TaggedNone(g0: AdjList)
    requires g0.Valid()
    ensures TaggedTo(g0, 0) == g0
  {
    var g1 := TaggedTo(g0, 0);
    assert g1.vals == g0.vals by {
      forall u | u in g0.vals
        ensures g1.vals[u] == g0.vals[u]
      {
      }
    }
  }

  /** One step of the reduce: `ds.add(v[1])` and the pushes of the
      record's entries. The two touch different objects, so the model does
      the pushes first. */
  method AddOne(g0: AdjList, ds: DisjointSet<string>, heap: TinyQueue<WEdge>, g1: AdjList, i: nat)
    returns (g2: AdjList)
    requires Closed(g0) && i < |g0.keys|
    requires ds.Valid() && heap.Valid() && heap.key == Weight
    requires (g1, ds.Links(), heap.Contents()) == ReduceState(g0, i)
    modifies ds, heap
    ensures ds.Valid() && heap.Valid() && heap.key == Weight
    ensures (g2, ds.Links(), heap.Contents()) == ReduceState(g0, i + 1)
  {
    var u := g0.keys[i];
    PushEdges(heap, u, g0.vals[u].edges);
    g2 := AddTag(g0, ds, g1, i);
    EntriesNext(g0, i);
  }

  /** `ds.add(v[1])`: the record's tag is the one `add` answers. */
  method AddTag(g0: AdjList, ds: DisjointSet<string>, g1: AdjList, i: nat) returns (g2: AdjList)
    requires Closed(g0) && i < |g0.keys|
    requires g1 == TaggedTo(g0, i)
    requires ds.Valid() && ds.Links() == Singletons(Untagged(g0, i))
    modifies ds
    ensures g2 == TaggedTo(g0, i + 1)
    ensures ds.Valid() && ds.Links() == Singletons(Untagged(g0, i + 1))
  {
    var u := g0.keys[i];
    RetagAt(g0, i, i);
    var tag := ds.Add(u, g1.vals[u].setTag);
    TagAfter(g0, i, tag, ds.Links());
    g2 := g1.Update(u, g1.vals[u].(setTag := tag));
    TaggedToStep(g0, i, tag);
  }

  /** Retagging record `i` of the list tagged up to `i`. */
  lemma TaggedToStep(g0: AdjList, i: nat, t: Option<nat>)
    requires g0.Valid() && i < |g0.keys| && t == NewTag(g0, i)
    ensures var u := g0.keys[i]; TaggedTo(g0, i).Update(u, TaggedTo(g0, i).vals[u].(setTag := t)) == TaggedTo(g0, i + 1)
  {
    var u := g0.keys[i];
    var a := TaggedTo(g0, i).Update(u, TaggedTo(g0, i).vals[u].(setTag := t));
    var b := TaggedTo(g0, i + 1);
    assert a.vals == b.vals by {
      forall w | w in g0.vals
        ensures a.vals[w] == b.vals[w]
      {
      }
    }
  }

  /** The entries of one more vertex. */
  lemma EntriesNext(g0: AdjList, i: nat)
    requires Closed(g0) && i < |g0.keys|
    ensures multiset(EntriesUpTo(g0, i + 1))
      == multiset(EntriesUpTo(g0, i)) + multiset(OutEdges(g0.keys[i], g0.vals[g0.keys[i]].edges))
  {
  }

  /** What `add` answers is the record's new tag, and the forest grows by a
      singleton exactly for an untagged record. */
  lemma TagAfter(g0: AdjList, i: nat, tag: Option<nat>, f: Forest)
    requires g0.Valid() && i < |g0.keys|
    requires var t := g0.vals[g0.keys[i]].setTag;
             (t.Some? ==> tag == t && f == Singletons(Untagged(g0, i))) &&
             (t.None? ==> tag == Some(Untagged(g0, i)) && f == Singletons(Untagged(g0, i)).Add())
    ensures tag == NewTag(g0, i)
    ensures f == Singletons(Untagged(g0, i + 1))
  {
  }

  /** The pop loop's invariant: what has left the heap, in order and as a
      multiset, and the disjoint set and `sol` as the fold over it. */
  ghost predicate PopInv(f0: Forest, T: map<string, Option<nat>>, M: multiset<WEdge>,
                         data: seq<WEdge>, links: Forest, sol: seq<WEdge>, popped: seq<WEdge>)
  {
    && f0.Valid()
    && (forall e :: e in M ==> Joinable(f0, T, e))
    && multiset(popped) + multiset(data) == M
    && Ascending(popped)
    && (forall p, y :: p in popped && y in data ==> p.weight <= y.weight)
    && (forall e :: e in popped ==> Joinable(f0, T, e))
    && links == Select(f0, T, popped).forest
    && sol == Select(f0, T, popped).sol
  }

  /** What the pop loop needs: `T` is the tags of `g1`, and every item in
      the heap is joinable. */
  ghost predicate PopReady(g1: AdjList, f0: Forest, T: map<string, Option<nat>>, M: multiset<WEdge>)
  {
    T == TagsOf(g1) && f0.Valid() && forall e :: e in M ==> Joinable(f0, T, e)
  }

  method PopLoop(g1: AdjList, ds: DisjointSet<string>, heap: TinyQueue<WEdge>,
                 ghost f0: Forest, ghost T: map<string, Option<nat>>, ghost M: multiset<WEdge>)
    returns (sol: seq<WEdge>, ghost popped: seq<WEdge>)
    requires ds.Valid() && heap.Valid() && heap.key == Weight
    requires ds.Links() == f0 && heap.Contents() == M && PopReady(g1, f0, T, M)
    modifies ds, heap
    ensures multiset(popped) == M && Ascending(popped)
    ensures forall e :: e in popped ==> Joinable(f0, T, e)
    ensures sol == Select(f0, T, popped).sol
  {
    sol, popped := [], [];
    while heap.length > 0
      invariant ds.Valid() && heap.Valid() && heap.key == Weight
      invariant PopInv(f0, T, M, heap.data, ds.Links(), sol, popped)
      decreases heap.length
    {
      sol, popped := PopStep(g1, ds, heap, f0, T, M, sol, popped);
    }
  }

  method PopStep(g1: AdjList, ds: DisjointSet<string>, heap: TinyQueue<WEdge>,
                 ghost f0: Forest, ghost T: map<string, Option<nat>>, ghost M: multiset<WEdge>,
                 sol0: seq<WEdge>, ghost popped0: seq<WEdge>)
    returns (sol: seq<WEdge>, ghost popped: seq<WEdge>)
    requires T == TagsOf(g1)
    requires ds.Valid() && heap.Valid() && heap.key == Weight && heap.length > 0
    requires PopInv(f0, T, M, heap.data, ds.Links(), sol0, popped0)
    modifies ds, heap
    ensures ds.Valid() && heap.Valid() && heap.key == Weight && heap.length < old(heap.length)
    ensures PopInv(f0, T, M, heap.data, ds.Links(), sol, popped)
  {
    ghost var data0 := heap.data;
    var top := heap.Pop();
    var edge := top.value;
    popped := popped0 + [edge];
    PopOrder(M, popped0, data0, heap.data, edge);
    ghost var c0 := Select(f0, T, popped0);
    SelectSnoc(f0, T, popped0, edge);
    var t1 := g1.vals[edge.from].setTag;
    var t2 := g1.vals[edge.to].setTag;
    var joined := ds.Connected(t1, t2);
    sol := sol0;
    if !joined {
      sol := sol + [edge];
      ds.Union(t1, t2);
    }
  }

  /** One more popped edge: accepted exactly when its roots differ. */
  lemma SelectSnoc(f: Forest, T: map<string, Option<nat>>, es: seq<WEdge>, e: WEdge)
    requires f.Valid() && (forall x :: x in es ==> Joinable(f, T, x)) && Joinable(f, T, e)
    ensures forall x :: x in es + [e] ==> Joinable(f, T, x)
    ensures var c0 := Select(f, T, es);
            var a := c0.forest.Lookup(T[e.from]);
            var b := c0.forest.Lookup(T[e.to]);
            && (a.Some? <==> b.Some?)
            && Select(f, T, es + [e]) == if a == b then c0 else Choice(c0.sol + [e], c0.forest.Link(a.value, b.value))
  {
    assert (es + [e])[..|es + [e]| - 1] == es;
  }

  /** Popping the minimum keeps the popped sequence ascending and below
      what is left. */
  lemma PopOrder(M: multiset<WEdge>, popped0: seq<WEdge>, data0: seq<WEdge>, data: seq<WEdge>, edge: WEdge)
    requires multiset(popped0) + multiset(data0) == M
    requires Ascending(popped0)
    requires forall p, y :: p in popped0 && y in data0 ==> p.weight <= y.weight
    requires edge in data0 && multiset(data) + multiset{edge} == multiset(data0)
    requires forall y :: y in data ==> edge.weight <= y.weight
    ensures multiset(popped0 + [edge]) + multiset(data) == M
    ensures Ascending(popped0 + [edge])
    ensures forall p, y :: p in popped0 + [edge] && y in data ==> p.weight <= y.weight
    ensures edge in M
  {
    forall y | y in data
      ensures y in data0
    {
      assert y in multiset(data);
      assert y in multiset(data0);
    }
  }
}
