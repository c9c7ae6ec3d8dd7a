/** Reachability along stored out-edges. A path is a non-empty sequence of
    vertices, each one an edges-Map key of the one before. The traversals'
    claims are stated with these notions. */
module Paths {
  import opened Adjacency

  /** `w` is a key of `u`'s edges Map. */
  ghost predicate Step(g: AdjList, u: string, w: string)
  {
    u in g.vals && w in g.vals[u].edges.vals
  }

  ghost predicate IsPath(g: AdjList, p: seq<string>)
  {
    && |p| >= 1
    && p[0] in g.vals
    && (forall i, j :: 0 <= i && j == i + 1 && j < |p| ==> Step(g, p[i], p[j]))
  }

  /** Some path leads from `s` to `t`. */
  ghost predicate Reachable(g: AdjList, s: string, t: string)
  {
    exists p :: IsPath(g, p) && p[0] == s && p[|p| - 1] == t
  }

  /** Every vertex reaches itself. */
  lemma ReachableRefl(g: AdjList, s: string)
    requires s in g.vals
    ensures Reachable(g, s, s)
  {
    assert IsPath(g, [s]);
  }

  /** A path extends by one more out-edge. */
  lemma ReachableStep(g: AdjList, s: string, u: string, w: string)
    requires Reachable(g, s, u) && Step(g, u, w)
    ensures Reachable(g, s, w)
  {
    var p :| IsPath(g, p) && p[0] == s && p[|p| - 1] == u;
    var q := p + [w];
    assert forall i :: 0 <= i < |q| - 1 ==> q[i] == p[i];
    assert IsPath(g, q);
  }

  /** The out-edges of the vertices of `S` lead back into `S`. */
  ghost predicate ClosedUnder(g: AdjList, S: set<string>)
  {
    forall u, w :: u in S && Step(g, u, w) ==> w in S
  }

  /** A set closed under out-edges that holds `s` holds everything `s`
      reaches: the completeness half of every traversal claim. */
  lemma ClosedHoldsReachable(g: AdjList, S: set<string>, s: string, t: string)
    requires ClosedUnder(g, S) && s in S && Reachable(g, s, t)
    ensures t in S
  {
    var p :| IsPath(g, p) && p[0] == s && p[|p| - 1] == t;
    PathStaysIn(g, S, p);
  }

  lemma PathStaysIn(g: AdjList, S: set<string>, p: seq<string>)
    requires ClosedUnder(g, S) && IsPath(g, p) && p[0] in S
    ensures forall i :: 0 <= i < |p| ==> p[i] in S
  {
    forall i | 0 <= i < |p|
      ensures p[i] in S
    {
      PrefixStaysIn(g, S, p, i);
    }
  }

  lemma {:induction false} PrefixStaysIn(g: AdjList, S: set<string>, p: seq<string>, k: nat)
    requires ClosedUnder(g, S) && IsPath(g, p) && p[0] in S && k < |p|
    ensures p[k] in S
  {
    if k > 0 {
      PrefixStaysIn(g, S, p, k - 1);
      assert Step(g, p[k - 1], p[k]);
    }
  }

  /** Only edges count: two graphs with the same vertex names and edge
      keys have the same paths. */
  ghost predicate SameEdges(g: AdjList, h: AdjList)
  {
    && g.vals.Keys == h.vals.Keys
    && (forall u :: u in g.vals ==> g.vals[u].edges.vals.Keys == h.vals[u].edges.vals.Keys)
  }

  lemma SameEdgesReachable(g: AdjList, h: AdjList, s: string, t: string)
    requires SameEdges(g, h)
    ensures Reachable(g, s, t) <==> Reachable(h, s, t)
  {
    if Reachable(g, s, t) {
      var p :| IsPath(g, p) && p[0] == s && p[|p| - 1] == t;
      assert forall i :: 0 <= i < |p| - 1 ==> Step(h, p[i], p[i + 1]);
      assert IsPath(h, p);
    }
    if Reachable(h, s, t) {
      var p :| IsPath(h, p) && p[0] == s && p[|p| - 1] == t;
      assert forall i :: 0 <= i < |p| - 1 ==> Step(g, p[i], p[i + 1]);
      assert IsPath(g, p);
    }
  }

  /** `c` lies on a cycle: one of its out-edges leads back to it. */
  ghost predicate OnCycle(g: AdjList, c: string)
  {
    exists w :: Step(g, c, w) && Reachable(g, w, c)
  }

  /** A cycle can be reached from `u`, so walks from `u` go on forever. */
  ghost predicate Live(g: AdjList, u: string)
  {
    exists c :: Reachable(g, u, c) && OnCycle(g, c)
  }

  /** A vertex that reaches a cycle has an out-neighbour that reaches one:
      the next vertex of the path to the cycle, or of the cycle itself. */
  lemma LiveStep(g: AdjList, u: string) returns (w: string)
    requires Live(g, u)
    ensures Step(g, u, w) && Live(g, w)
  {
    var c :| Reachable(g, u, c) && OnCycle(g, c);
    var p :| IsPath(g, p) && p[0] == u && p[|p| - 1] == c;
    if |p| == 1 {
      w :| Step(g, c, w) && Reachable(g, w, c);
    } else {
      w := p[1];
      assert Step(g, p[0], p[1]);
      if |p| > 2 {
        assert Step(g, p[1], p[2]);
      }
      var q := p[1..];
      assert forall i :: 0 <= i < |q| ==> q[i] == p[i + 1];
      assert IsPath(g, q);
      assert Reachable(g, w, c);
    }
  }
}
