/** What the breadth- and depth-first runners of pub/scripts/algorithms/bfs.js
    and dfs.js have in common: the "visited"/"explored" marks in slot 4 of a
    record, the termination measure, and the part of the loop invariant that
    gives the reachability claim.

    Both runners keep a worklist (a queue or a stack) and mark only the
    source "visited"; a vertex becomes "explored" when it has left the
    worklist and its neighbours have been examined, and a neighbour is added
    unless it is marked. A vertex can therefore be on the worklist several
    times. `U` is the set of vertices that are not explored. */
module Traversal {
  import opened Values
  import opened Adjacency
  import opened Paths

  const EdgeColor := "edgeColor"
  const BorderColor := "vertexBorderColor"
  const VertexColor := "vertexColor"

  const Visited := Text("visited")
  const Explored := Text("explored")

  /** The message both BFS runners, old and new, throw for a missing source. */
  function BfsMissing(source: string): string
  {
    "Cannot perform BFS on graph " + source + " because " + source + " is not in the graph."
  }

  /** The message both DFS runners throw for a missing source. */
  function DfsMissing(source: string): string
  {
    "Cannot perform DFS on graph " + source + " because " + source + " is not in the graph."
  }

  /** The test that makes a runner skip a neighbour. */
  predicate Marked(s: State)
  {
    s == Visited || s == Explored
  }

  /** No vertex is marked, as after the reset every run ends with. */
  ghost predicate Clear(g: AdjList)
  {
    forall u :: u in g.vals ==> !Marked(g.vals[u].state)
  }

  /** How many entries of `q` are outside `U`: the second component of the
      termination measure. */
  ghost function CountOut(U: set<string>, q: seq<string>): nat
  {
    if q == [] then 0 else (if q[0] !in U then 1 else 0) + CountOut(U, q[1..])
  }

  lemma {:induction false} CountOutSnoc(U: set<string>, q: seq<string>, w: string)
    ensures CountOut(U, q + [w]) == CountOut(U, q) + (if w in U then 0 else 1)
  {
    if q != [] {
      assert (q + [w])[1..] == q[1..] + [w];
      CountOutSnoc(U, q[1..], w);
    }
  }

  /** The vertices reachable from `s`. */
  ghost function ReachFrom(g: AdjList, s: string): (R: set<string>)
    ensures forall u :: u in R <==> u in g.vals && Reachable(g, s, u)
  {
    set u | u in g.vals && Reachable(g, s, u)
  }

  /** The reachable set holds the source and is closed under out-edges. */
  lemma ReachFromFacts(g: AdjList, s: string)
    requires Closed(g) && s in g.vals
    ensures s in ReachFrom(g, s)
    ensures forall u, w :: u in ReachFrom(g, s) && w in g.vals[u].edges.vals ==> w in ReachFrom(g, s)
  {
    ReachableRefl(g, s);
    forall u, w | u in ReachFrom(g, s) && w in g.vals[u].edges.vals
      ensures w in ReachFrom(g, s)
    {
      ReachableStep(g, s, u, w);
    }
  }

  /** The edge keys of a vertex of a set closed under out-edges lie in the set. */
  lemma NeighboursIn(g0: AdjList, R: set<string>, v: string)
    requires Closed(g0) && v in R && R <= g0.vals.Keys
    requires forall u, w :: u in R && w in g0.vals[u].edges.vals ==> w in R
    ensures g0.vals[v].edges.Valid()
    ensures forall w :: w in g0.vals[v].edges.keys ==> w in R
  {
  }

  /** State slots: explored exactly outside `U`, changed only on vertices of
      `R` (the reachable ones), and the source is marked. */
  ghost predicate StatesInv(g0: AdjList, source: string, R: set<string>, states: map<string, State>, U: set<string>)
  {
    && states.Keys == g0.vals.Keys
    && U <= g0.vals.Keys
    && (forall u :: u in states ==> (states[u] == Explored <==> u !in U))
    && (forall u :: u in states && states[u] != g0.vals[u].state ==> u in R)
    && source in states && Marked(states[source])
  }

  /** From an unmarked start: a visited vertex is on the worklist `W` or
      being examined (in `pending`), and an out-neighbour of an explored
      vertex is explored, on the worklist or being examined. */
  ghost predicate Frontier(g0: AdjList, W: seq<string>, states: map<string, State>, U: set<string>,
                           pending: set<string>)
  {
    Clear(g0) ==>
      && (forall u :: u in states && states[u] == Visited ==> u in W || u in pending)
      && (forall u, w :: u in g0.vals && u !in U && w in g0.vals[u].edges.vals ==> w !in U || w in W || w in pending)
  }

  /** Every vertex of `ns` is explored, on the worklist or `v` itself. */
  ghost predicate Covered(U: set<string>, W: seq<string>, v: string, ns: seq<string>)
  {
    forall w :: w in ns ==> w !in U || w in W || w == v
  }

  /** The marks before the loop: only the source changes, to "visited". */
  lemma StartStates(g0: AdjList, source: string, R: set<string>, states: map<string, State>, U: set<string>)
    requires source in R && R <= g0.vals.Keys
    requires states == (map u | u in g0.vals :: g0.vals[u].state)[source := Visited]
    requires U == set u | u in g0.vals && states[u] != Explored
    ensures StatesInv(g0, source, R, states, U)
  {
  }

  lemma StartFrontier(g0: AdjList, source: string, states: map<string, State>, U: set<string>)
    requires source in g0.vals
    requires states == (map u | u in g0.vals :: g0.vals[u].state)[source := Visited]
    requires U == set u | u in g0.vals && states[u] != Explored
    ensures Frontier(g0, [source], states, U, {})
  {
  }

  /** Taking `v` off the worklist: it is now the vertex being examined. */
  lemma FrontierTake(g0: AdjList, W0: seq<string>, W: seq<string>, states: map<string, State>, U: set<string>,
                     v: string)
    requires Frontier(g0, W0, states, U, {})
    requires forall q :: q in W0 ==> q in W || q == v
    ensures Frontier(g0, W, states, U, {v})
  {
  }

  /** Adding to the worklist keeps the frontier. */
  lemma FrontierGrow(g0: AdjList, W0: seq<string>, W: seq<string>, states: map<string, State>, U: set<string>,
                     pending: set<string>)
    requires Frontier(g0, W0, states, U, pending)
    requires forall q :: q in W0 ==> q in W
    ensures Frontier(g0, W, states, U, pending)
  {
  }

  /** Examining `w` keeps the examined neighbours covered: a marked one is
      explored or, being visited, on the worklist or `v`; an unmarked one is
      added to the worklist. */
  lemma CoveredStep(g0: AdjList, source: string, R: set<string>, states: map<string, State>, U: set<string>,
                    W: seq<string>, W': seq<string>, v: string, ns: seq<string>, w: string)
    requires StatesInv(g0, source, R, states, U) && Frontier(g0, W, states, U, {v})
    requires w in states
    requires Clear(g0) ==> Covered(U, W, v, ns)
    requires (Marked(states[w]) && W' == W) || W' == W + [w]
    ensures Clear(g0) ==> Covered(U, W', v, ns + [w])
  {
  }

  /** `v` becomes explored once its neighbours have been examined. */
  lemma StatesExplore(g0: AdjList, source: string, R: set<string>, states: map<string, State>, U: set<string>,
                      v: string)
    requires StatesInv(g0, source, R, states, U) && v in R && v in g0.vals
    ensures StatesInv(g0, source, R, states[v := Explored], U - {v})
  {
  }

  lemma FrontierExplore(g0: AdjList, W: seq<string>, states: map<string, State>, U: set<string>, v: string)
    requires Frontier(g0, W, states, U, {v}) && v in g0.vals && g0.vals[v].edges.Valid()
    requires Clear(g0) ==> Covered(U, W, v, g0.vals[v].edges.keys)
    ensures Frontier(g0, W, states[v := Explored], U - {v}, {})
  {
  }

  /** One pass decreases the measure `|U|, CountOut(U, W)`: `W0` is the
      worklist before, `W1` after taking `v` off and `W` after examining
      the neighbours. Either `v` was unexplored and leaves `U`, or its entry,
      outside `U`, goes while the neighbours add only entries in `U`. */
  lemma MeasureDrops(U0: set<string>, v: string, W0: seq<string>, W1: seq<string>, W: seq<string>)
    requires CountOut(U0, W0) == CountOut(U0, W1) + (if v in U0 then 0 else 1)
    requires CountOut(U0, W) == CountOut(U0, W1)
    ensures |U0 - {v}| < |U0| || (|U0 - {v}| == |U0| && CountOut(U0 - {v}, W) < CountOut(U0, W0))
  {
    if v !in U0 {
      assert U0 - {v} == U0;
    }
  }

  /** With an empty worklist and an unmarked start, the explored set holds
      the source and is closed under out-edges. */
  lemma ExploredClosed(g0: AdjList, source: string, R: set<string>, states: map<string, State>, U: set<string>)
    requires Closed(g0) && Clear(g0) && StatesInv(g0, source, R, states, U)
    requires Frontier(g0, [], states, U, {})
    ensures source in g0.vals.Keys - U
    ensures ClosedUnder(g0, g0.vals.Keys - U)
  {
    forall u, w | u in g0.vals.Keys - U && Step(g0, u, w)
      ensures w in g0.vals.Keys - U
    {
      assert w !in U || w in [] || w in {};
    }
  }

  /** The reachability claim: with an empty worklist and an unmarked
      start, the explored vertices are exactly the reachable ones. */
  lemma ExploredIsReachable(g0: AdjList, source: string, R: set<string>, states: map<string, State>, U: set<string>)
    requires Closed(g0) && source in g0.vals && R == ReachFrom(g0, source)
    requires StatesInv(g0, source, R, states, U) && Frontier(g0, [], states, U, {})
    ensures Clear(g0) ==> forall u :: u in g0.vals ==> (states[u] == Explored <==> u in R)
    ensures Clear(g0) ==> R == g0.vals.Keys - U
  {
    if Clear(g0) {
      var E := g0.vals.Keys - U;
      ExploredClosed(g0, source, R, states, U);
      forall u | u in R
        ensures u in E
      {
        ClosedHoldsReachable(g0, E, source, u);
      }
    }
  }

  // The order in which a runner takes vertices off its worklist. `M0` is
  // the set of vertices marked when the loop starts; a vertex taken off is
  // "explored" once its neighbours have been examined, and adding to the
  // worklist does not mark. `lifo` selects the stack of DFS, whose top is the
  // last entry; otherwise the worklist is the queue of BFS, whose front is
  // the first.

  /** The entry a runner takes off the worklist `S`. */
  function Top(S: seq<string>, lifo: bool): string
    requires S != []
  {
    if lifo then S[|S| - 1] else S[0]
  }

  /** The worklist `S` without that entry. */
  function Rest(S: seq<string>, lifo: bool): seq<string>
    requires S != []
  {
    if lifo then S[..|S| - 1] else S[1..]
  }

  /** The vertices marked when the loop starts: those already "visited" or
      "explored", and the source. */
  ghost function Marks0(g0: AdjList, source: string): set<string>
  {
    set u | u in g0.vals && (u == source || Marked(g0.vals[u].state))
  }

  /** The start marks: only the source is marked when nothing else is. */
  lemma SourceMarked(g0: AdjList, source: string, u: string)
    requires source in g0.vals
    ensures source in Marks0(g0, source)
    ensures u != source && u in g0.vals && !Marked(g0.vals[u].state) ==> u !in Marks0(g0, source)
  {
  }

  /** The targets among the first `n` of `ks` that the inner loop adds to
      the worklist: those neither marked at the start nor taken off before,
      in order. */
  function Unmarked(ks: seq<string>, n: nat, M0: set<string>, popped: seq<string>): seq<string>
    requires n <= |ks|
  {
    if n == 0 then []
    else Unmarked(ks, n - 1, M0, popped) + (if ks[n - 1] in M0 || ks[n - 1] in popped then [] else [ks[n - 1]])
  }

  /** A target is added exactly if it is among the first `n`, not marked at
      the start and not taken off before: an explored vertex is never added
      again. */
  lemma {:induction false} UnmarkedIn(ks: seq<string>, n: nat, M0: set<string>, popped: seq<string>, t: string)
    requires n <= |ks|
    ensures t in Unmarked(ks, n, M0, popped) <==> t in ks[..n] && t !in M0 && t !in popped
  {
    if n > 0 {
      UnmarkedIn(ks, n - 1, M0, popped, t);
      assert ks[..n] == ks[..n - 1] + [ks[n - 1]];
    }
  }

  /** With none of them marked, all of the first `n` targets are added. */
  lemma {:induction false} UnmarkedKeep(ks: seq<string>, n: nat, M0: set<string>, popped: seq<string>)
    requires n <= |ks| && forall i :: 0 <= i < n ==> ks[i] !in M0 && ks[i] !in popped
    ensures Unmarked(ks, n, M0, popped) == ks[..n]
  {
    if n > 0 {
      UnmarkedKeep(ks, n - 1, M0, popped);
      assert ks[..n] == ks[..n - 1] + [ks[n - 1]];
    }
  }

  /** With all of them marked, none is added. */
  lemma {:induction false} UnmarkedDrop(ks: seq<string>, n: nat, M0: set<string>, popped: seq<string>)
    requires n <= |ks| && forall i :: 0 <= i < n ==> ks[i] in M0 || ks[i] in popped
    ensures Unmarked(ks, n, M0, popped) == []
  {
    if n > 0 {
      UnmarkedDrop(ks, n - 1, M0, popped);
    }
  }

  /** A vertex is marked exactly if it was marked at the start or has been
      taken off the worklist. */
  ghost predicate MarksInv(states: map<string, State>, M0: set<string>, pops: seq<string>)
  {
    forall u :: u in states ==> (Marked(states[u]) <==> u in M0 || u in pops)
  }

  /** The marks before the loop: the source is "visited", the other slots
      are as they were. */
  lemma MarksStart(g0: AdjList, source: string, states: map<string, State>)
    requires source in g0.vals
    requires states == (map u | u in g0.vals :: g0.vals[u].state)[source := Visited]
    ensures MarksInv(states, Marks0(g0, source), [])
  {
    forall u | u in states
      ensures Marked(states[u]) <==> u in Marks0(g0, source)
    {
      if u != source {
        assert states[u] == g0.vals[u].state;
      }
    }
  }

  /** One neighbour of the inner loop: added unless marked. */
  lemma PushedStep(S0: seq<string>, ns: seq<string>, i: nat, M0: set<string>, pops: seq<string>, marked: bool,
                   S: seq<string>)
    requires i < |ns| && (marked <==> ns[i] in M0 || ns[i] in pops)
    requires S == S0 + Unmarked(ns, i, M0, pops)
    ensures S + (if marked then [] else [ns[i]]) == S0 + Unmarked(ns, i + 1, M0, pops)
  {
  }

  /** The worklist left after taking off `pops` in turn, starting from
      `S0`: each turn takes the `Top` of the worklist and adds that vertex's
      unmarked out-neighbours in insertion order. `None` if some entry of
      `pops` is not the `Top` at its turn. */
  ghost function Replay(g0: AdjList, M0: set<string>, S0: seq<string>, pops: seq<string>, lifo: bool)
    : Option<seq<string>>
    decreases |pops|
  {
    if pops == [] then Some(S0)
    else
      var k := |pops| - 1;
      match Replay(g0, M0, S0, pops[..k], lifo)
      case None => None
      case Some(S) =>
        if S != [] && Top(S, lifo) == pops[k] && pops[k] in g0.vals
        then Some(Rest(S, lifo) + Unmarked(g0.vals[pops[k]].edges.keys, |g0.vals[pops[k]].edges.keys|, M0, pops[..k]))
        else None
  }

  /** The prefixes of a replay that succeeds succeed. */
  lemma {:induction false} ReplayPrefix(g0: AdjList, M0: set<string>, S0: seq<string>, pops: seq<string>,
                                        lifo: bool, j: nat)
    requires j <= |pops| && Replay(g0, M0, S0, pops, lifo).Some?
    ensures Replay(g0, M0, S0, pops[..j], lifo).Some?
    decreases |pops|
  {
    if j < |pops| {
      var k := |pops| - 1;
      ReplayPrefix(g0, M0, S0, pops[..k], lifo, j);
      assert pops[..k][..j] == pops[..j];
    } else {
      assert pops[..j] == pops;
    }
  }

  /** Each turn takes the `Top` of the worklist the turns before it leave. */
  lemma ReplayTop(g0: AdjList, M0: set<string>, S0: seq<string>, pops: seq<string>, lifo: bool, j: nat)
    requires j < |pops| && Replay(g0, M0, S0, pops, lifo).Some?
    ensures Replay(g0, M0, S0, pops[..j], lifo).Some?
    ensures Replay(g0, M0, S0, pops[..j], lifo).value != []
    ensures Top(Replay(g0, M0, S0, pops[..j], lifo).value, lifo) == pops[j]
  {
    ReplayPrefix(g0, M0, S0, pops, lifo, j + 1);
    assert pops[..j + 1][..j] == pops[..j];
  }

  /** Two replays that succeed agree on their common length. */
  lemma {:induction false} ReplaySame(g0: AdjList, M0: set<string>, S0: seq<string>, p: seq<string>, q: seq<string>,
                                      lifo: bool, j: nat)
    requires Replay(g0, M0, S0, p, lifo).Some? && Replay(g0, M0, S0, q, lifo).Some?
    requires j <= |p| && j <= |q|
    ensures p[..j] == q[..j]
  {
    if j > 0 {
      ReplaySame(g0, M0, S0, p, q, lifo, j - 1);
      ReplayTop(g0, M0, S0, p, lifo, j - 1);
      ReplayTop(g0, M0, S0, q, lifo, j - 1);
      PrefixExtend(p, q, j);
    }
  }

  lemma PrefixExtend<T>(p: seq<T>, q: seq<T>, j: nat)
    requires 0 < j <= |p| && j <= |q| && p[..j - 1] == q[..j - 1] && p[j - 1] == q[j - 1]
    ensures p[..j] == q[..j]
  {
    assert p[..j] == p[..j - 1] + [p[j - 1]];
    assert q[..j] == q[..j - 1] + [q[j - 1]];
  }

  /** The worklist discipline fixes the order: only one sequence of turns
      empties the worklist. */
  lemma ReplayUnique(g0: AdjList, M0: set<string>, S0: seq<string>, p: seq<string>, q: seq<string>, lifo: bool)
    requires Replay(g0, M0, S0, p, lifo) == Some([]) && Replay(g0, M0, S0, q, lifo) == Some([])
    ensures p == q
  {
    if |p| < |q| {
      ReplaySame(g0, M0, S0, p, q, lifo, |p|);
      assert p[..|p|] == p;
      ReplayTop(g0, M0, S0, q, lifo, |p|);
      assert false;
    } else if |q| < |p| {
      ReplaySame(g0, M0, S0, p, q, lifo, |q|);
      assert q[..|q|] == q;
      ReplayTop(g0, M0, S0, p, lifo, |q|);
      assert false;
    } else {
      ReplaySame(g0, M0, S0, p, q, lifo, |p|);
      assert p[..|p|] == p && q[..|q|] == q;
    }
  }

  /** One more turn: the `Top` `v` of the worklist `S` left by `pops`. */
  lemma ReplayNext(g0: AdjList, M0: set<string>, S0: seq<string>, pops: seq<string>, S: seq<string>, v: string,
                   ks: seq<string>, pops': seq<string>, S': seq<string>, lifo: bool)
    requires Replay(g0, M0, S0, pops, lifo) == Some(S) && S != [] && Top(S, lifo) == v
    requires v in g0.vals && g0.vals[v].edges.keys == ks && pops' == pops + [v]
    requires S' == Rest(S, lifo) + Unmarked(ks, |ks|, M0, pops)
    ensures Replay(g0, M0, S0, pops', lifo) == Some(S')
  {
    assert pops'[..|pops|] == pops;
  }

  lemma TakeOneMore<T>(s: seq<T>, i: nat)
    requires i < |s|
    ensures s[..i + 1] == s[..i] + [s[i]]
  {
  }

  lemma TakeAll<T>(s: seq<T>)
    ensures s[..|s|] == s
  {
  }

  lemma FrontAndRest<T>(s: seq<T>)
    requires s != []
    ensures s == [s[0]] + s[1..]
  {
  }

  lemma RestAndLast<T>(s: seq<T>)
    requires s != []
    ensures s == s[..|s| - 1] + [s[|s| - 1]]
  {
  }
}
