/** Small runs of the breadth- and depth-first runners, on any graph whose
    distinct vertices `a`, `b` and `c` have the out-neighbours given, in that
    insertion order, started from `a` when only `a` is marked
    (`SourceMarked`): the order in which vertices leave the worklist, the log
    and, breadth-first, the blue borders. The same fork is then run through
    the older searches of `LegacySearch`, from records none of which ends
    with a mark. Each run is proved one turn of the loop at a time. */
module SearchExamples {
  import opened Values
  import opened Adjacency
  import opened Traversal
  import DepthFirst
  import BreadthFirst
  import LegacySearch

  // Depth-first.

  /** The first pop of `DfsForkOrder`. */
  lemma DfsFork1(g0: AdjList, M0: set<string>, a: string, b: string, c: string)
    requires a in g0.vals && b in g0.vals && c in g0.vals
    requires g0.vals[a].edges.keys == [b, c] && g0.vals[b].edges.keys == [] && g0.vals[c].edges.keys == []
    requires a != b && a != c && b != c
    requires a in M0 && b !in M0 && c !in M0
    ensures Replay(g0, M0, [a], [a], true) == Some([b, c])
  {
    UnmarkedKeep([b, c], 2, M0, []);
    ReplayNext(g0, M0, [a], [], [a], a, [b, c], [a], [b, c], true);
  }

  /** The second pop of `DfsForkOrder`. */
  lemma DfsFork2(g0: AdjList, M0: set<string>, a: string, b: string, c: string)
    requires a in g0.vals && b in g0.vals && c in g0.vals
    requires g0.vals[a].edges.keys == [b, c] && g0.vals[b].edges.keys == [] && g0.vals[c].edges.keys == []
    requires a != b && a != c && b != c
    requires a in M0 && b !in M0 && c !in M0
    requires Replay(g0, M0, [a], [a], true) == Some([b, c])
    ensures Replay(g0, M0, [a], [a, c], true) == Some([b])
  {
    ReplayNext(g0, M0, [a], [a], [b, c], c, [], [a, c], [b], true);
  }

  /** The third pop of `DfsForkOrder`. */
  lemma DfsFork3(g0: AdjList, M0: set<string>, a: string, b: string, c: string)
    requires a in g0.vals && b in g0.vals && c in g0.vals
    requires g0.vals[a].edges.keys == [b, c] && g0.vals[b].edges.keys == [] && g0.vals[c].edges.keys == []
    requires a != b && a != c && b != c
    requires a in M0 && b !in M0 && c !in M0
    requires Replay(g0, M0, [a], [a, c], true) == Some([b])
    ensures Replay(g0, M0, [a], [a, c, b], true) == Some([])
  {
    ReplayNext(g0, M0, [a], [a, c], [b], b, [], [a, c, b], [], true);
  }

  /** The log of `DfsForkOrder`. */
  lemma DfsForkLog(g0: AdjList, a: string, b: string, c: string)
    requires a in g0.vals && b in g0.vals && c in g0.vals
    requires g0.vals[a].edges.keys == [b, c] && g0.vals[b].edges.keys == [] && g0.vals[c].edges.keys == []
    ensures DepthFirst.LogOf(g0, [a, c, b]) == [a, a]
  {
    assert DepthFirst.LogOf(g0, [a]) == [a, a] by {
      assert DepthFirst.Copies(a, 1) == DepthFirst.Copies(a, 0) + [a] == [a];
      assert DepthFirst.Copies(a, 2) == DepthFirst.Copies(a, 1) + [a];
      assert |g0.vals[a].edges.keys| == 2 && [] + DepthFirst.Copies(a, 2) == [a, a];
      DepthFirst.LogNext(g0, [], [], a, [a], [a, a]);
    }
    assert DepthFirst.LogOf(g0, [a, c]) == [a, a] by {
      assert |g0.vals[c].edges.keys| == 0 && [a, a] + DepthFirst.Copies(c, 0) == [a, a];
      DepthFirst.LogNext(g0, [a], [a, a], c, [a, c], [a, a]);
    }
    assert DepthFirst.LogOf(g0, [a, c, b]) == [a, a] by {
      assert |g0.vals[b].edges.keys| == 0 && [a, a] + DepthFirst.Copies(b, 0) == [a, a];
      DepthFirst.LogNext(g0, [a, c], [a, a], b, [a, c, b], [a, a]);
    }
  }

  /** A source with out-neighbours `b` and `c` (in that order) and no
      further edges: `c`, pushed last, is popped first. */
  lemma DfsForkOrder(g0: AdjList, M0: set<string>, a: string, b: string, c: string, pops: seq<string>)
    requires a in g0.vals && b in g0.vals && c in g0.vals
    requires g0.vals[a].edges.keys == [b, c] && g0.vals[b].edges.keys == [] && g0.vals[c].edges.keys == []
    requires a != b && a != c && b != c
    requires a in M0 && b !in M0 && c !in M0
    requires Replay(g0, M0, [a], pops, true) == Some([])
    ensures pops == [a, c, b] && DepthFirst.LogOf(g0, pops) == [a, a]
  {
    DfsFork1(g0, M0, a, b, c);
    DfsFork2(g0, M0, a, b, c);
    DfsFork3(g0, M0, a, b, c);
    DfsForkLog(g0, a, b, c);
    ReplayUnique(g0, M0, [a], pops, [a, c, b], true);
  }

  /** The first pop of `DfsChainOrder`. */
  lemma DfsChain1(g0: AdjList, M0: set<string>, a: string, b: string, c: string)
    requires a in g0.vals && b in g0.vals && c in g0.vals
    requires g0.vals[a].edges.keys == [b] && g0.vals[b].edges.keys == [c] && g0.vals[c].edges.keys == []
    requires a != b && a != c && b != c
    requires a in M0 && b !in M0 && c !in M0
    ensures Replay(g0, M0, [a], [a], true) == Some([b])
  {
    UnmarkedKeep([b], 1, M0, []);
    ReplayNext(g0, M0, [a], [], [a], a, [b], [a], [b], true);
  }

  /** The second pop of `DfsChainOrder`. */
  lemma DfsChain2(g0: AdjList, M0: set<string>, a: string, b: string, c: string)
    requires a in g0.vals && b in g0.vals && c in g0.vals
    requires g0.vals[a].edges.keys == [b] && g0.vals[b].edges.keys == [c] && g0.vals[c].edges.keys == []
    requires a != b && a != c && b != c
    requires a in M0 && b !in M0 && c !in M0
    requires Replay(g0, M0, [a], [a], true) == Some([b])
    ensures Replay(g0, M0, [a], [a, b], true) == Some([c])
  {
    UnmarkedKeep([c], 1, M0, [a]);
    ReplayNext(g0, M0, [a], [a], [b], b, [c], [a, b], [c], true);
  }

  /** The third pop of `DfsChainOrder`. */
  lemma DfsChain3(g0: AdjList, M0: set<string>, a: string, b: string, c: string)
    requires a in g0.vals && b in g0.vals && c in g0.vals
    requires g0.vals[a].edges.keys == [b] && g0.vals[b].edges.keys == [c] && g0.vals[c].edges.keys == []
    requires a != b && a != c && b != c
    requires a in M0 && b !in M0 && c !in M0
    requires Replay(g0, M0, [a], [a, b], true) == Some([c])
    ensures Replay(g0, M0, [a], [a, b, c], true) == Some([])
  {
    ReplayNext(g0, M0, [a], [a, b], [c], c, [], [a, b, c], [], true);
  }

  /** The log of `DfsChainOrder`. */
  lemma DfsChainLog(g0: AdjList, a: string, b: string, c: string)
    requires a in g0.vals && b in g0.vals && c in g0.vals
    requires g0.vals[a].edges.keys == [b] && g0.vals[b].edges.keys == [c] && g0.vals[c].edges.keys == []
    ensures DepthFirst.LogOf(g0, [a, b, c]) == [a, b]
  {
    assert DepthFirst.LogOf(g0, [a]) == [a] by {
      assert DepthFirst.Copies(a, 1) == DepthFirst.Copies(a, 0) + [a] == [a];
      assert |g0.vals[a].edges.keys| == 1 && [] + DepthFirst.Copies(a, 1) == [a];
      DepthFirst.LogNext(g0, [], [], a, [a], [a]);
    }
    assert DepthFirst.LogOf(g0, [a, b]) == [a, b] by {
      assert DepthFirst.Copies(b, 1) == DepthFirst.Copies(b, 0) + [b] == [b];
      assert |g0.vals[b].edges.keys| == 1 && [a] + DepthFirst.Copies(b, 1) == [a, b];
      DepthFirst.LogNext(g0, [a], [a], b, [a, b], [a, b]);
    }
    assert DepthFirst.LogOf(g0, [a, b, c]) == [a, b] by {
      assert |g0.vals[c].edges.keys| == 0 && [a, b] + DepthFirst.Copies(c, 0) == [a, b];
      DepthFirst.LogNext(g0, [a, b], [a, b], c, [a, b, c], [a, b]);
    }
  }

  /** A chain `a` to `b` to `c`: the vertices are popped along it. */
  lemma DfsChainOrder(g0: AdjList, M0: set<string>, a: string, b: string, c: string, pops: seq<string>)
    requires a in g0.vals && b in g0.vals && c in g0.vals
    requires g0.vals[a].edges.keys == [b] && g0.vals[b].edges.keys == [c] && g0.vals[c].edges.keys == []
    requires a != b && a != c && b != c
    requires a in M0 && b !in M0 && c !in M0
    requires Replay(g0, M0, [a], pops, true) == Some([])
    ensures pops == [a, b, c] && DepthFirst.LogOf(g0, pops) == [a, b]
  {
    DfsChain1(g0, M0, a, b, c);
    DfsChain2(g0, M0, a, b, c);
    DfsChain3(g0, M0, a, b, c);
    DfsChainLog(g0, a, b, c);
    ReplayUnique(g0, M0, [a], pops, [a, b, c], true);
  }

  /** The first pop of `DfsRepopOrder`. */
  lemma DfsRepop1(g0: AdjList, M0: set<string>, a: string, b: string, c: string)
    requires a in g0.vals && b in g0.vals && c in g0.vals
    requires g0.vals[a].edges.keys == [b, c] && g0.vals[b].edges.keys == [a] && g0.vals[c].edges.keys == [b]
    requires a != b && a != c && b != c
    requires a in M0 && b !in M0 && c !in M0
    ensures Replay(g0, M0, [a], [a], true) == Some([b, c])
  {
    UnmarkedKeep([b, c], 2, M0, []);
    ReplayNext(g0, M0, [a], [], [a], a, [b, c], [a], [b, c], true);
  }

  /** The second pop of `DfsRepopOrder`. */
  lemma DfsRepop2(g0: AdjList, M0: set<string>, a: string, b: string, c: string)
    requires a in g0.vals && b in g0.vals && c in g0.vals
    requires g0.vals[a].edges.keys == [b, c] && g0.vals[b].edges.keys == [a] && g0.vals[c].edges.keys == [b]
    requires a != b && a != c && b != c
    requires a in M0 && b !in M0 && c !in M0
    requires Replay(g0, M0, [a], [a], true) == Some([b, c])
    ensures Replay(g0, M0, [a], [a, c], true) == Some([b, b])
  {
    UnmarkedKeep([b], 1, M0, [a]);
    ReplayNext(g0, M0, [a], [a], [b, c], c, [b], [a, c], [b, b], true);
  }

  /** The third pop of `DfsRepopOrder`. */
  lemma DfsRepop3(g0: AdjList, M0: set<string>, a: string, b: string, c: string)
    requires a in g0.vals && b in g0.vals && c in g0.vals
    requires g0.vals[a].edges.keys == [b, c] && g0.vals[b].edges.keys == [a] && g0.vals[c].edges.keys == [b]
    requires a != b && a != c && b != c
    requires a in M0 && b !in M0 && c !in M0
    requires Replay(g0, M0, [a], [a, c], true) == Some([b, b])
    ensures Replay(g0, M0, [a], [a, c, b], true) == Some([b])
  {
    UnmarkedDrop([a], 1, M0, [a, c]);
    ReplayNext(g0, M0, [a], [a, c], [b, b], b, [a], [a, c, b], [b], true);
  }

  /** The fourth pop of `DfsRepopOrder`. */
  lemma DfsRepop4(g0: AdjList, M0: set<string>, a: string, b: string, c: string)
    requires a in g0.vals && b in g0.vals && c in g0.vals
    requires g0.vals[a].edges.keys == [b, c] && g0.vals[b].edges.keys == [a] && g0.vals[c].edges.keys == [b]
    requires a != b && a != c && b != c
    requires a in M0 && b !in M0 && c !in M0
    requires Replay(g0, M0, [a], [a, c, b], true) == Some([b])
    ensures Replay(g0, M0, [a], [a, c, b, b], true) == Some([])
  {
    UnmarkedDrop([a], 1, M0, [a, c, b]);
    ReplayNext(g0, M0, [a], [a, c, b], [b], b, [a], [a, c, b, b], [], true);
  }

  /** The log of `DfsRepopOrder`. */
  lemma DfsRepopLog(g0: AdjList, a: string, b: string, c: string)
    requires a in g0.vals && b in g0.vals && c in g0.vals
    requires g0.vals[a].edges.keys == [b, c] && g0.vals[b].edges.keys == [a] && g0.vals[c].edges.keys == [b]
    ensures DepthFirst.LogOf(g0, [a, c, b, b]) == [a, a, c, b, b]
  {
    assert DepthFirst.LogOf(g0, [a]) == [a, a] by {
      assert DepthFirst.Copies(a, 1) == DepthFirst.Copies(a, 0) + [a] == [a];
      assert DepthFirst.Copies(a, 2) == DepthFirst.Copies(a, 1) + [a];
      assert |g0.vals[a].edges.keys| == 2 && [] + DepthFirst.Copies(a, 2) == [a, a];
      DepthFirst.LogNext(g0, [], [], a, [a], [a, a]);
    }
    assert DepthFirst.LogOf(g0, [a, c]) == [a, a, c] by {
      assert DepthFirst.Copies(c, 1) == DepthFirst.Copies(c, 0) + [c] == [c];
      assert |g0.vals[c].edges.keys| == 1 && [a, a] + DepthFirst.Copies(c, 1) == [a, a, c];
      DepthFirst.LogNext(g0, [a], [a, a], c, [a, c], [a, a, c]);
    }
    assert DepthFirst.LogOf(g0, [a, c, b]) == [a, a, c, b] by {
      assert DepthFirst.Copies(b, 1) == DepthFirst.Copies(b, 0) + [b] == [b];
      assert |g0.vals[b].edges.keys| == 1 && [a, a, c] + DepthFirst.Copies(b, 1) == [a, a, c, b];
      DepthFirst.LogNext(g0, [a, c], [a, a, c], b, [a, c, b], [a, a, c, b]);
    }
    assert DepthFirst.LogOf(g0, [a, c, b, b]) == [a, a, c, b, b] by {
      assert DepthFirst.Copies(b, 1) == DepthFirst.Copies(b, 0) + [b] == [b];
      assert |g0.vals[b].edges.keys| == 1 && [a, a, c, b] + DepthFirst.Copies(b, 1) == [a, a, c, b, b];
      DepthFirst.LogNext(g0, [a, c, b], [a, a, c, b], b, [a, c, b, b], [a, a, c, b, b]);
    }
  }

  /** `a` to `b` and `c`, `c` to `b`, `b` back to `a`: `b` is pushed twice,
      since pushing does not mark it, and so popped twice, and its out-edge is
      examined both times. */
  lemma DfsRepopOrder(g0: AdjList, M0: set<string>, a: string, b: string, c: string, pops: seq<string>)
    requires a in g0.vals && b in g0.vals && c in g0.vals
    requires g0.vals[a].edges.keys == [b, c] && g0.vals[b].edges.keys == [a] && g0.vals[c].edges.keys == [b]
    requires a != b && a != c && b != c
    requires a in M0 && b !in M0 && c !in M0
    requires Replay(g0, M0, [a], pops, true) == Some([])
    ensures pops == [a, c, b, b] && DepthFirst.LogOf(g0, pops) == [a, a, c, b, b]
  {
    DfsRepop1(g0, M0, a, b, c);
    DfsRepop2(g0, M0, a, b, c);
    DfsRepop3(g0, M0, a, b, c);
    DfsRepop4(g0, M0, a, b, c);
    DfsRepopLog(g0, a, b, c);
    ReplayUnique(g0, M0, [a], pops, [a, c, b, b], true);
  }

  // Breadth-first.

  /** The first dequeue of `BfsForkOrder`. */
  lemma BfsFork1(g0: AdjList, M0: set<string>, a: string, b: string, c: string)
    requires a in g0.vals && b in g0.vals && c in g0.vals
    requires g0.vals[a].edges.keys == [b, c] && g0.vals[b].edges.keys == [] && g0.vals[c].edges.keys == []
    requires a != b && a != c && b != c
    requires a in M0 && b !in M0 && c !in M0
    ensures Replay(g0, M0, [a], [a], false) == Some([b, c]) && BreadthFirst.BluesOf(g0, M0, [a], [a]) == {b}
  {
    UnmarkedKeep([b, c], 2, M0, []);
    BreadthFirst.ServeNext(g0, M0, [a], [], [a], {}, a, [b, c], [b, c], [a], [b, c], {b});
  }

  /** The second dequeue of `BfsForkOrder`. */
  lemma BfsFork2(g0: AdjList, M0: set<string>, a: string, b: string, c: string)
    requires a in g0.vals && b in g0.vals && c in g0.vals
    requires g0.vals[a].edges.keys == [b, c] && g0.vals[b].edges.keys == [] && g0.vals[c].edges.keys == []
    requires a != b && a != c && b != c
    requires a in M0 && b !in M0 && c !in M0
    requires Replay(g0, M0, [a], [a], false) == Some([b, c]) && BreadthFirst.BluesOf(g0, M0, [a], [a]) == {b}
    ensures Replay(g0, M0, [a], [a, b], false) == Some([c]) && BreadthFirst.BluesOf(g0, M0, [a], [a, b]) == {b}
  {
    BreadthFirst.ServeNext(g0, M0, [a], [a], [b, c], {b}, b, [], [], [a, b], [c], {b});
  }

  /** The third dequeue of `BfsForkOrder`. */
  lemma BfsFork3(g0: AdjList, M0: set<string>, a: string, b: string, c: string)
    requires a in g0.vals && b in g0.vals && c in g0.vals
    requires g0.vals[a].edges.keys == [b, c] && g0.vals[b].edges.keys == [] && g0.vals[c].edges.keys == []
    requires a != b && a != c && b != c
    requires a in M0 && b !in M0 && c !in M0
    requires Replay(g0, M0, [a], [a, b], false) == Some([c]) && BreadthFirst.BluesOf(g0, M0, [a], [a, b]) == {b}
    ensures Replay(g0, M0, [a], [a, b, c], false) == Some([]) && BreadthFirst.BluesOf(g0, M0, [a], [a, b, c]) == {b}
  {
    BreadthFirst.ServeNext(g0, M0, [a], [a, b], [c], {b}, c, [], [], [a, b, c], [], {b});
  }

  /** The log of `BfsForkOrder`. */
  lemma BfsForkLog(g0: AdjList, a: string, b: string, c: string)
    requires a in g0.vals && b in g0.vals && c in g0.vals
    requires g0.vals[a].edges.keys == [b, c] && g0.vals[b].edges.keys == [] && g0.vals[c].edges.keys == []
    ensures BreadthFirst.LogOf(g0, [a, b, c]) == [a, b, c, b, c]
  {
    assert BreadthFirst.LogOf(g0, [a]) == [a, b, c] by {
      BreadthFirst.LogNext(g0, [], [], a, [a], [a, b, c]);
    }
    assert BreadthFirst.LogOf(g0, [a, b]) == [a, b, c, b] by {
      BreadthFirst.LogNext(g0, [a], [a, b, c], b, [a, b], [a, b, c, b]);
    }
    assert BreadthFirst.LogOf(g0, [a, b, c]) == [a, b, c, b, c] by {
      BreadthFirst.LogNext(g0, [a, b], [a, b, c, b], c, [a, b, c], [a, b, c, b, c]);
    }
  }

  /** A source with out-neighbours `b` and `c` (in that order): they are
      dequeued in that order, every examined edge is logged, and only `b`,
      the queue's front after `a`'s edges, gets a blue border. */
  lemma BfsForkOrder(g0: AdjList, M0: set<string>, a: string, b: string, c: string, pops: seq<string>)
    requires a in g0.vals && b in g0.vals && c in g0.vals
    requires g0.vals[a].edges.keys == [b, c] && g0.vals[b].edges.keys == [] && g0.vals[c].edges.keys == []
    requires a != b && a != c && b != c
    requires a in M0 && b !in M0 && c !in M0
    requires Replay(g0, M0, [a], pops, false) == Some([])
    ensures pops == [a, b, c] && BreadthFirst.LogOf(g0, pops) == [a, b, c, b, c]
    ensures BreadthFirst.BluesOf(g0, M0, [a], pops) == {b}
  {
    BfsFork1(g0, M0, a, b, c);
    BfsFork2(g0, M0, a, b, c);
    BfsFork3(g0, M0, a, b, c);
    BfsForkLog(g0, a, b, c);
    ReplayUnique(g0, M0, [a], pops, [a, b, c], false);
  }

  /** The first dequeue of `BfsTwiceOrder`. */
  lemma BfsTwice1(g0: AdjList, M0: set<string>, a: string, b: string, c: string)
    requires a in g0.vals && b in g0.vals && c in g0.vals
    requires g0.vals[a].edges.keys == [b, c] && g0.vals[b].edges.keys == [c] && g0.vals[c].edges.keys == []
    requires a != b && a != c && b != c
    requires a in M0 && b !in M0 && c !in M0
    ensures Replay(g0, M0, [a], [a], false) == Some([b, c]) && BreadthFirst.BluesOf(g0, M0, [a], [a]) == {b}
  {
    UnmarkedKeep([b, c], 2, M0, []);
    BreadthFirst.ServeNext(g0, M0, [a], [], [a], {}, a, [b, c], [b, c], [a], [b, c], {b});
  }

  /** The second dequeue of `BfsTwiceOrder`. */
  lemma BfsTwice2(g0: AdjList, M0: set<string>, a: string, b: string, c: string)
    requires a in g0.vals && b in g0.vals && c in g0.vals
    requires g0.vals[a].edges.keys == [b, c] && g0.vals[b].edges.keys == [c] && g0.vals[c].edges.keys == []
    requires a != b && a != c && b != c
    requires a in M0 && b !in M0 && c !in M0
    requires Replay(g0, M0, [a], [a], false) == Some([b, c]) && BreadthFirst.BluesOf(g0, M0, [a], [a]) == {b}
    ensures Replay(g0, M0, [a], [a, b], false) == Some([c, c]) && BreadthFirst.BluesOf(g0, M0, [a], [a, b]) == {b, c}
  {
    UnmarkedKeep([c], 1, M0, [a]);
    BreadthFirst.ServeNext(g0, M0, [a], [a], [b, c], {b}, b, [c], [c], [a, b], [c, c], {b, c});
  }

  /** The third dequeue of `BfsTwiceOrder`. */
  lemma BfsTwice3(g0: AdjList, M0: set<string>, a: string, b: string, c: string)
    requires a in g0.vals && b in g0.vals && c in g0.vals
    requires g0.vals[a].edges.keys == [b, c] && g0.vals[b].edges.keys == [c] && g0.vals[c].edges.keys == []
    requires a != b && a != c && b != c
    requires a in M0 && b !in M0 && c !in M0
    requires Replay(g0, M0, [a], [a, b], false) == Some([c, c]) && BreadthFirst.BluesOf(g0, M0, [a], [a, b]) == {b, c}
    ensures Replay(g0, M0, [a], [a, b, c], false) == Some([c]) && BreadthFirst.BluesOf(g0, M0, [a], [a, b, c]) == {b, c}
  {
    BreadthFirst.ServeNext(g0, M0, [a], [a, b], [c, c], {b, c}, c, [], [], [a, b, c], [c], {b, c});
  }

  /** The fourth dequeue of `BfsTwiceOrder`. */
  lemma BfsTwice4(g0: AdjList, M0: set<string>, a: string, b: string, c: string)
    requires a in g0.vals && b in g0.vals && c in g0.vals
    requires g0.vals[a].edges.keys == [b, c] && g0.vals[b].edges.keys == [c] && g0.vals[c].edges.keys == []
    requires a != b && a != c && b != c
    requires a in M0 && b !in M0 && c !in M0
    requires Replay(g0, M0, [a], [a, b, c], false) == Some([c]) && BreadthFirst.BluesOf(g0, M0, [a], [a, b, c]) == {b, c}
    ensures Replay(g0, M0, [a], [a, b, c, c], false) == Some([]) && BreadthFirst.BluesOf(g0, M0, [a], [a, b, c, c]) == {b, c}
  {
    BreadthFirst.ServeNext(g0, M0, [a], [a, b, c], [c], {b, c}, c, [], [], [a, b, c, c], [], {b, c});
  }

  /** The log of `BfsTwiceOrder`. */
  lemma BfsTwiceLog(g0: AdjList, a: string, b: string, c: string)
    requires a in g0.vals && b in g0.vals && c in g0.vals
    requires g0.vals[a].edges.keys == [b, c] && g0.vals[b].edges.keys == [c] && g0.vals[c].edges.keys == []
    ensures BreadthFirst.LogOf(g0, [a, b, c, c]) == [a, b, c, b, c, c, c]
  {
    assert BreadthFirst.LogOf(g0, [a]) == [a, b, c] by {
      BreadthFirst.LogNext(g0, [], [], a, [a], [a, b, c]);
    }
    assert BreadthFirst.LogOf(g0, [a, b]) == [a, b, c, b, c] by {
      BreadthFirst.LogNext(g0, [a], [a, b, c], b, [a, b], [a, b, c, b, c]);
    }
    assert BreadthFirst.LogOf(g0, [a, b, c]) == [a, b, c, b, c, c] by {
      BreadthFirst.LogNext(g0, [a, b], [a, b, c, b, c], c, [a, b, c], [a, b, c, b, c, c]);
    }
    assert BreadthFirst.LogOf(g0, [a, b, c, c]) == [a, b, c, b, c, c, c] by {
      BreadthFirst.LogNext(g0, [a, b, c], [a, b, c, b, c, c], c, [a, b, c, c], [a, b, c, b, c, c, c]);
    }
  }

  /** `a` to `b` and `c`, `b` to `c`: enqueueing does not mark, so `c` is
      enqueued again from `b`, dequeued twice and logged each time. */
  lemma BfsTwiceOrder(g0: AdjList, M0: set<string>, a: string, b: string, c: string, pops: seq<string>)
    requires a in g0.vals && b in g0.vals && c in g0.vals
    requires g0.vals[a].edges.keys == [b, c] && g0.vals[b].edges.keys == [c] && g0.vals[c].edges.keys == []
    requires a != b && a != c && b != c
    requires a in M0 && b !in M0 && c !in M0
    requires Replay(g0, M0, [a], pops, false) == Some([])
    ensures pops == [a, b, c, c] && BreadthFirst.LogOf(g0, pops) == [a, b, c, b, c, c, c]
    ensures BreadthFirst.BluesOf(g0, M0, [a], pops) == {b, c}
  {
    BfsTwice1(g0, M0, a, b, c);
    BfsTwice2(g0, M0, a, b, c);
    BfsTwice3(g0, M0, a, b, c);
    BfsTwice4(g0, M0, a, b, c);
    BfsTwiceLog(g0, a, b, c);
    ReplayUnique(g0, M0, [a], pops, [a, b, c, c], false);
  }

  // The older searches.

  /** The first dequeue of `LegacyBfsForkOrder`: both neighbours are
      queued, and `b`, the front after each, gets the blue border. */
  lemma LegacyBfsFork1(g0: AdjList, a: string, b: string, c: string)
    requires a in g0.vals && g0.vals[a].edges.keys == [b, c]
    ensures LegacySearch.QueueAfter(g0, [a], [a]) == Some([b, c])
    ensures LegacySearch.BordersAfter(g0, [a], [a]) == {b}
  {
    assert [] + [a] == [a] && [a][1..] + [b, c] == [b, c];
    assert LegacySearch.QueueAfter(g0, [a], []) == Some([a]);
    LegacySearch.QueueNext(g0, [a], [], [a], a);
  }

  /** The second dequeue of `LegacyBfsForkOrder`. */
  lemma LegacyBfsFork2(g0: AdjList, a: string, b: string, c: string)
    requires b in g0.vals && g0.vals[b].edges.keys == []
    requires LegacySearch.QueueAfter(g0, [a], [a]) == Some([b, c])
    requires LegacySearch.BordersAfter(g0, [a], [a]) == {b}
    ensures LegacySearch.QueueAfter(g0, [a], [a, b]) == Some([c])
    ensures LegacySearch.BordersAfter(g0, [a], [a, b]) == {b}
  {
    assert [a] + [b] == [a, b] && [b, c][1..] + [] == [c];
    LegacySearch.QueueNext(g0, [a], [a], [b, c], b);
  }

  /** The third dequeue of `LegacyBfsForkOrder`. */
  lemma LegacyBfsFork3(g0: AdjList, a: string, b: string, c: string)
    requires c in g0.vals && g0.vals[c].edges.keys == []
    requires LegacySearch.QueueAfter(g0, [a], [a, b]) == Some([c])
    requires LegacySearch.BordersAfter(g0, [a], [a, b]) == {b}
    ensures LegacySearch.QueueAfter(g0, [a], [a, b, c]) == Some([])
    ensures LegacySearch.BordersAfter(g0, [a], [a, b, c]) == {b}
  {
    assert [a, b] + [c] == [a, b, c] && [c][1..] + [] == [];
    LegacySearch.QueueNext(g0, [a], [a, b], [c], c);
  }

  /** `bfs` on the fork: the dequeues are `a`, `b`, `c`, and only `b` gets
      a blue border, since it stays the front while `c` is queued behind
      it; the source's own border is never painted. */
  lemma LegacyBfsForkOrder(g0: AdjList, a: string, b: string, c: string, pops: seq<string>)
    requires a in g0.vals && b in g0.vals && c in g0.vals
    requires g0.vals[a].edges.keys == [b, c] && g0.vals[b].edges.keys == [] && g0.vals[c].edges.keys == []
    requires LegacySearch.QueueAfter(g0, [a], pops) == Some([])
    ensures pops == [a, b, c] && LegacySearch.BordersAfter(g0, [a], pops) == {b}
  {
    LegacyBfsFork1(g0, a, b, c);
    LegacyBfsFork2(g0, a, b, c);
    LegacyBfsFork3(g0, a, b, c);
    LegacySearch.QueueUnique(g0, [a], pops, [a, b, c]);
  }

  /** Visiting `a` marks it and no other vertex of unmarked records. */
  lemma LegacyForkMarks(tails0: LegacySearch.Tails, a: string, b: string, c: string)
    requires a != b && a != c
    requires a in tails0 && b in tails0 && c in tails0 && LegacySearch.Unmarked(tails0)
    ensures a in LegacySearch.MarksAt(LegacySearch.Visit(tails0, a))
    ensures b !in LegacySearch.MarksAt(LegacySearch.Visit(tails0, a))
    ensures c !in LegacySearch.MarksAt(LegacySearch.Visit(tails0, a))
  {
  }

  /** The pops `a, c, b` of the fork push `b` and `c`, both at `a`. */
  lemma LegacyDfsForkPushed(g0: AdjList, M0: set<string>, a: string, b: string, c: string)
    requires a in g0.vals && b in g0.vals && c in g0.vals
    requires g0.vals[a].edges.keys == [b, c] && g0.vals[b].edges.keys == [] && g0.vals[c].edges.keys == []
    requires b !in M0 && c !in M0
    ensures LegacySearch.PushedOf(g0, M0, [a, c, b]) == {b, c}
  {
    UnmarkedKeep([b, c], 2, M0, []);
    assert [a, c, b][..2] == [a, c] && [a, c][..1] == [a] && [a][..0] == [];
    assert LegacySearch.PushedOf(g0, M0, [a]) == {b, c} by {
      assert LegacySearch.Elems([b, c]) == {b, c};
    }
  }

  /** `dfs` on the fork from unmarked records: `c`, pushed last, is popped
      first, and both neighbours get a blue border. */
  lemma LegacyDfsForkOrder(g0: AdjList, tails0: LegacySearch.Tails, a: string, b: string, c: string,
                           pops: seq<string>)
    requires a in g0.vals && b in g0.vals && c in g0.vals
    requires g0.vals[a].edges.keys == [b, c] && g0.vals[b].edges.keys == [] && g0.vals[c].edges.keys == []
    requires a != b && a != c && b != c
    requires a in tails0 && b in tails0 && c in tails0 && LegacySearch.Unmarked(tails0)
    requires Replay(g0, LegacySearch.MarksAt(LegacySearch.Visit(tails0, a)), [a], pops, true) == Some([])
    ensures pops == [a, c, b]
    ensures LegacySearch.PushedOf(g0, LegacySearch.MarksAt(LegacySearch.Visit(tails0, a)), pops) == {b, c}
  {
    LegacyForkMarks(tails0, a, b, c);
    DfsForkOrder(g0, LegacySearch.MarksAt(LegacySearch.Visit(tails0, a)), a, b, c, pops);
    LegacyDfsForkPushed(g0, LegacySearch.MarksAt(LegacySearch.Visit(tails0, a)), a, b, c);
  }
}
