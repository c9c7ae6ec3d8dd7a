/** The older breadth- and depth-first searches of src/algorithms/bfs.js and
    src/algorithms/dfs.js, without their pauses and redraws.

    They were written for four-slot records `[edges, x, y, style]`: a
    vertex's state is not a slot of its own but the strings pushed onto the
    record after its style. The source gets "visited" pushed; a vertex
    leaving the worklist gets "explored" pushed when its record still has
    four slots, and written over its last element otherwise. The model holds
    the first four slots in an `AdjList` (whose `state` and `setTag` fields
    these searches never read or write) and the pushed strings in `tails`.
    The records src/graph.js builds have three slots, not four; on those the
    source's "visited" lands where the style should be and the first write
    to a neighbour's style throws, which this model does not follow.
    The global graph `g` the source redraws through is left out; the graph
    searched is the one passed in. */
module LegacySearch {
  import opened Values
  import opened Adjacency
  import opened Paths
  import opened Traversal
  import Fifo
  import BreadthFirst

  /** Vertex name to the strings pushed onto its record after the style. */
  type Tails = map<string, seq<string>>

  /** How a search call ends: with what it throws, with an empty worklist,
      or still running when the model stops counting rounds. */
  datatype Run = Threw(message: string) | Finished | Running

  /** `info[info.length - 1] === s`. A record with nothing pushed ends with
      its style object, which equals no string. */
  predicate EndsWith(t: seq<string>, s: string)
  {
    t != [] && t[|t| - 1] == s
  }

  /** The test dfs.js makes before pushing a neighbour: its record ends
      with "visited" or "explored". */
  predicate EndsMarked(t: seq<string>)
  {
    EndsWith(t, "visited") || EndsWith(t, "explored")
  }

  /** The tail once the vertex is marked "explored": pushed onto a
      four-slot record, written over the last element of a longer one. */
  function Explore(t: seq<string>): (r: seq<string>)
    ensures EndsWith(r, "explored")
  {
    if t == [] then ["explored"] else t[..|t| - 1] + ["explored"]
  }

  /** Marking twice is marking once; on the source, "explored" takes the
      place of "visited". */
  lemma ExploreFacts(t: seq<string>)
    ensures Explore(Explore(t)) == Explore(t)
    ensures Explore(t + ["visited"]) == t + ["explored"]
    ensures t != [] ==> |Explore(t)| == |t| && Explore(t)[..|t| - 1] == t[..|t| - 1]
  {
    assert (t + ["visited"])[..|t|] == t;
  }

  /** The tails after the source's record gets "visited" pushed. */
  function Visit(tails: Tails, source: string): (r: Tails)
    requires source in tails
    ensures r.Keys == tails.Keys && r[source] == tails[source] + ["visited"] && EndsWith(r[source], "visited")
    ensures forall u :: u in tails && u != source ==> r[u] == tails[u]
  {
    tails[source := tails[source] + ["visited"]]
  }

  /** No record ends with a mark yet, as on a graph no search has run on. */
  ghost predicate Unmarked(tails: Tails)
  {
    forall u :: u in tails ==> !EndsWith(tails[u], "visited") && !EndsWith(tails[u], "explored")
  }

  /** The records of `g` with the given styles. */
  function Restyled(g: AdjList, styles: map<string, Style>): (h: AdjList)
    requires styles.Keys == g.vals.Keys
    ensures h.keys == g.keys && h.vals.Keys == g.vals.Keys
    ensures forall u :: u in g.vals ==> h.vals[u] == g.vals[u].(style := styles[u])
  {
    OrderedMap(g.keys, map u | u in g.vals :: g.vals[u].(style := styles[u]))
  }

  /** A style after the searches' writes to it: `edgeColor` set to `edge`
      when there is one, `vertexBorderColor` "blue" if `blue`. The two
      properties differ, so the order of the writes does not matter. */
  function Paint(s: Style, edge: Option<string>, blue: bool): Style
  {
    var s1 := if edge.Some? then s[EdgeColor := Str(edge.value)] else s;
    if blue then s1[BorderColor := Str("blue")] else s1
  }

  /** Painting touches only the two properties, and sets each one asked for. */
  lemma PaintFacts(s: Style, edge: Option<string>, blue: bool)
    ensures Paint(s, edge, blue) - {EdgeColor, BorderColor} == s - {EdgeColor, BorderColor}
    ensures edge.Some? ==> Holds(Paint(s, edge, blue), EdgeColor, Str(edge.value))
    ensures edge.None? ==> SameAt(s, Paint(s, edge, blue), EdgeColor)
    ensures blue ==> Holds(Paint(s, edge, blue), BorderColor, Str("blue"))
    ensures !blue ==> SameAt(s, Paint(s, edge, blue), BorderColor)
    ensures edge.None? && !blue ==> Paint(s, edge, blue) == s
  {
    assert EdgeColor != BorderColor;
  }

  /** A later write replaces the earlier one of the same property. */
  lemma PaintAgain(s: Style, edge: Option<string>, blue: bool, c: string)
    ensures Paint(s, edge, blue)[EdgeColor := Str(c)] == Paint(s, Some(c), blue)
    ensures Paint(s, edge, blue)[BorderColor := Str("blue")] == Paint(s, edge, true)
  {
    assert EdgeColor != BorderColor;
  }

  // ---------------------------------------------------------------------
  // The invariant parts both searches share. `R` is the set reachable from
  // the source, `t1` the tails right after the source's "visited", `W` the
  // worklist, `D` the vertices taken off it and done with, and `P` the
  // vertex whose neighbours are being examined, if any.

  /** Every vertex taken off the worklist is explored; no other tail changed. */
  ghost predicate TailsInv(g0: AdjList, t1: Tails, tails: Tails, D: set<string>)
  {
    && t1.Keys == g0.vals.Keys && tails.Keys == g0.vals.Keys
    && (forall u :: u in tails ==> tails[u] == if u in D then Explore(t1[u]) else t1[u])
  }

  /** The worklist holds reachable vertices, and the source is on it, done
      or being examined. */
  ghost predicate WorkInv(source: string, R: set<string>, W: seq<string>, D: set<string>, P: set<string>)
  {
    && (forall q :: q in W ==> q in R)
    && D <= R && P <= R
    && (source in D || source in W || source in P)
  }

  /** Every out-neighbour of a done vertex is done, on the worklist or
      being examined. */
  ghost predicate Fringe(g0: AdjList, W: seq<string>, D: set<string>, P: set<string>)
  {
    forall u, w :: u in D && Step(g0, u, w) ==> w in D || w in W || w in P
  }

  /** The entries of `s`. */
  function Elems(s: seq<string>): set<string>
  {
    set w | w in s
  }

  /** The tails once the vertices `pops` have left the worklist: each of
      them explored, every other one as it was after the source's
      "visited". */
  function TailsAfter(t1: Tails, pops: seq<string>): Tails
  {
    map u | u in t1 :: if u in pops then Explore(t1[u]) else t1[u]
  }

  /** The styles once the vertices `pops` have left the worklist:
      `edgeColor` set to `edge` on each of them, a blue border on the
      `blue` vertices, every other property as it was. */
  function Painted(g0: AdjList, edge: string, pops: seq<string>, blue: set<string>): (styles: map<string, Style>)
    ensures styles.Keys == g0.vals.Keys
  {
    map u | u in g0.vals :: Paint(g0.vals[u].style, if u in pops then Some(edge) else None, u in blue)
  }

  /** The done vertices are the pops: the tails are those the pops leave. */
  lemma TailsAre(g0: AdjList, t1: Tails, tails: Tails, D: set<string>, pops: seq<string>)
    requires TailsInv(g0, t1, tails, D) && forall u :: u in D <==> u in pops
    ensures tails == TailsAfter(t1, pops)
  {
  }

  /** A record ends with a mark exactly when it did after the source's
      "visited" or its vertex has been taken off the worklist. */
  lemma MarksOfTails(g0: AdjList, t1: Tails, tails: Tails, D: set<string>, pops: seq<string>, u: string)
    requires TailsInv(g0, t1, tails, D) && (forall q :: q in D <==> q in pops) && u in tails
    ensures EndsMarked(tails[u]) <==> EndsMarked(t1[u]) || u in pops
  {
  }

  lemma StartParts(g0: AdjList, source: string, R: set<string>, t1: Tails)
    requires source in R && t1.Keys == g0.vals.Keys
    ensures TailsInv(g0, t1, t1, {}) && WorkInv(source, R, [source], {}, {}) && Fringe(g0, [source], {}, {})
  {
  }

  /** Taking `v` off the worklist `W0`, leaving `W`. */
  lemma WorkTake(source: string, R: set<string>, W0: seq<string>, W: seq<string>, D: set<string>, v: string)
    requires WorkInv(source, R, W0, D, {}) && v in W0
    requires forall q :: q in W0 ==> q in W || q == v
    requires forall q :: q in W ==> q in W0
    ensures WorkInv(source, R, W, D, {v})
  {
  }

  lemma FringeTake(g0: AdjList, W0: seq<string>, W: seq<string>, D: set<string>, v: string)
    requires Fringe(g0, W0, D, {})
    requires forall q :: q in W0 ==> q in W || q == v
    ensures Fringe(g0, W, D, {v})
  {
  }

  /** Adding the reachable `w` to the worklist. */
  lemma WorkGrow(source: string, R: set<string>, W: seq<string>, D: set<string>, P: set<string>, w: string)
    requires WorkInv(source, R, W, D, P) && w in R
    ensures WorkInv(source, R, W + [w], D, P)
  {
  }

  lemma FringeGrow(g0: AdjList, W: seq<string>, D: set<string>, P: set<string>, w: string)
    requires Fringe(g0, W, D, P)
    ensures Fringe(g0, W + [w], D, P)
  {
  }

  /** `v` is done once every out-neighbour is done, on the worklist or `v`. */
  lemma TailsExplore(g0: AdjList, t1: Tails, tails: Tails, D: set<string>, v: string)
    requires TailsInv(g0, t1, tails, D) && v in tails
    ensures TailsInv(g0, t1, tails[v := Explore(tails[v])], D + {v})
  {
    ExploreFacts(t1[v]);
  }

  lemma WorkRelease(source: string, R: set<string>, W: seq<string>, D: set<string>, v: string)
    requires WorkInv(source, R, W, D, {v})
    ensures WorkInv(source, R, W, D + {v}, {})
  {
  }

  lemma FringeRelease(g0: AdjList, W: seq<string>, D: set<string>, v: string)
    requires Fringe(g0, W, D, {v})
    requires forall w :: Step(g0, v, w) ==> w in D || w in W || w == v
    ensures Fringe(g0, W, D + {v}, {})
  {
  }

  /** With an empty worklist, the done vertices are the reachable ones. */
  lemma DoneIsReachable(g0: AdjList, source: string, R: set<string>, D: set<string>)
    requires R == ReachFrom(g0, source)
    requires WorkInv(source, R, [], D, {}) && Fringe(g0, [], D, {})
    ensures D == R
  {
    assert ClosedUnder(g0, D) by {
      forall u, w | u in D && Step(g0, u, w)
        ensures w in D
      {
        assert w in D || w in [] || w in {};
      }
    }
    forall u | u in R
      ensures u in D
    {
      ClosedHoldsReachable(g0, D, source, u);
    }
  }

  // ---------------------------------------------------------------------
  // Breadth-first (src/algorithms/bfs.js)

  /** BFS's `edgeColor` sequence: "blue" while the vertex's neighbours are
      queued, "black" once it is done. */
  function BfsEdge(u: string, D: set<string>, P: set<string>): Option<string>
  {
    if u in P then Some("blue") else if u in D then Some("black") else None
  }

  /** Each style is the original one painted: the edge colour as
      `BfsEdge` says, a blue border on the `blue` vertices. */
  ghost predicate BfsStyles(g0: AdjList, R: set<string>, styles: map<string, Style>, D: set<string>,
                            P: set<string>, blue: set<string>)
  {
    && styles.Keys == g0.vals.Keys && blue <= R
    && (forall u :: u in styles ==> styles[u] == Paint(g0.vals[u].style, BfsEdge(u, D, P), u in blue))
  }

  /** If the source can reach a cycle, the queue or the vertex being
      examined can still reach one. */
  ghost predicate LiveInv(g0: AdjList, source: string, W: seq<string>, P: set<string>)
  {
    Live(g0, source) ==> exists q :: (q in W || q in P) && Live(g0, q)
  }

  ghost predicate BfsInv(g0: AdjList, source: string, R: set<string>, t1: Tails, Q: seq<string>,
                         tails: Tails, styles: map<string, Style>, D: set<string>, P: set<string>,
                         blue: set<string>)
  {
    && TailsInv(g0, t1, tails, D)
    && WorkInv(source, R, Q, D, P)
    && Fringe(g0, Q, D, P)
    && BfsStyles(g0, R, styles, D, P, blue)
    && LiveInv(g0, source, Q, P)
  }

  /** Every vertex's style before a search repaints any. */
  function StylesOf(g0: AdjList): map<string, Style> {
    map u | u in g0.vals :: g0.vals[u].style
  }

  /** The vertices whose record does not yet end with `explored`. */
  ghost function NotExplored(g0: AdjList, t1: Tails): set<string>
    requires g0.vals.Keys <= t1.Keys
  {
    set u | u in g0.vals && !EndsWith(t1[u], "explored")
  }

  lemma BfsStart(g0: AdjList, source: string, R: set<string>, t1: Tails, styles: map<string, Style>)
    requires source in R && R <= g0.vals.Keys && t1.Keys == g0.vals.Keys
    requires styles == StylesOf(g0)
    ensures BfsInv(g0, source, R, t1, [source], t1, styles, {}, {}, {})
  {
    StartParts(g0, source, R, t1);
    forall u | u in styles
      ensures styles[u] == Paint(g0.vals[u].style, BfsEdge(u, {}, {}), u in {})
    {
      PaintFacts(g0.vals[u].style, None, false);
    }
  }

  lemma BfsStylesTake(g0: AdjList, R: set<string>, styles: map<string, Style>, D: set<string>,
                      blue: set<string>, v: string)
    requires BfsStyles(g0, R, styles, D, {}, blue) && v in styles
    ensures BfsStyles(g0, R, styles[v := styles[v][EdgeColor := Str("blue")]], D, {v}, blue)
  {
    PaintAgain(g0.vals[v].style, BfsEdge(v, D, {}), v in blue, "blue");
  }

  lemma LiveTake(g0: AdjList, source: string, W0: seq<string>, W: seq<string>, v: string)
    requires LiveInv(g0, source, W0, {})
    requires forall q :: q in W0 ==> q in W || q == v
    ensures LiveInv(g0, source, W, {v})
  {
  }

  lemma BfsStylesBlue(g0: AdjList, R: set<string>, styles: map<string, Style>, D: set<string>,
                      P: set<string>, blue: set<string>, f: string)
    requires BfsStyles(g0, R, styles, D, P, blue) && f in styles && f in R
    ensures BfsStyles(g0, R, styles[f := styles[f][BorderColor := Str("blue")]], D, P, blue + {f})
  {
    PaintAgain(g0.vals[f].style, BfsEdge(f, D, P), f in blue, "blue");
  }

  lemma LiveGrow(g0: AdjList, source: string, W: seq<string>, P: set<string>, w: string)
    requires LiveInv(g0, source, W, P)
    ensures LiveInv(g0, source, W + [w], P)
  {
  }

  lemma BfsStylesRelease(g0: AdjList, R: set<string>, styles: map<string, Style>, D: set<string>,
                         blue: set<string>, v: string)
    requires BfsStyles(g0, R, styles, D, {v}, blue) && v in styles
    ensures BfsStyles(g0, R, styles[v := styles[v][EdgeColor := Str("black")]], D + {v}, {}, blue)
  {
    PaintAgain(g0.vals[v].style, BfsEdge(v, D, {v}), v in blue, "black");
  }

  /** Once all of `v`'s out-neighbours are queued, a cycle reachable from
      `v` is reachable from one of them. */
  lemma LiveRelease(g0: AdjList, source: string, W: seq<string>, v: string)
    requires LiveInv(g0, source, W, {v})
    requires forall w :: Step(g0, v, w) ==> w in W
    ensures LiveInv(g0, source, W, {})
  {
    if Live(g0, source) {
      var q :| (q in W || q in {v}) && Live(g0, q);
      if q == v {
        var w := LiveStep(g0, v);
        assert w in W && Live(g0, w);
      }
    }
  }

  /** The queue the dequeues `pops` leave, from `Q0`: each takes the front
      and appends every out-neighbour of that vertex, marked or not, in
      insertion order. `None` if some entry of `pops` is not the front at
      its turn. */
  ghost function QueueAfter(g0: AdjList, Q0: seq<string>, pops: seq<string>): Option<seq<string>>
    decreases |pops|
  {
    if pops == [] then Some(Q0)
    else
      var k := |pops| - 1;
      match QueueAfter(g0, Q0, pops[..k])
      case None => None
      case Some(Q) =>
        if Q != [] && Q[0] == pops[k] && pops[k] in g0.vals
        then Some(Q[1..] + g0.vals[pops[k]].edges.keys)
        else None
  }

  /** The vertices whose border the dequeues `pops` paint blue: after each
      enqueue, the front of the queue. */
  ghost function BordersAfter(g0: AdjList, Q0: seq<string>, pops: seq<string>): set<string>
    decreases |pops|
  {
    if pops == [] then {}
    else
      var k := |pops| - 1;
      var Q := QueueAfter(g0, Q0, pops[..k]);
      BordersAfter(g0, Q0, pops[..k])
        + (if Q.Some? && Q.value != [] && pops[k] in g0.vals
           then BreadthFirst.FrontBlue(Q.value[1..], g0.vals[pops[k]].edges.keys)
           else {})
  }

  /** One more dequeue, of the front `v` of the queue `Q` the dequeues
      `pops` leave. */
  lemma QueueNext(g0: AdjList, Q0: seq<string>, pops: seq<string>, Q: seq<string>, v: string)
    requires QueueAfter(g0, Q0, pops) == Some(Q) && Q != [] && Q[0] == v && v in g0.vals
    ensures QueueAfter(g0, Q0, pops + [v]) == Some(Q[1..] + g0.vals[v].edges.keys)
    ensures BordersAfter(g0, Q0, pops + [v])
         == BordersAfter(g0, Q0, pops) + BreadthFirst.FrontBlue(Q[1..], g0.vals[v].edges.keys)
  {
    assert (pops + [v])[..|pops|] == pops;
  }

  /** The prefixes of a replay that succeeds succeed. */
  lemma {:induction false} QueuePrefix(g0: AdjList, Q0: seq<string>, pops: seq<string>, j: nat)
    requires j <= |pops| && QueueAfter(g0, Q0, pops).Some?
    ensures QueueAfter(g0, Q0, pops[..j]).Some?
    decreases |pops|
  {
    if j < |pops| {
      var k := |pops| - 1;
      QueuePrefix(g0, Q0, pops[..k], j);
      assert pops[..k][..j] == pops[..j];
    } else {
      assert pops[..j] == pops;
    }
  }

  /** Each dequeue takes the front of the queue the dequeues before it
      leave. */
  lemma QueueFront(g0: AdjList, Q0: seq<string>, pops: seq<string>, j: nat)
    requires j < |pops| && QueueAfter(g0, Q0, pops).Some?
    ensures QueueAfter(g0, Q0, pops[..j]).Some? && QueueAfter(g0, Q0, pops[..j]).value != []
    ensures QueueAfter(g0, Q0, pops[..j]).value[0] == pops[j]
  {
    QueuePrefix(g0, Q0, pops, j + 1);
    assert pops[..j + 1][..j] == pops[..j];
  }

  /** Two replays that succeed agree on their common length. */
  lemma {:induction false} QueueSame(g0: AdjList, Q0: seq<string>, p: seq<string>, q: seq<string>, j: nat)
    requires QueueAfter(g0, Q0, p).Some? && QueueAfter(g0, Q0, q).Some?
    requires j <= |p| && j <= |q|
    ensures p[..j] == q[..j]
  {
    if j > 0 {
      QueueSame(g0, Q0, p, q, j - 1);
      QueueFront(g0, Q0, p, j - 1);
      QueueFront(g0, Q0, q, j - 1);
      PrefixExtend(p, q, j);
    }
  }

  /** Only one sequence of dequeues empties the queue. */
  lemma QueueUnique(g0: AdjList, Q0: seq<string>, p: seq<string>, q: seq<string>)
    requires QueueAfter(g0, Q0, p) == Some([]) && QueueAfter(g0, Q0, q) == Some([])
    ensures p == q
  {
    if |p| < |q| {
      QueueSame(g0, Q0, p, q, |p|);
      assert p[..|p|] == p;
      QueueFront(g0, Q0, q, |p|);
      assert false;
    } else if |q| < |p| {
      QueueSame(g0, Q0, p, q, |q|);
      assert q[..|q|] == q;
      QueueFront(g0, Q0, p, |q|);
      assert false;
    } else {
      QueueSame(g0, Q0, p, q, |p|);
      assert p[..|p|] == p && q[..|q|] == q;
    }
  }

  /** The queue, the done vertices and the blue borders are those of the
      dequeues `pops`. */
  ghost predicate BfsTrace(g0: AdjList, source: string, Q: seq<string>, D: set<string>, blue: set<string>,
                           pops: seq<string>)
  {
    && QueueAfter(g0, [source], pops) == Some(Q)
    && (forall u :: u in D <==> u in pops)
    && blue == BordersAfter(g0, [source], pops)
  }

  /** One more neighbour enqueued: the borders gain the new front. */
  lemma FrontStep(Q0: seq<string>, ns: seq<string>, i: nat, Q: seq<string>, blue0: set<string>, blue: set<string>)
    requires i < |ns| && Q == Q0 + ns[..i] && blue == blue0 + BreadthFirst.FrontBlue(Q0, ns[..i])
    ensures Q + [ns[i]] == Q0 + ns[..i + 1]
    ensures blue + {(Q + [ns[i]])[0]} == blue0 + BreadthFirst.FrontBlue(Q0, ns[..i + 1])
  {
    assert ns[..i + 1] == ns[..i] + [ns[i]];
    assert BreadthFirst.FrontBlue(Q0, ns[..i + 1]) == {(Q + [ns[i]])[0]};
    if i > 0 {
      assert (Q0 + ns[..i + 1])[0] == (Q0 + ns[..i])[0];
    }
  }

  /** `bfs(graph, source)` with an unconditional enqueue: every dequeue
      queues all out-neighbours again, whatever their marks. The model
      follows at most `fuel` rounds of the loop; a run still going then
      ends `Running`. If a cycle can be reached from the source, no number
      of rounds empties the queue. The ghost `pops` are the dequeued
      vertices in order: the queue is the one `QueueAfter` replays from
      them, the records are those they leave, and the styles are black on
      them and blue on the fronts `BordersAfter` collects. */
  method Bfs(g0: AdjList, tails0: Tails, source: string, fuel: nat)
    returns (g: AdjList, tails: Tails, r: Run, ghost pops: seq<string>)
    requires Closed(g0) && tails0.Keys == g0.vals.Keys
    ensures source !in g0.vals ==> r == Threw(BfsMissing(source)) && g == g0 && tails == tails0
    ensures source in g0.vals ==> !r.Threw?
    ensures g.keys == g0.keys && g.vals.Keys == g0.vals.Keys && tails.Keys == tails0.Keys
    ensures forall u :: u in g0.vals ==> g.vals[u] == g0.vals[u].(style := g.vals[u].style)
    ensures forall u :: u in g0.vals && !Reachable(g0, source, u) ==> g.vals[u] == g0.vals[u] && tails[u] == tails0[u]
    ensures source in g0.vals ==> forall u :: u in g0.vals ==>
      tails[u] == Visit(tails0, source)[u] || tails[u] == Explore(Visit(tails0, source)[u])
    ensures forall u :: u in g0.vals ==>
      && g.vals[u].style - {EdgeColor, BorderColor} == g0.vals[u].style - {EdgeColor, BorderColor}
      && (SameAt(g0.vals[u].style, g.vals[u].style, EdgeColor) || Holds(g.vals[u].style, EdgeColor, Str("black")))
      && (SameAt(g0.vals[u].style, g.vals[u].style, BorderColor) || Holds(g.vals[u].style, BorderColor, Str("blue")))
    ensures r == Finished ==> forall u :: u in g0.vals && Reachable(g0, source, u) ==>
      && tails[u] == Explore(Visit(tails0, source)[u])
      && Holds(g.vals[u].style, EdgeColor, Str("black"))
    ensures Live(g0, source) ==> r == Running
    ensures source in g0.vals ==>
      && |pops| <= fuel && QueueAfter(g0, [source], pops).Some?
      && (r == Finished <==> QueueAfter(g0, [source], pops).value == [])
      && (r == Running ==> |pops| == fuel)
      && tails == TailsAfter(Visit(tails0, source), pops)
      && g == Restyled(g0, Painted(g0, "black", pops, BordersAfter(g0, [source], pops)))
  {
    if source !in g0.vals {
      return g0, tails0, Threw(BfsMissing(source)), [];
    }
    var finished;
    g, tails, finished, pops := BfsFrom(g0, tails0, source, fuel);
    r := if finished then Finished else Running;
  }

  /** The search proper, from a source in the graph. */
  method BfsFrom(g0: AdjList, tails0: Tails, source: string, fuel: nat)
    returns (g: AdjList, tails: Tails, finished: bool, ghost pops: seq<string>)
    requires Closed(g0) && tails0.Keys == g0.vals.Keys && source in g0.vals
    ensures g.keys == g0.keys && g.vals.Keys == g0.vals.Keys && tails.Keys == tails0.Keys
    ensures forall u :: u in g0.vals ==> g.vals[u] == g0.vals[u].(style := g.vals[u].style)
    ensures forall u :: u in g0.vals && !Reachable(g0, source, u) ==> g.vals[u] == g0.vals[u] && tails[u] == tails0[u]
    ensures forall u :: u in g0.vals ==>
      tails[u] == Visit(tails0, source)[u] || tails[u] == Explore(Visit(tails0, source)[u])
    ensures forall u :: u in g0.vals ==>
      && g.vals[u].style - {EdgeColor, BorderColor} == g0.vals[u].style - {EdgeColor, BorderColor}
      && (SameAt(g0.vals[u].style, g.vals[u].style, EdgeColor) || Holds(g.vals[u].style, EdgeColor, Str("black")))
      && (SameAt(g0.vals[u].style, g.vals[u].style, BorderColor) || Holds(g.vals[u].style, BorderColor, Str("blue")))
    ensures finished ==> forall u :: u in g0.vals && Reachable(g0, source, u) ==>
      && tails[u] == Explore(Visit(tails0, source)[u])
      && Holds(g.vals[u].style, EdgeColor, Str("black"))
    ensures Live(g0, source) ==> !finished
    ensures |pops| <= fuel && QueueAfter(g0, [source], pops).Some?
    ensures finished <==> QueueAfter(g0, [source], pops).value == []
    ensures !finished ==> |pops| == fuel
    ensures tails == TailsAfter(Visit(tails0, source), pops)
    ensures g == Restyled(g0, Painted(g0, "black", pops, BordersAfter(g0, [source], pops)))
  {
    ghost var R := ReachFrom(g0, source);
    ReachFromFacts(g0, source);
    var queue := new Fifo.Queue<string>();
    queue.Enqueue(source);
    var t1 := Visit(tails0, source);
    var styles := StylesOf(g0);
    BfsStart(g0, source, R, t1, styles);
    ghost var Q, D, blue;
    tails, styles, finished, Q, D, blue, pops := BfsLoop(g0, source, R, t1, queue, t1, styles, fuel, [source], {}, {}, []);
    g := Restyled(g0, styles);
    BfsEnds(g0, source, R, tails0, t1, Q, tails, styles, D, blue, pops, g);
  }

  /** What the invariant gives about the result of a stopped loop. */
  lemma BfsEnds(g0: AdjList, source: string, R: set<string>, tails0: Tails, t1: Tails, Q: seq<string>,
                tails: Tails, styles: map<string, Style>, D: set<string>, blue: set<string>,
                pops: seq<string>, g: AdjList)
    requires source in g0.vals && R == ReachFrom(g0, source) && tails0.Keys == g0.vals.Keys
    requires t1 == Visit(tails0, source)
    requires BfsInv(g0, source, R, t1, Q, tails, styles, D, {}, blue)
    requires BfsTrace(g0, source, Q, D, blue, pops)
    requires g == Restyled(g0, styles)
    ensures g.keys == g0.keys && g.vals.Keys == g0.vals.Keys && tails.Keys == tails0.Keys
    ensures forall u :: u in g0.vals ==> g.vals[u] == g0.vals[u].(style := g.vals[u].style)
    ensures forall u :: u in g0.vals && !Reachable(g0, source, u) ==> g.vals[u] == g0.vals[u] && tails[u] == tails0[u]
    ensures forall u :: u in g0.vals ==> tails[u] == t1[u] || tails[u] == Explore(t1[u])
    ensures forall u :: u in g0.vals ==>
      && g.vals[u].style - {EdgeColor, BorderColor} == g0.vals[u].style - {EdgeColor, BorderColor}
      && (SameAt(g0.vals[u].style, g.vals[u].style, EdgeColor) || Holds(g.vals[u].style, EdgeColor, Str("black")))
      && (SameAt(g0.vals[u].style, g.vals[u].style, BorderColor) || Holds(g.vals[u].style, BorderColor, Str("blue")))
    ensures Q == [] ==> forall u :: u in g0.vals && Reachable(g0, source, u) ==>
      tails[u] == Explore(t1[u]) && Holds(g.vals[u].style, EdgeColor, Str("black"))
    ensures Live(g0, source) ==> Q != []
    ensures tails == TailsAfter(t1, pops)
    ensures g == Restyled(g0, Painted(g0, "black", pops, BordersAfter(g0, [source], pops)))
  {
    BfsEndStyles(g0, source, R, styles, D, blue, g);
    if Q == [] {
      DoneIsReachable(g0, source, R, D);
    }
    TailsAre(g0, t1, tails, D, pops);
    BfsPainted(g0, R, styles, D, blue, pops);
  }

  /** The styles once the loop stops: only the two colours change, and
      only on reachable vertices. */
  lemma BfsEndStyles(g0: AdjList, source: string, R: set<string>, styles: map<string, Style>,
                     D: set<string>, blue: set<string>, g: AdjList)
    requires R == ReachFrom(g0, source) && D <= R
    requires BfsStyles(g0, R, styles, D, {}, blue)
    requires g == Restyled(g0, styles)
    ensures forall u :: u in g0.vals && !Reachable(g0, source, u) ==> g.vals[u] == g0.vals[u]
    ensures forall u :: u in g0.vals ==>
      && g.vals[u].style - {EdgeColor, BorderColor} == g0.vals[u].style - {EdgeColor, BorderColor}
      && (SameAt(g0.vals[u].style, g.vals[u].style, EdgeColor) || Holds(g.vals[u].style, EdgeColor, Str("black")))
      && (SameAt(g0.vals[u].style, g.vals[u].style, BorderColor) || Holds(g.vals[u].style, BorderColor, Str("blue")))
    ensures forall u :: u in D ==> Holds(g.vals[u].style, EdgeColor, Str("black"))
  {
    forall u | u in g0.vals
      ensures && g.vals[u].style - {EdgeColor, BorderColor} == g0.vals[u].style - {EdgeColor, BorderColor}
              && (SameAt(g0.vals[u].style, g.vals[u].style, EdgeColor) || Holds(g.vals[u].style, EdgeColor, Str("black")))
              && (SameAt(g0.vals[u].style, g.vals[u].style, BorderColor) || Holds(g.vals[u].style, BorderColor, Str("blue")))
      ensures !Reachable(g0, source, u) ==> g.vals[u] == g0.vals[u]
      ensures u in D ==> Holds(g.vals[u].style, EdgeColor, Str("black"))
    {
      PaintFacts(g0.vals[u].style, BfsEdge(u, D, {}), u in blue);
    }
  }

  /** The styles a stopped loop leaves, as a function of the dequeues. */
  lemma BfsPainted(g0: AdjList, R: set<string>, styles: map<string, Style>, D: set<string>, blue: set<string>,
                   pops: seq<string>)
    requires BfsStyles(g0, R, styles, D, {}, blue) && forall u :: u in D <==> u in pops
    ensures styles == Painted(g0, "black", pops, blue)
  {
  }

  /** The `while (!queue.isEmpty())` loop, for at most `fuel` rounds. */
  method BfsLoop(g0: AdjList, source: string, ghost R: set<string>, t1: Tails, queue: Fifo.Queue<string>,
                 tails0: Tails, styles0: map<string, Style>, fuel: nat,
                 ghost Q0: seq<string>, ghost D0: set<string>, ghost blue0: set<string>, ghost pops0: seq<string>)
    returns (tails: Tails, styles: map<string, Style>, finished: bool,
             ghost Q: seq<string>, ghost D: set<string>, ghost blue: set<string>, ghost pops: seq<string>)
    requires Closed(g0) && R <= g0.vals.Keys
    requires forall u, w :: u in R && w in g0.vals[u].edges.vals ==> w in R
    requires queue.Valid() && queue.Contents() == Q0
    requires BfsInv(g0, source, R, t1, Q0, tails0, styles0, D0, {}, blue0)
    requires BfsTrace(g0, source, Q0, D0, blue0, pops0)
    modifies queue
    ensures BfsInv(g0, source, R, t1, Q, tails, styles, D, {}, blue)
    ensures BfsTrace(g0, source, Q, D, blue, pops)
    ensures finished <==> Q == []
    ensures |pops0| <= |pops| <= |pops0| + fuel && (!finished ==> |pops| == |pops0| + fuel)
  {
    tails, styles, Q, D, blue, pops := tails0, styles0, Q0, D0, blue0, pops0;
    var empty := queue.IsEmpty();
    var rounds := 0;
    while !empty && rounds < fuel
      invariant queue.Valid() && queue.Contents() == Q
      invariant empty <==> Q == []
      invariant BfsInv(g0, source, R, t1, Q, tails, styles, D, {}, blue)
      invariant BfsTrace(g0, source, Q, D, blue, pops)
      invariant rounds <= fuel && |pops| == |pops0| + rounds
      decreases fuel - rounds
    {
      tails, styles, Q, D, blue, pops := BfsRound(g0, source, R, t1, queue, tails, styles, Q, D, blue, pops);
      empty := queue.IsEmpty();
      rounds := rounds + 1;
    }
    finished := empty;
  }

  /** One round: dequeue a vertex, queue all its neighbours, mark it explored. */
  method BfsRound(g0: AdjList, source: string, ghost R: set<string>, t1: Tails, queue: Fifo.Queue<string>,
                  tails0: Tails, styles0: map<string, Style>,
                  ghost Q0: seq<string>, ghost D0: set<string>, ghost blue0: set<string>, ghost pops0: seq<string>)
    returns (tails: Tails, styles: map<string, Style>,
             ghost Q: seq<string>, ghost D: set<string>, ghost blue: set<string>, ghost pops: seq<string>)
    requires Closed(g0) && R <= g0.vals.Keys
    requires forall u, w :: u in R && w in g0.vals[u].edges.vals ==> w in R
    requires queue.Valid() && queue.Contents() == Q0 && Q0 != []
    requires BfsInv(g0, source, R, t1, Q0, tails0, styles0, D0, {}, blue0)
    requires BfsTrace(g0, source, Q0, D0, blue0, pops0)
    modifies queue
    ensures queue.Valid() && queue.Contents() == Q
    ensures BfsInv(g0, source, R, t1, Q, tails, styles, D, {}, blue)
    ensures BfsTrace(g0, source, Q, D, blue, pops) && pops == pops0 + [Q0[0]]
  {
    var front := queue.Dequeue();
    var v := front.value;
    Q := Q0[1..];
    FrontAndRest(Q0);
    WorkTake(source, R, Q0, Q, D0, v);
    FringeTake(g0, Q0, Q, D0, v);
    LiveTake(g0, source, Q0, Q, v);
    BfsStylesTake(g0, R, styles0, D0, blue0, v);
    styles := styles0[v := styles0[v][EdgeColor := Str("blue")]];
    NeighboursIn(g0, R, v);
    styles, Q, blue := BfsNeighbours(g0, source, R, t1, v, queue, tails0, styles, Q, D0, blue0);
    BfsStylesRelease(g0, R, styles, D0, blue, v);
    styles := styles[v := styles[v][EdgeColor := Str("black")]];
    TailsExplore(g0, t1, tails0, D0, v);
    tails := tails0[v := Explore(tails0[v])];
    WorkRelease(source, R, Q, D0, v);
    FringeRelease(g0, Q, D0, v);
    LiveRelease(g0, source, Q, v);
    D := D0 + {v};
    pops := pops0 + [v];
    QueueNext(g0, [source], pops0, Q0, v);
  }

  /** The `for` over the dequeued vertex's edge keys: each neighbour is
      enqueued, and then the front of the queue gets a blue border. */
  method BfsNeighbours(g0: AdjList, source: string, ghost R: set<string>, t1: Tails, v: string,
                       queue: Fifo.Queue<string>, tails: Tails, styles0: map<string, Style>,
                       ghost Q0: seq<string>, ghost D: set<string>, ghost blue0: set<string>)
    returns (styles: map<string, Style>, ghost Q: seq<string>, ghost blue: set<string>)
    requires v in g0.vals && g0.vals[v].edges.Valid() && R <= g0.vals.Keys
    requires forall w :: w in g0.vals[v].edges.keys ==> w in R
    requires queue.Valid() && queue.Contents() == Q0
    requires BfsInv(g0, source, R, t1, Q0, tails, styles0, D, {v}, blue0)
    modifies queue
    ensures queue.Valid() && queue.Contents() == Q
    ensures BfsInv(g0, source, R, t1, Q, tails, styles, D, {v}, blue)
    ensures forall w :: Step(g0, v, w) ==> w in Q
    ensures Q == Q0 + g0.vals[v].edges.keys && blue == blue0 + BreadthFirst.FrontBlue(Q0, g0.vals[v].edges.keys)
  {
    styles, Q, blue := styles0, Q0, blue0;
    var ns := g0.vals[v].edges.keys;
    for i := 0 to |ns|
      invariant queue.Valid() && queue.Contents() == Q
      invariant Enqueuing(g0, source, R, t1, v, tails, ns, i, Q0, blue0, Q, styles, D, blue)
    {
      styles, Q, blue := BfsEnqueue(g0, source, R, t1, v, queue, tails, ns, i, Q0, blue0, styles, Q, D, blue);
    }
    assert ns[..|ns|] == ns;
  }

  /** The inner loop's invariant after the first `i` neighbours `ns`. */
  ghost predicate Enqueuing(g0: AdjList, source: string, R: set<string>, t1: Tails, v: string, tails: Tails,
                            ns: seq<string>, i: nat, Q0: seq<string>, blue0: set<string>,
                            Q: seq<string>, styles: map<string, Style>, D: set<string>, blue: set<string>)
  {
    && BfsInv(g0, source, R, t1, Q, tails, styles, D, {v}, blue)
    && i <= |ns|
    && (forall j :: 0 <= j < i ==> ns[j] in Q)
    && Q == Q0 + ns[..i] && blue == blue0 + BreadthFirst.FrontBlue(Q0, ns[..i])
  }

  /** One turn of the inner loop. */
  method BfsEnqueue(g0: AdjList, source: string, ghost R: set<string>, t1: Tails, v: string,
                    queue: Fifo.Queue<string>, tails: Tails, ns: seq<string>, i: nat,
                    ghost Q0: seq<string>, ghost blue0: set<string>, stylesIn: map<string, Style>,
                    ghost QIn: seq<string>, ghost D: set<string>, ghost blueIn: set<string>)
    returns (styles: map<string, Style>, ghost Q: seq<string>, ghost blue: set<string>)
    requires i < |ns| && ns[i] in R && R <= g0.vals.Keys
    requires queue.Valid() && queue.Contents() == QIn
    requires Enqueuing(g0, source, R, t1, v, tails, ns, i, Q0, blue0, QIn, stylesIn, D, blueIn)
    modifies queue
    ensures queue.Valid() && queue.Contents() == Q
    ensures Enqueuing(g0, source, R, t1, v, tails, ns, i + 1, Q0, blue0, Q, styles, D, blue)
  {
    FrontStep(Q0, ns, i, QIn, blue0, blueIn);
    styles, Q, blue := BfsVisit(g0, source, R, t1, v, queue, tails, stylesIn, QIn, D, blueIn, ns[i]);
  }

  /** One neighbour `w`: enqueued, and then the front of the queue gets a
      blue border. */
  method BfsVisit(g0: AdjList, source: string, ghost R: set<string>, t1: Tails, v: string,
                  queue: Fifo.Queue<string>, tails: Tails, styles0: map<string, Style>,
                  ghost Q0: seq<string>, ghost D: set<string>, ghost blue0: set<string>, w: string)
    returns (styles: map<string, Style>, ghost Q: seq<string>, ghost blue: set<string>)
    requires w in R && R <= g0.vals.Keys
    requires queue.Valid() && queue.Contents() == Q0
    requires BfsInv(g0, source, R, t1, Q0, tails, styles0, D, {v}, blue0)
    modifies queue
    ensures queue.Valid() && queue.Contents() == Q && Q == Q0 + [w]
    ensures BfsInv(g0, source, R, t1, Q, tails, styles, D, {v}, blue)
    ensures blue == blue0 + {Q[0]} && Q[0] in styles0
    ensures styles == styles0[Q[0] := styles0[Q[0]][BorderColor := Str("blue")]]
  {
    queue.Enqueue(w);
    var front := queue.Peek();
    var f := front.value;
    WorkGrow(source, R, Q0, D, {v}, w);
    FringeGrow(g0, Q0, D, {v}, w);
    LiveGrow(g0, source, Q0, {v}, w);
    Q := Q0 + [w];
    assert f == Q[0];
    BfsStylesBlue(g0, R, styles0, D, {v}, blue0, f);
    styles := styles0[f := styles0[f][BorderColor := Str("blue")]];
    blue := blue0 + {f};
  }

  // ---------------------------------------------------------------------
  // Depth-first (src/algorithms/dfs.js)

  /** DFS's `edgeColor`: "red" from the moment a vertex is popped. */
  function DfsEdge(u: string, D: set<string>, P: set<string>): Option<string>
  {
    if u in D || u in P then Some("red") else None
  }

  ghost predicate DfsStyles(g0: AdjList, R: set<string>, styles: map<string, Style>, D: set<string>,
                            P: set<string>, blue: set<string>)
  {
    && styles.Keys == g0.vals.Keys && blue <= R
    && (forall u :: u in styles ==> styles[u] == Paint(g0.vals[u].style, DfsEdge(u, D, P), u in blue))
  }

  /** `U` is the set of vertices whose record does not end with "explored":
      the first part of the termination measure. */
  ghost predicate Unexplored(g0: AdjList, tails: Tails, U: set<string>)
  {
    && U <= g0.vals.Keys
    && (forall u :: u in tails ==> (u in U <==> !EndsWith(tails[u], "explored")))
  }

  ghost predicate DfsInv(g0: AdjList, source: string, R: set<string>, tails0: Tails, t1: Tails, S: seq<string>,
                         tails: Tails, styles: map<string, Style>, D: set<string>, P: set<string>,
                         U: set<string>, blue: set<string>)
  {
    && TailsInv(g0, t1, tails, D)
    && Unexplored(g0, tails, U)
    && WorkInv(source, R, S, D, P)
    && (Unmarked(tails0) ==> Fringe(g0, S, D, P))
    && DfsStyles(g0, R, styles, D, P, blue)
  }

  lemma DfsStart(g0: AdjList, source: string, R: set<string>, tails0: Tails, t1: Tails,
                 styles: map<string, Style>, U: set<string>)
    requires source in R && R <= g0.vals.Keys && tails0.Keys == g0.vals.Keys && source in tails0
    requires t1 == Visit(tails0, source)
    requires styles == StylesOf(g0)
    requires U == NotExplored(g0, t1)
    ensures DfsInv(g0, source, R, tails0, t1, [source], t1, styles, {}, {}, U, {})
  {
    StartParts(g0, source, R, t1);
    forall u | u in styles
      ensures styles[u] == Paint(g0.vals[u].style, DfsEdge(u, {}, {}), u in {})
    {
      PaintFacts(g0.vals[u].style, None, false);
    }
  }

  lemma DfsStylesTake(g0: AdjList, R: set<string>, styles: map<string, Style>, D: set<string>,
                      blue: set<string>, v: string)
    requires DfsStyles(g0, R, styles, D, {}, blue) && v in styles
    ensures DfsStyles(g0, R, styles[v := styles[v][EdgeColor := Str("red")]], D, {v}, blue)
  {
    PaintAgain(g0.vals[v].style, DfsEdge(v, D, {}), v in blue, "red");
  }

  lemma DfsStylesBlue(g0: AdjList, R: set<string>, styles: map<string, Style>, D: set<string>,
                      P: set<string>, blue: set<string>, w: string)
    requires DfsStyles(g0, R, styles, D, P, blue) && w in styles && w in R
    ensures DfsStyles(g0, R, styles[w := styles[w][BorderColor := Str("blue")]], D, P, blue + {w})
  {
    PaintAgain(g0.vals[w].style, DfsEdge(w, D, P), w in blue, "blue");
  }

  lemma DfsStylesRelease(g0: AdjList, R: set<string>, styles: map<string, Style>, D: set<string>,
                         blue: set<string>, v: string)
    requires DfsStyles(g0, R, styles, D, {v}, blue)
    ensures DfsStyles(g0, R, styles, D + {v}, {}, blue)
  {
  }

  lemma UnexploredExplore(g0: AdjList, tails: Tails, U: set<string>, v: string)
    requires Unexplored(g0, tails, U) && v in tails
    ensures Unexplored(g0, tails[v := Explore(tails[v])], U - {v})
  {
  }

  /** A neighbour that is skipped is done or is the source, which is then
      on the stack or being examined; one that is not skipped is pushed.
      So every neighbour examined is done, on the stack or `v`. */
  lemma DfsCovered(source: string, R: set<string>, tails0: Tails, t1: Tails, tails: Tails,
                   S: seq<string>, S': seq<string>, D: set<string>, v: string, w: string)
    requires Unmarked(tails0) && source in tails0 && t1 == Visit(tails0, source)
    requires tails.Keys == tails0.Keys && w in tails
    requires forall u :: u in tails ==> tails[u] == if u in D then Explore(t1[u]) else t1[u]
    requires WorkInv(source, R, S, D, {v})
    requires if EndsWith(tails[w], "visited") || EndsWith(tails[w], "explored") then S' == S else S' == S + [w]
    ensures w in D || w in S' || w == v
  {
    if w !in D && (EndsWith(tails[w], "visited") || EndsWith(tails[w], "explored")) {
      assert tails[w] == t1[w];
      assert w == source;
    }
  }

  /** The vertices whose record ends with a mark once the source is
      "visited": they are skipped from the start of the loop. */
  ghost function MarksAt(t1: Tails): set<string>
  {
    set u | u in t1 && EndsMarked(t1[u])
  }

  /** The first `n` of the targets `ks` whose record ends with no mark, in
      order: the ones dfs.js pushes. */
  function Unvisited(tails: Tails, ks: seq<string>, n: nat): seq<string>
    requires n <= |ks|
  {
    if n == 0 then []
    else Unvisited(tails, ks, n - 1) + (if ks[n - 1] in tails && EndsMarked(tails[ks[n - 1]]) then [] else [ks[n - 1]])
  }

  /** When the marks are those of the start and of the pops so far, the
      targets pushed are the unmarked ones of the replay. */
  lemma {:induction false} UnvisitedIsUnmarked(tails: Tails, ks: seq<string>, n: nat, M0: set<string>,
                                               popped: seq<string>)
    requires n <= |ks| && forall j :: 0 <= j < n ==> ks[j] in tails
    requires forall u :: u in tails ==> (EndsMarked(tails[u]) <==> u in M0 || u in popped)
    ensures Unvisited(tails, ks, n) == Traversal.Unmarked(ks, n, M0, popped)
  {
    if n > 0 {
      UnvisitedIsUnmarked(tails, ks, n - 1, M0, popped);
    }
  }

  /** The vertices the pops `pops` push, each of which gets a blue border. */
  ghost function PushedOf(g0: AdjList, M0: set<string>, pops: seq<string>): set<string>
    decreases |pops|
  {
    if pops == [] then {}
    else
      var k := |pops| - 1;
      PushedOf(g0, M0, pops[..k])
        + (if pops[k] in g0.vals
           then Elems(Traversal.Unmarked(g0.vals[pops[k]].edges.keys, |g0.vals[pops[k]].edges.keys|, M0, pops[..k]))
           else {})
  }

  /** One more pop, of the top `v` of the stack `S` the pops `pops` leave. */
  lemma StackNext(g0: AdjList, M0: set<string>, S0: seq<string>, pops: seq<string>, S: seq<string>, v: string)
    requires Replay(g0, M0, S0, pops, true) == Some(S) && S != [] && S[|S| - 1] == v && v in g0.vals
    ensures Replay(g0, M0, S0, pops + [v], true)
         == Some(S[..|S| - 1] + Traversal.Unmarked(g0.vals[v].edges.keys, |g0.vals[v].edges.keys|, M0, pops))
    ensures PushedOf(g0, M0, pops + [v])
         == PushedOf(g0, M0, pops) + Elems(Traversal.Unmarked(g0.vals[v].edges.keys, |g0.vals[v].edges.keys|, M0, pops))
  {
    ReplayNext(g0, M0, S0, pops, S, v, g0.vals[v].edges.keys, pops + [v],
               S[..|S| - 1] + Traversal.Unmarked(g0.vals[v].edges.keys, |g0.vals[v].edges.keys|, M0, pops), true);
    assert (pops + [v])[..|pops|] == pops;
  }

  /** The stack, the done vertices and the blue borders are those of the
      pops `pops`. */
  ghost predicate DfsTrace(g0: AdjList, source: string, M0: set<string>, S: seq<string>, D: set<string>,
                           blue: set<string>, pops: seq<string>)
  {
    && Replay(g0, M0, [source], pops, true) == Some(S)
    && (forall u :: u in D <==> u in pops)
    && blue == PushedOf(g0, M0, pops)
  }

  /** The styles an empty stack leaves, as a function of the pops. */
  lemma DfsPainted(g0: AdjList, R: set<string>, styles: map<string, Style>, D: set<string>, blue: set<string>,
                   pops: seq<string>)
    requires DfsStyles(g0, R, styles, D, {}, blue) && forall u :: u in D <==> u in pops
    ensures styles == Painted(g0, "red", pops, blue)
  {
  }

  /** `dfs(graph, source)`: a stack search that skips neighbours whose
      record ends with a mark. It always terminates. From records none of
      which ends with a mark, the records ending with "explored" are then
      exactly those of the reachable vertices. The ghost `pops` are the
      popped vertices in order: replaying them, each pushing the neighbours
      not marked at the start nor popped before, empties the stack; the
      records are those they leave, and the styles are red on them and blue
      on the vertices they push (`PushedOf`). */
  method Dfs(g0: AdjList, tails0: Tails, source: string) returns (g: AdjList, tails: Tails, r: Run, ghost pops: seq<string>)
    requires Closed(g0) && tails0.Keys == g0.vals.Keys
    ensures source !in g0.vals ==> r == Threw(DfsMissing(source)) && g == g0 && tails == tails0
    ensures source in g0.vals ==> r == Finished
    ensures g.keys == g0.keys && g.vals.Keys == g0.vals.Keys && tails.Keys == tails0.Keys
    ensures forall u :: u in g0.vals ==> g.vals[u] == g0.vals[u].(style := g.vals[u].style)
    ensures forall u :: u in g0.vals && !Reachable(g0, source, u) ==> g.vals[u] == g0.vals[u] && tails[u] == tails0[u]
    ensures source in g0.vals ==> forall u :: u in g0.vals ==>
      tails[u] == Visit(tails0, source)[u] || tails[u] == Explore(Visit(tails0, source)[u])
    ensures source in g0.vals ==> tails[source] == tails0[source] + ["explored"]
    ensures forall u :: u in g0.vals ==>
      && g.vals[u].style - {EdgeColor, BorderColor} == g0.vals[u].style - {EdgeColor, BorderColor}
      && (SameAt(g0.vals[u].style, g.vals[u].style, EdgeColor) || Holds(g.vals[u].style, EdgeColor, Str("red")))
      && (SameAt(g0.vals[u].style, g.vals[u].style, BorderColor) || Holds(g.vals[u].style, BorderColor, Str("blue")))
    ensures source in g0.vals && Unmarked(tails0) ==> forall u :: u in g0.vals ==>
      && (EndsWith(tails[u], "explored") <==> Reachable(g0, source, u))
      && (Reachable(g0, source, u) ==> tails[u] == Explore(Visit(tails0, source)[u])
                                       && Holds(g.vals[u].style, EdgeColor, Str("red")))
    ensures source in g0.vals ==>
      && Replay(g0, MarksAt(Visit(tails0, source)), [source], pops, true) == Some([])
      && tails == TailsAfter(Visit(tails0, source), pops)
      && g == Restyled(g0, Painted(g0, "red", pops, PushedOf(g0, MarksAt(Visit(tails0, source)), pops)))
  {
    if source !in g0.vals {
      return g0, tails0, Threw(DfsMissing(source)), [];
    }
    g, tails, pops := DfsFrom(g0, tails0, source);
    r := Finished;
  }

  /** The search proper, from a source in the graph. */
  method DfsFrom(g0: AdjList, tails0: Tails, source: string) returns (g: AdjList, tails: Tails, ghost pops: seq<string>)
    requires Closed(g0) && tails0.Keys == g0.vals.Keys && source in g0.vals
    ensures g.keys == g0.keys && g.vals.Keys == g0.vals.Keys && tails.Keys == tails0.Keys
    ensures forall u :: u in g0.vals ==> g.vals[u] == g0.vals[u].(style := g.vals[u].style)
    ensures forall u :: u in g0.vals && !Reachable(g0, source, u) ==> g.vals[u] == g0.vals[u] && tails[u] == tails0[u]
    ensures forall u :: u in g0.vals ==>
      tails[u] == Visit(tails0, source)[u] || tails[u] == Explore(Visit(tails0, source)[u])
    ensures tails[source] == tails0[source] + ["explored"]
    ensures forall u :: u in g0.vals ==>
      && g.vals[u].style - {EdgeColor, BorderColor} == g0.vals[u].style - {EdgeColor, BorderColor}
      && (SameAt(g0.vals[u].style, g.vals[u].style, EdgeColor) || Holds(g.vals[u].style, EdgeColor, Str("red")))
      && (SameAt(g0.vals[u].style, g.vals[u].style, BorderColor) || Holds(g.vals[u].style, BorderColor, Str("blue")))
    ensures Unmarked(tails0) ==> forall u :: u in g0.vals ==>
      && (EndsWith(tails[u], "explored") <==> Reachable(g0, source, u))
      && (Reachable(g0, source, u) ==> tails[u] == Explore(Visit(tails0, source)[u])
                                       && Holds(g.vals[u].style, EdgeColor, Str("red")))
    ensures Replay(g0, MarksAt(Visit(tails0, source)), [source], pops, true) == Some([])
    ensures tails == TailsAfter(Visit(tails0, source), pops)
    ensures g == Restyled(g0, Painted(g0, "red", pops, PushedOf(g0, MarksAt(Visit(tails0, source)), pops)))
  {
    ghost var R := ReachFrom(g0, source);
    ReachFromFacts(g0, source);
    var stack := [source];
    var t1 := Visit(tails0, source);
    var styles := StylesOf(g0);
    ghost var U := NotExplored(g0, t1);
    DfsStart(g0, source, R, tails0, t1, styles, U);
    ghost var D, blue;
    tails, styles, D, U, blue, pops := DfsLoop(g0, source, R, tails0, t1, stack, t1, styles, {}, U, {}, []);
    g := Restyled(g0, styles);
    DfsEnd(g0, source, R, tails0, t1, tails, styles, D, U, blue, pops, g);
  }

  /** What the search has done once the stack is empty. */
  lemma DfsEnd(g0: AdjList, source: string, R: set<string>, tails0: Tails, t1: Tails, tails: Tails,
               styles: map<string, Style>, D: set<string>, U: set<string>, blue: set<string>,
               pops: seq<string>, g: AdjList)
    requires source in g0.vals && R == ReachFrom(g0, source) && tails0.Keys == g0.vals.Keys
    requires t1 == Visit(tails0, source)
    requires DfsInv(g0, source, R, tails0, t1, [], tails, styles, D, {}, U, blue)
    requires DfsTrace(g0, source, MarksAt(t1), [], D, blue, pops)
    requires g == Restyled(g0, styles)
    ensures g.keys == g0.keys && g.vals.Keys == g0.vals.Keys && tails.Keys == tails0.Keys
    ensures forall u :: u in g0.vals ==> g.vals[u] == g0.vals[u].(style := g.vals[u].style)
    ensures forall u :: u in g0.vals && !Reachable(g0, source, u) ==> g.vals[u] == g0.vals[u] && tails[u] == tails0[u]
    ensures forall u :: u in g0.vals ==> tails[u] == t1[u] || tails[u] == Explore(t1[u])
    ensures tails[source] == tails0[source] + ["explored"]
    ensures forall u :: u in g0.vals ==>
      && g.vals[u].style - {EdgeColor, BorderColor} == g0.vals[u].style - {EdgeColor, BorderColor}
      && (SameAt(g0.vals[u].style, g.vals[u].style, EdgeColor) || Holds(g.vals[u].style, EdgeColor, Str("red")))
      && (SameAt(g0.vals[u].style, g.vals[u].style, BorderColor) || Holds(g.vals[u].style, BorderColor, Str("blue")))
    ensures Unmarked(tails0) ==> forall u :: u in g0.vals ==>
      && (EndsWith(tails[u], "explored") <==> Reachable(g0, source, u))
      && (Reachable(g0, source, u) ==> tails[u] == Explore(t1[u])
                                       && Holds(g.vals[u].style, EdgeColor, Str("red")))
    ensures Replay(g0, MarksAt(t1), [source], pops, true) == Some([])
    ensures tails == TailsAfter(t1, pops)
    ensures g == Restyled(g0, Painted(g0, "red", pops, PushedOf(g0, MarksAt(t1), pops)))
  {
    DfsEndStyles(g0, source, R, styles, D, blue, g);
    DfsEndTails(g0, source, R, tails0, t1, tails, D);
    TailsAre(g0, t1, tails, D, pops);
    DfsPainted(g0, R, styles, D, blue, pops);
  }

  /** The styles once the stack is empty: only the two colours change,
      and only on reachable vertices. */
  lemma DfsEndStyles(g0: AdjList, source: string, R: set<string>, styles: map<string, Style>,
                     D: set<string>, blue: set<string>, g: AdjList)
    requires R == ReachFrom(g0, source) && D <= R
    requires DfsStyles(g0, R, styles, D, {}, blue)
    requires g == Restyled(g0, styles)
    ensures forall u :: u in g0.vals && !Reachable(g0, source, u) ==> g.vals[u] == g0.vals[u]
    ensures forall u :: u in g0.vals ==>
      && g.vals[u].style - {EdgeColor, BorderColor} == g0.vals[u].style - {EdgeColor, BorderColor}
      && (SameAt(g0.vals[u].style, g.vals[u].style, EdgeColor) || Holds(g.vals[u].style, EdgeColor, Str("red")))
      && (SameAt(g0.vals[u].style, g.vals[u].style, BorderColor) || Holds(g.vals[u].style, BorderColor, Str("blue")))
    ensures forall u :: u in D ==> Holds(g.vals[u].style, EdgeColor, Str("red"))
  {
    forall u | u in g0.vals
      ensures && g.vals[u].style - {EdgeColor, BorderColor} == g0.vals[u].style - {EdgeColor, BorderColor}
              && (SameAt(g0.vals[u].style, g.vals[u].style, EdgeColor) || Holds(g.vals[u].style, EdgeColor, Str("red")))
              && (SameAt(g0.vals[u].style, g.vals[u].style, BorderColor) || Holds(g.vals[u].style, BorderColor, Str("blue")))
      ensures !Reachable(g0, source, u) ==> g.vals[u] == g0.vals[u]
      ensures u in D ==> Holds(g.vals[u].style, EdgeColor, Str("red"))
    {
      PaintFacts(g0.vals[u].style, DfsEdge(u, D, {}), u in blue);
    }
  }

  /** The records once the stack is empty. From unmarked records, the
      explored vertices are the reachable ones. */
  lemma DfsEndTails(g0: AdjList, source: string, R: set<string>, tails0: Tails, t1: Tails,
                    tails: Tails, D: set<string>)
    requires source in g0.vals && R == ReachFrom(g0, source) && tails0.Keys == g0.vals.Keys
    requires t1 == Visit(tails0, source)
    requires TailsInv(g0, t1, tails, D) && WorkInv(source, R, [], D, {})
    requires Unmarked(tails0) ==> Fringe(g0, [], D, {})
    ensures forall u :: u in g0.vals && !Reachable(g0, source, u) ==> tails[u] == tails0[u]
    ensures forall u :: u in g0.vals ==> tails[u] == t1[u] || tails[u] == Explore(t1[u])
    ensures tails[source] == tails0[source] + ["explored"]
    ensures Unmarked(tails0) ==> D == R && forall u :: u in g0.vals ==>
      && (EndsWith(tails[u], "explored") <==> Reachable(g0, source, u))
      && (Reachable(g0, source, u) ==> tails[u] == Explore(t1[u]))
  {
    assert source in D || source in [] || source in {};
    ExploreFacts(tails0[source]);
    if Unmarked(tails0) {
      DoneIsReachable(g0, source, R, D);
      forall u | u in g0.vals && u !in D
        ensures !EndsWith(tails[u], "explored")
      {
        assert u != source && tails[u] == tails0[u];
      }
    }
  }

  /** The `while (stack.length > 0)` loop. A pop either explores a vertex
      that was not explored, or removes an entry of an explored one while
      pushing only unexplored ones. */
  method DfsLoop(g0: AdjList, source: string, ghost R: set<string>, tails0: Tails, t1: Tails,
                 stack0: seq<string>, tailsIn: Tails, stylesIn: map<string, Style>,
                 ghost D0: set<string>, ghost U0: set<string>, ghost blue0: set<string>, ghost pops0: seq<string>)
    returns (tails: Tails, styles: map<string, Style>, ghost D: set<string>, ghost U: set<string>,
             ghost blue: set<string>, ghost pops: seq<string>)
    requires Closed(g0) && R <= g0.vals.Keys && source in tails0 && t1 == Visit(tails0, source)
    requires forall u, w :: u in R && w in g0.vals[u].edges.vals ==> w in R
    requires DfsInv(g0, source, R, tails0, t1, stack0, tailsIn, stylesIn, D0, {}, U0, blue0)
    requires DfsTrace(g0, source, MarksAt(t1), stack0, D0, blue0, pops0)
    ensures DfsInv(g0, source, R, tails0, t1, [], tails, styles, D, {}, U, blue)
    ensures DfsTrace(g0, source, MarksAt(t1), [], D, blue, pops)
  {
    var stack := stack0;
    tails, styles, D, U, blue, pops := tailsIn, stylesIn, D0, U0, blue0, pops0;
    while stack != []
      invariant DfsInv(g0, source, R, tails0, t1, stack, tails, styles, D, {}, U, blue)
      invariant DfsTrace(g0, source, MarksAt(t1), stack, D, blue, pops)
      decreases |U|, CountOut(U, stack)
    {
      stack, tails, styles, D, U, blue, pops := DfsRound(g0, source, R, tails0, t1, stack, tails, styles, D, U, blue, pops);
    }
  }

  /** One round: pop a vertex, push its unmarked neighbours, mark it explored. */
  method DfsRound(g0: AdjList, source: string, ghost R: set<string>, tails0: Tails, t1: Tails,
                  stack0: seq<string>, tailsIn: Tails, stylesIn: map<string, Style>,
                  ghost D0: set<string>, ghost U0: set<string>, ghost blue0: set<string>, ghost pops0: seq<string>)
    returns (stack: seq<string>, tails: Tails, styles: map<string, Style>, ghost D: set<string>,
             ghost U: set<string>, ghost blue: set<string>, ghost pops: seq<string>)
    requires Closed(g0) && R <= g0.vals.Keys && source in tails0 && t1 == Visit(tails0, source)
    requires forall u, w :: u in R && w in g0.vals[u].edges.vals ==> w in R
    requires stack0 != []
    requires DfsInv(g0, source, R, tails0, t1, stack0, tailsIn, stylesIn, D0, {}, U0, blue0)
    requires DfsTrace(g0, source, MarksAt(t1), stack0, D0, blue0, pops0)
    ensures DfsInv(g0, source, R, tails0, t1, stack, tails, styles, D, {}, U, blue)
    ensures DfsTrace(g0, source, MarksAt(t1), stack, D, blue, pops) && pops == pops0 + [stack0[|stack0| - 1]]
    ensures |U| < |U0| || (|U| == |U0| && CountOut(U, stack) < CountOut(U0, stack0))
  {
    var v := stack0[|stack0| - 1];
    stack := stack0[..|stack0| - 1];
    RestAndLast(stack0);
    CountOutSnoc(U0, stack, v);
    ghost var S1 := stack;
    WorkTake(source, R, stack0, stack, D0, v);
    if Unmarked(tails0) {
      FringeTake(g0, stack0, stack, D0, v);
    }
    DfsStylesTake(g0, R, stylesIn, D0, blue0, v);
    styles := stylesIn[v := stylesIn[v][EdgeColor := Str("red")]];
    NeighboursIn(g0, R, v);
    stack, styles, blue := DfsNeighbours(g0, source, R, tails0, t1, v, tailsIn, stack, styles, D0, U0, blue0);
    DfsStylesRelease(g0, R, styles, D0, blue, v);
    TailsExplore(g0, t1, tailsIn, D0, v);
    UnexploredExplore(g0, tailsIn, U0, v);
    tails := tailsIn[v := Explore(tailsIn[v])];
    WorkRelease(source, R, stack, D0, v);
    if Unmarked(tails0) {
      FringeRelease(g0, stack, D0, v);
    }
    MeasureDrops(U0, v, stack0, S1, stack);
    D, U := D0 + {v}, U0 - {v};
    pops := pops0 + [v];
    TraceStep(g0, source, t1, tailsIn, stack0, D0, blue0, pops0, v, stack, blue);
  }

  /** One pop of the top `v`, pushing exactly the neighbours whose record
      ends with no mark, follows the replay. */
  lemma TraceStep(g0: AdjList, source: string, t1: Tails, tails: Tails, S0: seq<string>, D0: set<string>,
                  B0: set<string>, pops0: seq<string>, v: string, S: seq<string>, B: set<string>)
    requires TailsInv(g0, t1, tails, D0) && DfsTrace(g0, source, MarksAt(t1), S0, D0, B0, pops0)
    requires S0 != [] && v == S0[|S0| - 1] && v in g0.vals && Closed(g0)
    requires PushedSoFar(tails, g0.vals[v].edges.keys, |g0.vals[v].edges.keys|, S0[..|S0| - 1], B0, S, B)
    ensures DfsTrace(g0, source, MarksAt(t1), S, D0 + {v}, B, pops0 + [v])
  {
    var ks := g0.vals[v].edges.keys;
    forall u | u in tails
      ensures EndsMarked(tails[u]) <==> u in MarksAt(t1) || u in pops0
    {
      MarksOfTails(g0, t1, tails, D0, pops0, u);
    }
    assert forall j :: 0 <= j < |ks| ==> ks[j] in g0.vals[v].edges.vals;
    UnvisitedIsUnmarked(tails, ks, |ks|, MarksAt(t1), pops0);
    StackNext(g0, MarksAt(t1), [source], pops0, S0, v);
  }

  /** The `for` over the popped vertex's edge keys: a neighbour whose
      record ends with "visited" or "explored" is skipped (`continue`); any
      other is pushed and gets a blue border. */
  method DfsNeighbours(g0: AdjList, source: string, ghost R: set<string>, tails0: Tails, t1: Tails, v: string,
                       tails: Tails, stack0: seq<string>, styles0: map<string, Style>,
                       ghost D: set<string>, ghost U: set<string>, ghost blue0: set<string>)
    returns (stack: seq<string>, styles: map<string, Style>, ghost blue: set<string>)
    requires v in g0.vals && g0.vals[v].edges.Valid() && source in tails0 && t1 == Visit(tails0, source)
    requires R <= g0.vals.Keys && forall w :: w in g0.vals[v].edges.keys ==> w in R
    requires DfsInv(g0, source, R, tails0, t1, stack0, tails, styles0, D, {v}, U, blue0)
    ensures DfsInv(g0, source, R, tails0, t1, stack, tails, styles, D, {v}, U, blue)
    ensures CountOut(U, stack) == CountOut(U, stack0)
    ensures Unmarked(tails0) ==> forall w :: Step(g0, v, w) ==> w in D || w in stack || w == v
    ensures PushedSoFar(tails, g0.vals[v].edges.keys, |g0.vals[v].edges.keys|, stack0, blue0, stack, blue)
  {
    stack, styles, blue := stack0, styles0, blue0;
    var ns := g0.vals[v].edges.keys;
    PushedNone(tails, ns, stack0, blue0);
    for i := 0 to |ns|
      invariant Examining(g0, source, R, tails0, t1, v, tails, ns, i, stack0, blue0, stack, styles, D, U, blue)
    {
      stack, styles, blue := DfsExamine(g0, source, R, tails0, t1, v, tails, ns, i, stack0, blue0, stack, styles, D, U, blue);
    }
  }

  /** The inner loop's invariant after the first `i` neighbours `ns`. */
  ghost predicate Examining(g0: AdjList, source: string, R: set<string>, tails0: Tails, t1: Tails, v: string,
                            tails: Tails, ns: seq<string>, i: nat, stack0: seq<string>, blue0: set<string>,
                            stack: seq<string>, styles: map<string, Style>, D: set<string>, U: set<string>,
                            blue: set<string>)
  {
    && DfsInv(g0, source, R, tails0, t1, stack, tails, styles, D, {v}, U, blue)
    && CountOut(U, stack) == CountOut(U, stack0)
    && i <= |ns|
    && (Unmarked(tails0) ==> forall j :: 0 <= j < i ==> ns[j] in D || ns[j] in stack || ns[j] == v)
    && PushedSoFar(tails, ns, i, stack0, blue0, stack, blue)
  }

  /** One turn of the inner loop. */
  method DfsExamine(g0: AdjList, source: string, ghost R: set<string>, tails0: Tails, t1: Tails, v: string,
                    tails: Tails, ns: seq<string>, i: nat, ghost stack0: seq<string>, ghost blue0: set<string>,
                    stackIn: seq<string>, stylesIn: map<string, Style>, ghost D: set<string>, ghost U: set<string>,
                    ghost blueIn: set<string>)
    returns (stack: seq<string>, styles: map<string, Style>, ghost blue: set<string>)
    requires source in tails0 && t1 == Visit(tails0, source) && R <= g0.vals.Keys
    requires i < |ns| && forall w :: w in ns ==> w in R
    requires Examining(g0, source, R, tails0, t1, v, tails, ns, i, stack0, blue0, stackIn, stylesIn, D, U, blueIn)
    ensures Examining(g0, source, R, tails0, t1, v, tails, ns, i + 1, stack0, blue0, stack, styles, D, U, blue)
  {
    stack, styles, blue := DfsVisit(g0, source, R, tails0, t1, v, tails, stackIn, stylesIn, D, U, blueIn, ns[i]);
    if Unmarked(tails0) {
      ExaminedStep(ns, i, D, stackIn, stack, v);
    }
    PushedStep(tails, ns, i, stack0, blue0, stackIn, blueIn, stack, blue);
  }

  /** The stack and the borders once the first `i` of the neighbours `ns`
      have been examined. */
  ghost predicate PushedSoFar(tails: Tails, ns: seq<string>, i: nat, S0: seq<string>, B0: set<string>,
                              S: seq<string>, B: set<string>)
  {
    i <= |ns| && S == S0 + Unvisited(tails, ns, i) && B == B0 + Elems(Unvisited(tails, ns, i))
  }

  /** Before the inner loop nothing is pushed. */
  lemma PushedNone(tails: Tails, ns: seq<string>, S0: seq<string>, B0: set<string>)
    ensures PushedSoFar(tails, ns, 0, S0, B0, S0, B0)
  {
    assert Unvisited(tails, ns, 0) == [] && S0 + [] == S0 && Elems([]) == {} && B0 + {} == B0;
  }

  /** One more neighbour examined: pushed, with a blue border, exactly
      when its record ends with no mark. */
  lemma PushedStep(tails: Tails, ns: seq<string>, i: nat, S0: seq<string>, B0: set<string>,
                   S: seq<string>, B: set<string>, S': seq<string>, B': set<string>)
    requires i < |ns| && ns[i] in tails
    requires PushedSoFar(tails, ns, i, S0, B0, S, B)
    requires PushedOne(tails, ns[i], S, B, S', B')
    ensures PushedSoFar(tails, ns, i + 1, S0, B0, S', B')
  {
    var P := Unvisited(tails, ns, i);
    if EndsMarked(tails[ns[i]]) {
      assert Unvisited(tails, ns, i + 1) == P + [];
      assert P + [] == P && S + [] == S;
    } else {
      assert Unvisited(tails, ns, i + 1) == P + [ns[i]];
      assert Elems(P + [ns[i]]) == Elems(P) + {ns[i]};
    }
  }

  /** The first `i + 1` neighbours are done, on the stack or `v`, once the
      first `i` were and the stack only grew. */
  lemma ExaminedStep(ns: seq<string>, i: nat, D: set<string>, S: seq<string>, S': seq<string>, v: string)
    requires i < |ns|
    requires forall j :: 0 <= j < i ==> ns[j] in D || ns[j] in S || ns[j] == v
    requires forall q :: q in S ==> q in S'
    requires ns[i] in D || ns[i] in S' || ns[i] == v
    ensures forall j :: 0 <= j < i + 1 ==> ns[j] in D || ns[j] in S' || ns[j] == v
  {
  }

  /** `w` pushed, with a blue border, exactly when its record ends with no
      mark. */
  ghost predicate PushedOne(tails: Tails, w: string, S0: seq<string>, B0: set<string>, S: seq<string>, B: set<string>)
  {
    && w in tails
    && S == S0 + (if EndsMarked(tails[w]) then [] else [w])
    && B == B0 + (if EndsMarked(tails[w]) then {} else {w})
  }

  /** One neighbour `w` of the popped vertex `v`: skipped when its record
      ends with a mark, pushed with a blue border otherwise. */
  method DfsVisit(g0: AdjList, source: string, ghost R: set<string>, tails0: Tails, t1: Tails, v: string,
                  tails: Tails, stack0: seq<string>, styles0: map<string, Style>,
                  ghost D: set<string>, ghost U: set<string>, ghost blue0: set<string>, w: string)
    returns (stack: seq<string>, styles: map<string, Style>, ghost blue: set<string>)
    requires source in tails0 && t1 == Visit(tails0, source) && w in R && R <= g0.vals.Keys
    requires DfsInv(g0, source, R, tails0, t1, stack0, tails, styles0, D, {v}, U, blue0)
    ensures DfsInv(g0, source, R, tails0, t1, stack, tails, styles, D, {v}, U, blue)
    ensures CountOut(U, stack) == CountOut(U, stack0)
    ensures forall q :: q in stack0 ==> q in stack
    ensures Unmarked(tails0) ==> w in D || w in stack || w == v
    ensures PushedOne(tails, w, stack0, blue0, stack, blue)
  {
    stack, styles, blue := stack0, styles0, blue0;
    if !EndsMarked(tails[w]) {
      CountOutSnoc(U, stack, w);
      WorkGrow(source, R, stack, D, {v}, w);
      if Unmarked(tails0) {
        FringeGrow(g0, stack, D, {v}, w);
      }
      stack := stack + [w];
      DfsStylesBlue(g0, R, styles, D, {v}, blue, w);
      styles := styles[w := styles[w][BorderColor := Str("blue")]];
      blue := blue + {w};
    }
    if Unmarked(tails0) {
      DfsCovered(source, R, tails0, t1, tails, stack0, stack, D, v, w);
    }
  }
}
