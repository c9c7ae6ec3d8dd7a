/** The breadth-first runner of pub/scripts/algorithms/bfs.js, without its
    pauses and redraws.

    `Bfs` is the part of the source after the presence check on the source
    vertex: it takes the adjacency list and returns the new one (styles and
    state slots written) together with the names it appended to
    `styledVertices.bfs`. The source pushes `[name, record]` pairs; records
    are never replaced while a run is in progress, so the name identifies
    the pair. The flag writes, the `throw` on an absent source and the final
    reset of slot 4 belong to the graph (graph.dfy). */
module BreadthFirst {
  import opened Values
  import opened Adjacency
  import opened Traversal
  import Fifo

  /** A style after BFS's writes to it: a red `edgeColor` if `red`, a blue
      `vertexBorderColor` if `blue`. The two writes touch different keys, so
      their order does not matter. */
  function Paint(s: Style, red: bool, blue: bool): Style
  {
    var s1 := if red then s[EdgeColor := Str("red")] else s;
    if blue then s1[BorderColor := Str("blue")] else s1
  }

  /** Painting touches only the two properties and sets each one it is asked to. */
  lemma PaintFacts(s: Style, red: bool, blue: bool)
    ensures Paint(s, red, blue) - {EdgeColor, BorderColor} == s - {EdgeColor, BorderColor}
    ensures red ==> Holds(Paint(s, red, blue), EdgeColor, Str("red"))
    ensures !red ==> SameAt(s, Paint(s, red, blue), EdgeColor)
    ensures blue ==> Holds(Paint(s, red, blue), BorderColor, Str("blue"))
    ensures !blue ==> SameAt(s, Paint(s, red, blue), BorderColor)
  {
    assert EdgeColor != BorderColor;
  }

  /** Painting a painted style again changes nothing more. */
  lemma PaintAgain(s: Style, red: bool, blue: bool)
    ensures Paint(s, red, blue)[EdgeColor := Str("red")] == Paint(s, true, blue)
    ensures Paint(s, red, blue)[BorderColor := Str("blue")] == Paint(s, red, true)
  {
    assert EdgeColor != BorderColor;
  }

  // The BFS loop invariant has five parts: the marks and the frontier from
  // Traversal, and the three below. `Q` is the queue's contents, `blue` the
  // vertices whose border was painted, and `pending` holds the vertex whose
  // neighbours are being examined, if any.

  /** Queue and log hold reachable vertices; the log starts with the source. */
  ghost predicate QueueInv(source: string, R: set<string>, Q: seq<string>, log: seq<string>)
  {
    && (forall q :: q in Q ==> q in R)
    && (forall u :: u in log ==> u in R)
    && ((log == [] && Q == [source]) || (log != [] && log[0] == source))
  }

  /** Styles: logged vertices are red, the `blue` ones have a blue border. */
  ghost predicate StylesInv(g0: AdjList, styles: map<string, Style>, Q: seq<string>, log: seq<string>,
                            blue: set<string>, pending: set<string>)
  {
    && styles.Keys == g0.vals.Keys
    && (forall u :: u in styles ==> styles[u] == Paint(g0.vals[u].style, u in log, u in blue))
    && (forall u :: u in blue ==> u in log || u in Q)
    && (forall u :: u in pending ==> u in log)
  }

  /** From an unmarked start, explored vertices were logged. */
  ghost predicate Logged(g0: AdjList, U: set<string>, log: seq<string>)
  {
    Clear(g0) ==> forall u :: u in g0.vals && u !in U ==> u in log
  }

  ghost predicate BfsInv(g0: AdjList, source: string, R: set<string>, Q: seq<string>,
                         states: map<string, State>, styles: map<string, Style>, log: seq<string>,
                         U: set<string>, blue: set<string>, pending: set<string>)
  {
    && StatesInv(g0, source, R, states, U)
    && QueueInv(source, R, Q, log)
    && StylesInv(g0, styles, Q, log, blue, pending)
    && Frontier(g0, Q, states, U, pending)
    && Logged(g0, U, log)
  }

  // The order of dequeues: `Replay` with the queue discipline gives the
  // queue left by the dequeues so far.

  /** The `styledVertices.bfs` entries of the dequeues `pops`: each dequeued
      vertex followed by all its out-neighbours in insertion order, every
      time it is dequeued. */
  ghost function LogOf(g0: AdjList, pops: seq<string>): seq<string>
    decreases |pops|
  {
    if pops == [] then []
    else
      var v := pops[|pops| - 1];
      LogOf(g0, pops[..|pops| - 1]) + [v] + (if v in g0.vals then g0.vals[v].edges.keys else [])
  }

  /** The border writes while `P` is added to the queue `Q`: each one paints
      the front, so the front once something has been added. */
  function FrontBlue(Q: seq<string>, P: seq<string>): set<string>
  {
    if P == [] then {} else {(Q + P)[0]}
  }

  /** The vertices whose border the dequeues `pops` paint blue. */
  ghost function BluesOf(g0: AdjList, M0: set<string>, Q0: seq<string>, pops: seq<string>): set<string>
    decreases |pops|
  {
    if pops == [] then {}
    else
      var k := |pops| - 1;
      var Q := Replay(g0, M0, Q0, pops[..k], false);
      BluesOf(g0, M0, Q0, pops[..k])
        + (if Q.Some? && Q.value != [] && pops[k] in g0.vals
           then FrontBlue(Q.value[1..], Unmarked(g0.vals[pops[k]].edges.keys, |g0.vals[pops[k]].edges.keys|, M0, pops[..k]))
           else {})
  }

  /** Queue, log and blue borders after the inner loop has examined the
      first `i` of the out-neighbours `ns` of a vertex, from `Q0`, `log0` and
      `blue0`. */
  ghost function Examined(Q0: seq<string>, log0: seq<string>, blue0: set<string>, ns: seq<string>, i: nat,
                          M0: set<string>, pops: seq<string>): (seq<string>, seq<string>, set<string>)
    requires i <= |ns|
  {
    (Q0 + Unmarked(ns, i, M0, pops), log0 + ns[..i], blue0 + FrontBlue(Q0, Unmarked(ns, i, M0, pops)))
  }

  /** The queue, the log and the blue borders are those of the dequeues so
      far. */
  ghost predicate Served(g0: AdjList, source: string, M0: set<string>, states: map<string, State>,
                         Q: seq<string>, log: seq<string>, blue: set<string>, pops: seq<string>)
  {
    && MarksInv(states, M0, pops)
    && Replay(g0, M0, [source], pops, false) == Some(Q)
    && log == LogOf(g0, pops)
    && blue == BluesOf(g0, M0, [source], pops)
  }

  lemma ServedStart(g0: AdjList, source: string, states: map<string, State>)
    requires source in g0.vals
    requires states == (map u | u in g0.vals :: g0.vals[u].state)[source := Visited]
    ensures Served(g0, source, Marks0(g0, source), states, [source], [], {}, [])
  {
    MarksStart(g0, source, states);
  }

  /** Dequeuing the front `v` and enqueuing its unmarked out-neighbours. */
  lemma ServedStep(g0: AdjList, source: string, M0: set<string>, states: map<string, State>, Q: seq<string>,
                   log: seq<string>, blue: set<string>, pops: seq<string>, v: string,
                   Q': seq<string>, log': seq<string>, blue': set<string>)
    requires Served(g0, source, M0, states, Q, log, blue, pops)
    requires Q != [] && Q[0] == v && v in g0.vals && v in states
    requires (Q', log', blue') == Examined(Q[1..], log + [v], blue, g0.vals[v].edges.keys,
                                           |g0.vals[v].edges.keys|, M0, pops)
    ensures Served(g0, source, M0, states[v := Explored], Q', log', blue', pops + [v])
  {
    assert (pops + [v])[..|pops|] == pops;
    assert g0.vals[v].edges.keys[..|g0.vals[v].edges.keys|] == g0.vals[v].edges.keys;
  }

  /** The log of one more dequeue `v`. */
  lemma LogNext(g0: AdjList, pops: seq<string>, log: seq<string>, v: string, pops': seq<string>, log': seq<string>)
    requires LogOf(g0, pops) == log && v in g0.vals && pops' == pops + [v]
    requires log' == log + [v] + g0.vals[v].edges.keys
    ensures LogOf(g0, pops') == log'
  {
    assert pops'[..|pops|] == pops;
  }

  /** One more dequeue `v` of the queue `Q` the dequeues before it leave:
      the queue it leaves and the blue borders so far. */
  lemma ServeNext(g0: AdjList, M0: set<string>, Q0: seq<string>, pops: seq<string>, Q: seq<string>,
                  blue: set<string>, v: string, ks: seq<string>, P: seq<string>,
                  pops': seq<string>, Q': seq<string>, blue': set<string>)
    requires Replay(g0, M0, Q0, pops, false) == Some(Q) && BluesOf(g0, M0, Q0, pops) == blue
    requires Q != [] && Q[0] == v && v in g0.vals && g0.vals[v].edges.keys == ks && pops' == pops + [v]
    requires Unmarked(ks, |ks|, M0, pops) == P && Q' == Q[1..] + P && blue' == blue + FrontBlue(Q[1..], P)
    ensures Replay(g0, M0, Q0, pops', false) == Some(Q') && BluesOf(g0, M0, Q0, pops') == blue'
  {
    ReplayNext(g0, M0, Q0, pops, Q, v, ks, pops', Q', false);
    assert pops'[..|pops|] == pops;
  }

  /** One neighbour of the inner loop: logged, and enqueued unless marked,
      which paints the front. */
  lemma VisitStep(Q0: seq<string>, ns: seq<string>, i: nat, M0: set<string>, pops: seq<string>, marked: bool,
                  Q: seq<string>, log0: seq<string>, log: seq<string>, blue0: set<string>, blue: set<string>)
    requires i < |ns| && (marked <==> ns[i] in M0 || ns[i] in pops)
    requires (Q, log, blue) == Examined(Q0, log0, blue0, ns, i, M0, pops)
    ensures (Q + (if marked then [] else [ns[i]]), log + [ns[i]], blue + (if marked then {} else {(Q + [ns[i]])[0]}))
         == Examined(Q0, log0, blue0, ns, i + 1, M0, pops)
  {
    var P, w := Unmarked(ns, i, M0, pops), ns[i];
    assert Unmarked(ns, i + 1, M0, pops) == P + (if marked then [] else [w]);
    assert ns[..i + 1] == ns[..i] + [w];
    assert log + [w] == log0 + ns[..i + 1];
    if !marked {
      assert Q + [w] == Q0 + (P + [w]);
      assert FrontBlue(Q0, P + [w]) == {(Q + [w])[0]};
      if P != [] {
        assert (Q0 + (P + [w]))[0] == (Q0 + P)[0];
        assert FrontBlue(Q0, P) == FrontBlue(Q0, P + [w]);
      }
      assert blue + {(Q + [w])[0]} == blue0 + FrontBlue(Q0, P + [w]);
    } else {
      assert P + [] == P && Q + [] == Q && blue + {} == blue;
    }
  }

  /** Before the inner loop. */
  lemma ExaminedNone(Q0: seq<string>, log0: seq<string>, blue0: set<string>, ns: seq<string>, M0: set<string>,
                     pops: seq<string>)
    ensures Examined(Q0, log0, blue0, ns, 0, M0, pops) == (Q0, log0, blue0)
  {
    assert Unmarked(ns, 0, M0, pops) == [] && FrontBlue(Q0, []) == {};
    assert Q0 + [] == Q0 && log0 + ns[..0] == log0 && blue0 + {} == blue0;
  }


  /** The state before the loop (pub/scripts/algorithms/bfs.js:13-17): the
      source is visited and queued, nothing is logged or painted. */
  lemma BfsStart(g0: AdjList, source: string, R: set<string>, states: map<string, State>,
                 styles: map<string, Style>, U: set<string>)
    requires source in R && R <= g0.vals.Keys
    requires states == (map u | u in g0.vals :: g0.vals[u].state)[source := Visited]
    requires styles == map u | u in g0.vals :: g0.vals[u].style
    requires U == set u | u in g0.vals && states[u] != Explored
    ensures BfsInv(g0, source, R, [source], states, styles, [], U, {}, {})
  {
    StartStates(g0, source, R, states, U);
    StartStyles(g0, source, styles);
    StartFrontier(g0, source, states, U);
    StartLogged(g0, source, states, U);
  }

  lemma StartStyles(g0: AdjList, source: string, styles: map<string, Style>)
    requires styles == map u | u in g0.vals :: g0.vals[u].style
    ensures StylesInv(g0, styles, [source], [], {}, {})
  {
  }

  lemma StartLogged(g0: AdjList, source: string, states: map<string, State>, U: set<string>)
    requires states == (map u | u in g0.vals :: g0.vals[u].state)[source := Visited]
    requires U == set u | u in g0.vals && states[u] != Explored
    ensures Logged(g0, U, [])
  {
  }

  // Dequeuing `v` from `[v] + Q`: `v` gets a red `edgeColor` and is logged.

  lemma QueueDequeue(source: string, R: set<string>, v: string, Q: seq<string>, log: seq<string>)
    requires QueueInv(source, R, [v] + Q, log)
    ensures QueueInv(source, R, Q, log + [v]) && v in R
  {
    assert v in [v] + Q;
    assert forall q :: q in Q ==> q in [v] + Q;
  }

  lemma StylesDequeue(g0: AdjList, styles: map<string, Style>, v: string, Q: seq<string>, log: seq<string>,
                      blue: set<string>)
    requires StylesInv(g0, styles, [v] + Q, log, blue, {}) && v in g0.vals
    ensures StylesInv(g0, styles[v := styles[v][EdgeColor := Str("red")]], Q, log + [v], blue, {v})
  {
    PaintAgain(g0.vals[v].style, v in log, v in blue);
  }

  lemma LoggedGrow(g0: AdjList, U: set<string>, log: seq<string>, w: string)
    requires Logged(g0, U, log)
    ensures Logged(g0, U, log + [w])
  {
  }

  // Examining neighbour `w`: it is logged and gets a red `edgeColor`.

  lemma QueueLog(source: string, R: set<string>, Q: seq<string>, log: seq<string>, w: string)
    requires QueueInv(source, R, Q, log) && log != [] && w in R
    ensures QueueInv(source, R, Q, log + [w])
  {
  }

  lemma StylesRed(g0: AdjList, styles: map<string, Style>, Q: seq<string>, log: seq<string>,
                  blue: set<string>, pending: set<string>, w: string)
    requires StylesInv(g0, styles, Q, log, blue, pending) && w in g0.vals
    ensures StylesInv(g0, styles[w := styles[w][EdgeColor := Str("red")]], Q, log + [w], blue, pending)
  {
    PaintAgain(g0.vals[w].style, w in log, w in blue);
  }

  // An unmarked neighbour `w` is enqueued and the front `f` gets a blue border.

  lemma QueueEnqueue(source: string, R: set<string>, Q: seq<string>, log: seq<string>, w: string)
    requires QueueInv(source, R, Q, log) && log != [] && w in R
    ensures QueueInv(source, R, Q + [w], log)
  {
  }

  lemma StylesBlue(g0: AdjList, styles: map<string, Style>, Q: seq<string>, log: seq<string>,
                   blue: set<string>, pending: set<string>, w: string, f: string)
    requires StylesInv(g0, styles, Q, log, blue, pending) && f in g0.vals && f in Q + [w]
    ensures StylesInv(g0, styles[f := styles[f][BorderColor := Str("blue")]], Q + [w], log, blue + {f}, pending)
  {
    PaintAgain(g0.vals[f].style, f in log, f in blue);
  }

  // After the neighbours, `v` becomes explored.

  lemma StylesRelease(g0: AdjList, styles: map<string, Style>, Q: seq<string>, log: seq<string>,
                      blue: set<string>, v: string)
    requires StylesInv(g0, styles, Q, log, blue, {v})
    ensures StylesInv(g0, styles, Q, log, blue, {})
  {
  }

  lemma LoggedExplore(g0: AdjList, U: set<string>, log: seq<string>, v: string)
    requires Logged(g0, U, log) && v in log
    ensures Logged(g0, U - {v}, log)
  {
  }

  /** The BFS run (pub/scripts/algorithms/bfs.js:13-47): the source is
      marked "visited" and queued; each dequeued vertex gets a red
      `edgeColor` and is logged, then so is each of its out-neighbours in
      insertion order, and an unmarked neighbour is enqueued, after which the
      front of the queue gets a blue border; last, the dequeued vertex
      becomes "explored". Enqueueing does not mark, so a vertex can be
      queued more than once.

      The loop always ends. Only reachable vertices are touched, and from an
      unmarked start the explored vertices are exactly those reachable from
      the source, all of them logged. */
  method Bfs(g0: AdjList, source: string) returns (g: AdjList, log: seq<string>, ghost pops: seq<string>)
    requires Closed(g0) && source in g0.vals
    ensures g.keys == g0.keys && g.vals.Keys == g0.vals.Keys
    ensures forall u :: u in g0.vals ==> g.vals[u] == g0.vals[u].(state := g.vals[u].state, style := g.vals[u].style)
    ensures log != [] && log[0] == source
    ensures forall u :: u in log ==> u in ReachFrom(g0, source)
    ensures forall u :: u in g0.vals && g.vals[u].state != g0.vals[u].state ==> u in ReachFrom(g0, source)
    ensures forall u :: u in g0.vals ==>
      g.vals[u].style - {EdgeColor, BorderColor} == g0.vals[u].style - {EdgeColor, BorderColor}
    ensures forall u :: u in g0.vals && u in log ==> Holds(g.vals[u].style, EdgeColor, Str("red"))
    ensures forall u :: u in g0.vals && u !in log ==> g.vals[u].style == g0.vals[u].style
    ensures forall u :: u in g0.vals && !SameAt(g0.vals[u].style, g.vals[u].style, BorderColor) ==>
      Holds(g.vals[u].style, BorderColor, Str("blue"))
    ensures Clear(g0) ==> forall u :: u in g0.vals ==> (g.vals[u].state == Explored <==> u in ReachFrom(g0, source))
    ensures Clear(g0) ==> forall u :: u in ReachFrom(g0, source) ==> u in log
    ensures Replay(g0, Marks0(g0, source), [source], pops, false) == Some([]) && log == LogOf(g0, pops)
    ensures forall u :: u in g0.vals ==>
      g.vals[u].style == Paint(g0.vals[u].style, u in log, u in BluesOf(g0, Marks0(g0, source), [source], pops))
  {
    ghost var R := ReachFrom(g0, source);
    ReachFromFacts(g0, source);
    var queue := new Fifo.Queue<string>();
    queue.Enqueue(source);
    ghost var Q := [source];
    var states := map u | u in g0.vals :: g0.vals[u].state;
    var styles := map u | u in g0.vals :: g0.vals[u].style;
    states := states[source := Visited];
    log := [];
    ghost var blue: set<string> := {};
    ghost var U := set u | u in g0.vals && states[u] != Explored;
    BfsStart(g0, source, R, states, styles, U);
    ServedStart(g0, source, states);
    states, styles, log, U, blue, pops :=
      BfsLoop(g0, source, R, Marks0(g0, source), queue, states, styles, log, Q, U, blue, []);
    g := Assemble(g0, states, styles);
    BfsStyles(g0, states, styles, log, blue, g);
    ExploredIsReachable(g0, source, R, states, U);
  }

  /** The records of `g` with the given state slots and styles. */
  function Assemble(g: AdjList, states: map<string, State>, styles: map<string, Style>): (h: AdjList)
    requires states.Keys == g.vals.Keys && styles.Keys == g.vals.Keys
    ensures h.keys == g.keys && h.vals.Keys == g.vals.Keys
    ensures forall u :: u in g.vals ==> h.vals[u] == g.vals[u].(state := states[u], style := styles[u])
  {
    OrderedMap(g.keys, map u | u in g.vals :: g.vals[u].(state := states[u], style := styles[u]))
  }

  /** The `while` loop of BFS (pub/scripts/algorithms/bfs.js:27-47): it
      runs until the queue is empty. */
  method BfsLoop(g0: AdjList, source: string, ghost R: set<string>, ghost M0: set<string>,
                 queue: Fifo.Queue<string>, states0: map<string, State>, styles0: map<string, Style>,
                 log0: seq<string>, ghost Q0: seq<string>, ghost U0: set<string>, ghost blue0: set<string>,
                 ghost pops0: seq<string>)
    returns (states: map<string, State>, styles: map<string, Style>, log: seq<string>,
             ghost U: set<string>, ghost blue: set<string>, ghost pops: seq<string>)
    requires Closed(g0) && R <= g0.vals.Keys
    requires forall u, w :: u in R && w in g0.vals[u].edges.vals ==> w in R
    requires queue.Valid() && queue.Contents() == Q0
    requires BfsInv(g0, source, R, Q0, states0, styles0, log0, U0, blue0, {})
    requires Served(g0, source, M0, states0, Q0, log0, blue0, pops0)
    modifies queue
    ensures BfsInv(g0, source, R, [], states, styles, log, U, blue, {})
    ensures Served(g0, source, M0, states, [], log, blue, pops)
  {
    states, styles, log, U, blue, pops := states0, styles0, log0, U0, blue0, pops0;
    ghost var Q := Q0;
    var empty := queue.IsEmpty();
    while !empty
      invariant queue.Valid() && queue.Contents() == Q
      invariant empty <==> Q == []
      invariant BfsInv(g0, source, R, Q, states, styles, log, U, blue, {})
      invariant Served(g0, source, M0, states, Q, log, blue, pops)
      decreases |U|, CountOut(U, Q)
    {
      states, styles, log, Q, U, blue, pops :=
        BfsIteration(g0, source, R, M0, queue, states, styles, log, Q, U, blue, pops);
      empty := queue.IsEmpty();
    }
  }

  /** What an empty queue leaves, for the styles: painting followed the log
      and the `blue` set. */
  lemma BfsStyles(g0: AdjList, states: map<string, State>, styles: map<string, Style>, log: seq<string>,
                  blue: set<string>, g: AdjList)
    requires StylesInv(g0, styles, [], log, blue, {})
    requires states.Keys == g0.vals.Keys
    requires g == Assemble(g0, states, styles)
    ensures forall u :: u in g0.vals ==>
      g.vals[u].style - {EdgeColor, BorderColor} == g0.vals[u].style - {EdgeColor, BorderColor}
    ensures forall u :: u in g0.vals && u in log ==> Holds(g.vals[u].style, EdgeColor, Str("red"))
    ensures forall u :: u in g0.vals && u !in log ==> g.vals[u].style == g0.vals[u].style
    ensures forall u :: u in g0.vals && !SameAt(g0.vals[u].style, g.vals[u].style, BorderColor) ==>
      Holds(g.vals[u].style, BorderColor, Str("blue"))
  {
    forall u | u in g0.vals
      ensures g.vals[u].style - {EdgeColor, BorderColor} == g0.vals[u].style - {EdgeColor, BorderColor}
      ensures u in log ==> Holds(g.vals[u].style, EdgeColor, Str("red"))
      ensures u !in log ==> g.vals[u].style == g0.vals[u].style
      ensures !SameAt(g0.vals[u].style, g.vals[u].style, BorderColor) ==> Holds(g.vals[u].style, BorderColor, Str("blue"))
    {
      PaintFacts(g0.vals[u].style, u in log, u in blue);
    }
  }

  /** One pass of the BFS `while` body (pub/scripts/algorithms/bfs.js:28-46). */
  method BfsIteration(g0: AdjList, source: string, ghost R: set<string>, ghost M0: set<string>,
                      queue: Fifo.Queue<string>, states0: map<string, State>, styles0: map<string, Style>,
                      log0: seq<string>, ghost Q0: seq<string>, ghost U0: set<string>, ghost blue0: set<string>,
                      ghost pops0: seq<string>)
    returns (states: map<string, State>, styles: map<string, Style>, log: seq<string>,
             ghost Q: seq<string>, ghost U: set<string>, ghost blue: set<string>, ghost pops: seq<string>)
    requires Closed(g0) && R <= g0.vals.Keys
    requires forall u, w :: u in R && w in g0.vals[u].edges.vals ==> w in R
    requires queue.Valid() && queue.Contents() == Q0 && Q0 != []
    requires BfsInv(g0, source, R, Q0, states0, styles0, log0, U0, blue0, {})
    requires Served(g0, source, M0, states0, Q0, log0, blue0, pops0)
    modifies queue
    ensures queue.Valid() && queue.Contents() == Q
    ensures BfsInv(g0, source, R, Q, states, styles, log, U, blue, {})
    ensures Served(g0, source, M0, states, Q, log, blue, pops)
    ensures |U| < |U0| || (|U| == |U0| && CountOut(U, Q) < CountOut(U0, Q0))
  {
    var front := queue.Dequeue();
    var v := front.value;
    Q := Q0[1..];
    FrontAndRest(Q0);
    CountOutFront(U0, Q0);
    ghost var Q1 := Q;
    QueueDequeue(source, R, v, Q, log0);
    StylesDequeue(g0, styles0, v, Q, log0, blue0);
    FrontierTake(g0, Q0, Q, states0, U0, v);
    LoggedGrow(g0, U0, log0, v);
    NeighboursIn(g0, R, v);
    styles := styles0[v := styles0[v][EdgeColor := Str("red")]];
    log := log0 + [v];
    states, styles, log, Q, blue := BfsNeighbours(g0, source, R, M0, pops0, v, queue, states0, styles, log, Q, U0, blue0);
    ServedStep(g0, source, M0, states0, Q0, log0, blue0, pops0, v, Q, log, blue);
    StatesExplore(g0, source, R, states, U0, v);
    StylesRelease(g0, styles, Q, log, blue, v);
    FrontierExplore(g0, Q, states, U0, v);
    LoggedExplore(g0, U0, log, v);
    states := states[v := Explored];
    U := U0 - {v};
    pops := pops0 + [v];
    MeasureDrops(U0, v, Q0, Q1, Q);
  }

  lemma CountOutFront(U: set<string>, q: seq<string>)
    requires q != []
    ensures CountOut(U, q) == CountOut(U, q[1..]) + (if q[0] in U then 0 else 1)
  {
  }

  /** The inner `for` loop of BFS (pub/scripts/algorithms/bfs.js:32-44)
      over the out-neighbours of the dequeued vertex `v`. */
  method BfsNeighbours(g0: AdjList, source: string, ghost R: set<string>, ghost M0: set<string>,
                       ghost pops: seq<string>, v: string, queue: Fifo.Queue<string>,
                       states: map<string, State>, styles0: map<string, Style>, log0: seq<string>,
                       ghost Q0: seq<string>, ghost U: set<string>, ghost blue0: set<string>)
    returns (states': map<string, State>, styles: map<string, Style>, log: seq<string>,
             ghost Q: seq<string>, ghost blue: set<string>)
    requires v in g0.vals && R <= g0.vals.Keys
    requires forall w :: w in g0.vals[v].edges.keys ==> w in R
    requires queue.Valid() && queue.Contents() == Q0
    requires BfsInv(g0, source, R, Q0, states, styles0, log0, U, blue0, {v})
    requires MarksInv(states, M0, pops)
    modifies queue
    ensures queue.Valid() && queue.Contents() == Q
    ensures states' == states
    ensures (Q, log, blue) == Examined(Q0, log0, blue0, g0.vals[v].edges.keys, |g0.vals[v].edges.keys|, M0, pops)
    ensures BfsInv(g0, source, R, Q, states, styles, log, U, blue, {v})
    ensures CountOut(U, Q) == CountOut(U, Q0)
    ensures Clear(g0) ==> Covered(U, Q, v, g0.vals[v].edges.keys)
  {
    states', styles, log, Q, blue := states, styles0, log0, Q0, blue0;
    var ns := g0.vals[v].edges.keys;
    var i := 0;
    ExaminedNone(Q0, log0, blue0, ns, M0, pops);
    while i < |ns|
      invariant 0 <= i <= |ns|
      invariant queue.Valid() && queue.Contents() == Q
      invariant BfsInv(g0, source, R, Q, states, styles, log, U, blue, {v})
      invariant CountOut(U, Q) == CountOut(U, Q0)
      invariant Clear(g0) ==> Covered(U, Q, v, ns[..i])
      invariant (Q, log, blue) == Examined(Q0, log0, blue0, ns, i, M0, pops)
    {
      TakeOneMore(ns, i);
      assert ns[i] in g0.vals[v].edges.keys;
      ghost var Q1, l, b := Q, log, blue;
      styles, log, Q, blue := BfsVisit(g0, source, R, v, ns[i], ns[..i], queue, states, styles, log, Q, U, blue);
      VisitStep(Q0, ns, i, M0, pops, Marked(states[ns[i]]), Q1, log0, l, blue0, b);
      i := i + 1;
    }
    TakeAll(ns);
  }

  /** One pass of the inner loop (pub/scripts/algorithms/bfs.js:33-43):
      neighbour `w` of `v`, after the neighbours `done`. */
  method BfsVisit(g0: AdjList, source: string, ghost R: set<string>, v: string, w: string, ghost done: seq<string>,
                  queue: Fifo.Queue<string>, states: map<string, State>, styles0: map<string, Style>,
                  log0: seq<string>, ghost Q0: seq<string>, ghost U: set<string>, ghost blue0: set<string>)
    returns (styles: map<string, Style>, log: seq<string>, ghost Q: seq<string>, ghost blue: set<string>)
    requires R <= g0.vals.Keys && w in R
    requires queue.Valid() && queue.Contents() == Q0
    requires BfsInv(g0, source, R, Q0, states, styles0, log0, U, blue0, {v})
    requires Clear(g0) ==> Covered(U, Q0, v, done)
    modifies queue
    ensures queue.Valid() && queue.Contents() == Q
    ensures BfsInv(g0, source, R, Q, states, styles, log, U, blue, {v})
    ensures CountOut(U, Q) == CountOut(U, Q0)
    ensures Clear(g0) ==> Covered(U, Q, v, done + [w])
    ensures w in states && Q == Q0 + (if Marked(states[w]) then [] else [w]) && log == log0 + [w]
    ensures blue == blue0 + (if Marked(states[w]) then {} else {(Q0 + [w])[0]})
  {
    QueueLog(source, R, Q0, log0, w);
    StylesRed(g0, styles0, Q0, log0, blue0, {v}, w);
    LoggedGrow(g0, U, log0, w);
    log := log0 + [w];
    styles := styles0[w := styles0[w][EdgeColor := Str("red")]];
    Q, blue := Q0, blue0;
    if !Marked(states[w]) {
      CountOutSnoc(U, Q, w);
      queue.Enqueue(w);
      var front := queue.Peek();
      var f := front.value;
      QueueEnqueue(source, R, Q, log, w);
      StylesBlue(g0, styles, Q, log, blue, {v}, w, f);
      FrontierGrow(g0, Q, Q + [w], states, U, {v});
      CoveredStep(g0, source, R, states, U, Q, Q + [w], v, done, w);
      Q := Q + [w];
      styles := styles[f := styles[f][BorderColor := Str("blue")]];
      blue := blue + {f};
    } else {
      CoveredStep(g0, source, R, states, U, Q, Q, v, done, w);
    }
  }
}
