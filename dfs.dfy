/** The depth-first runner of pub/scripts/algorithms/dfs.js, without its
    pauses and redraws.

    `Dfs` is the part of the source after the presence check on the source
    vertex. It returns the new adjacency list (edge styles, vertex styles and
    state slots written) and the names it appended to `styledVertices.dfs`:
    the popped vertex once per out-neighbour examined, and, as a ghost, the
    vertices in the order they were popped, which `Replay` ties to the stack
    discipline. The stack is a local JavaScript array, here a sequence whose
    last element is the top. The
    flag writes, the `throw` on an absent source and the final reset of slot
    4 belong to the graph (graph.dfy). */
module DepthFirst {
  import opened Values
  import opened Adjacency
  import opened Traversal

  /** `vertexInfo[0].get(neighbour)[1].edgeColor = "red"`. */
  function RedEdge(e: Edge): Edge
  {
    e.(style := e.style[EdgeColor := Str("red")])
  }

  /** An edges Map with the edges to the targets in `T` painted red. */
  function RedTo(e: OrderedMap<Edge>, T: seq<string>): OrderedMap<Edge>
  {
    OrderedMap(e.keys, map t | t in e.vals :: if t in T then RedEdge(e.vals[t]) else e.vals[t])
  }

  /** Painting leaves the targets, their order and the weights alone, paints
      exactly the edges to `T`, and in those changes only `edgeColor`. */
  lemma RedToFacts(e: OrderedMap<Edge>, T: seq<string>)
    ensures RedTo(e, T).keys == e.keys && RedTo(e, T).vals.Keys == e.vals.Keys
    ensures forall t :: t in e.vals ==> RedTo(e, T).vals[t].weight == e.vals[t].weight
    ensures forall t :: t in e.vals && t in T ==> Holds(RedTo(e, T).vals[t].style, EdgeColor, Str("red"))
    ensures forall t :: t in e.vals && t in T ==>
      RedTo(e, T).vals[t].style - {EdgeColor} == e.vals[t].style - {EdgeColor}
    ensures forall t :: t in e.vals && t !in T ==> RedTo(e, T).vals[t] == e.vals[t]
  {
  }

  /** The `edgeColor` write on the edge to `w` paints one more target. */
  lemma RedToStep(e: OrderedMap<Edge>, T: seq<string>, w: string)
    requires w in e.vals
    ensures RedTo(e, T).Update(w, RedEdge(RedTo(e, T).vals[w])) == RedTo(e, T + [w])
  {
    var a := RedTo(e, T).Update(w, RedEdge(RedTo(e, T).vals[w]));
    var b := RedTo(e, T + [w]);
    forall t | t in e.vals
      ensures a.vals[t] == b.vals[t]
    {
      if t == w && w in T {
        assert RedEdge(RedEdge(e.vals[t])) == RedEdge(e.vals[t]);
      }
    }
    assert a.vals == b.vals;
  }

  /** Only which targets are painted matters. */
  lemma RedToSame(e: OrderedMap<Edge>, T1: seq<string>, T2: seq<string>)
    requires forall t :: t in e.vals ==> (t in T1 <==> t in T2)
    ensures RedTo(e, T1) == RedTo(e, T2)
  {
    assert RedTo(e, T1).vals == RedTo(e, T2).vals;
  }

  lemma RedToNone(e: OrderedMap<Edge>)
    ensures RedTo(e, []) == e
  {
    assert RedTo(e, []).vals == e.vals;
  }

  /** `vertexInfo[3].vertexColor = "blue"`, if `b`. */
  function Blue(s: Style, b: bool): Style
  {
    if b then s[VertexColor := Str("blue")] else s
  }

  /** A record the run has finished with: blue `vertexColor`, every edge
      red, "explored". */
  ghost predicate Finished(r0: Vertex, r: Vertex)
  {
    r == r0.(style := Blue(r0.style, true), edges := RedTo(r0.edges, r0.edges.keys), state := Explored)
  }

  /** What a finished record looks like, property by property. */
  lemma FinishedFacts(r0: Vertex, r: Vertex)
    requires Finished(r0, r) && r0.edges.Valid()
    ensures r.x == r0.x && r.y == r0.y && r.setTag == r0.setTag && r.state == Explored
    ensures Holds(r.style, VertexColor, Str("blue")) && r.style - {VertexColor} == r0.style - {VertexColor}
    ensures r.edges.keys == r0.edges.keys && r.edges.vals.Keys == r0.edges.vals.Keys
    ensures forall t :: t in r0.edges.vals ==>
      && r.edges.vals[t].weight == r0.edges.vals[t].weight
      && Holds(r.edges.vals[t].style, EdgeColor, Str("red"))
      && r.edges.vals[t].style - {EdgeColor} == r0.edges.vals[t].style - {EdgeColor}
  {
    RedToFacts(r0.edges, r0.edges.keys);
  }

  // The DFS loop invariant has six parts: the marks and the frontier from
  // Traversal, and the four below. `S` is the stack, `popped` the vertices
  // whose neighbours have all been examined, `pending` holds the vertex whose
  // neighbours are being examined, if any, `v`, and `done` those neighbours
  // of `v` already examined.

  /** Stack, log and finished vertices are reachable; the logged ones have
      out-edges, and finished ones with out-edges are logged. */
  ghost predicate StackInv(g0: AdjList, source: string, R: set<string>, S: seq<string>, log: seq<string>,
                           popped: set<string>, pending: set<string>)
  {
    && (forall q :: q in S ==> q in R)
    && (forall u :: u in log ==> u in R && u in g0.vals && g0.vals[u].edges.keys != [])
    && (forall u :: u in popped ==> u in R)
    && (forall u :: u in popped && u in g0.vals && g0.vals[u].edges.keys != [] ==> u in log)
    && (log != [] ==> log[0] == source)
    && (log == [] ==> (forall q :: q in S ==> q == source) && (forall q :: q in pending ==> q == source))
  }

  /** Finished vertices have a blue `vertexColor`; the others are untouched. */
  ghost predicate ColorsInv(g0: AdjList, styles: map<string, Style>, popped: set<string>)
  {
    && styles.Keys == g0.vals.Keys
    && (forall u :: u in styles ==> styles[u] == Blue(g0.vals[u].style, u in popped))
  }

  /** The edges to red targets: all of a finished vertex's, those in `done`
      for `v`, none otherwise. */
  ghost predicate EdgesInv(g0: AdjList, edges: map<string, OrderedMap<Edge>>, popped: set<string>, v: string,
                           done: seq<string>)
  {
    && edges.Keys == g0.vals.Keys
    && (forall u :: u in edges ==> edges[u] == RedTo(g0.vals[u].edges, Reds(g0, popped, u) + (if u == v then done else [])))
  }

  ghost function Reds(g0: AdjList, popped: set<string>, u: string): seq<string>
    requires u in g0.vals
  {
    if u in popped then g0.vals[u].edges.keys else []
  }

  /** Finished vertices are explored; from an unmarked start, explored
      vertices are finished. */
  ghost predicate PoppedInv(g0: AdjList, U: set<string>, popped: set<string>)
  {
    && (forall u :: u in popped ==> u !in U)
    && (Clear(g0) ==> forall u :: u in g0.vals && u !in U ==> u in popped)
  }

  ghost predicate DfsInv(g0: AdjList, source: string, R: set<string>, S: seq<string>,
                         states: map<string, State>, styles: map<string, Style>,
                         edges: map<string, OrderedMap<Edge>>, log: seq<string>, U: set<string>,
                         popped: set<string>, v: string, done: seq<string>, pending: set<string>)
  {
    && StatesInv(g0, source, R, states, U)
    && StackInv(g0, source, R, S, log, popped, pending)
    && ColorsInv(g0, styles, popped)
    && EdgesInv(g0, edges, popped, v, done)
    && Frontier(g0, S, states, U, pending)
    && PoppedInv(g0, U, popped)
  }

  /** `v`, `n` times. */
  function Copies(v: string, n: nat): seq<string>
  {
    if n == 0 then [] else Copies(v, n - 1) + [v]
  }

  /** The `styledVertices.dfs` entries of the pops `pops`: each popped vertex
      once per out-neighbour, every time it is popped. */
  ghost function LogOf(g0: AdjList, pops: seq<string>): seq<string>
    decreases |pops|
  {
    if pops == [] then []
    else
      var v := pops[|pops| - 1];
      LogOf(g0, pops[..|pops| - 1]) + (if v in g0.vals then Copies(v, |g0.vals[v].edges.keys|) else [])
  }

  /** The stack and the log are those of the pops so far. */
  ghost predicate Traced(g0: AdjList, source: string, M0: set<string>, states: map<string, State>,
                         S: seq<string>, log: seq<string>, pops: seq<string>)
  {
    && MarksInv(states, M0, pops)
    && Replay(g0, M0, [source], pops, true) == Some(S)
    && log == LogOf(g0, pops)
  }

  lemma TracedStart(g0: AdjList, source: string, states: map<string, State>)
    requires source in g0.vals
    requires states == (map u | u in g0.vals :: g0.vals[u].state)[source := Visited]
    ensures Traced(g0, source, Marks0(g0, source), states, [source], [], [])
  {
    MarksStart(g0, source, states);
  }

  /** Popping the top `v` and pushing its unmarked out-neighbours. */
  lemma TracedStep(g0: AdjList, source: string, M0: set<string>, states: map<string, State>, S: seq<string>,
                   log: seq<string>, pops: seq<string>, v: string, S': seq<string>, log': seq<string>)
    requires Traced(g0, source, M0, states, S, log, pops)
    requires S != [] && S[|S| - 1] == v && v in g0.vals && v in states
    requires S' == S[..|S| - 1] + Unmarked(g0.vals[v].edges.keys, |g0.vals[v].edges.keys|, M0, pops)
    requires log' == log + Copies(v, |g0.vals[v].edges.keys|)
    ensures Traced(g0, source, M0, states[v := Explored], S', log', pops + [v])
  {
    assert (pops + [v])[..|pops|] == pops;
  }

  lemma CopiesStep(log0: seq<string>, log: seq<string>, v: string, i: nat)
    requires log == log0 + Copies(v, i)
    ensures log + [v] == log0 + Copies(v, i + 1)
  {
  }

  /** The log of one more pop `v`. */
  lemma LogNext(g0: AdjList, pops: seq<string>, log: seq<string>, v: string, pops': seq<string>, log': seq<string>)
    requires LogOf(g0, pops) == log && v in g0.vals && pops' == pops + [v]
    requires log' == log + Copies(v, |g0.vals[v].edges.keys|)
    ensures LogOf(g0, pops') == log'
  {
    assert pops'[..|pops|] == pops;
  }

  /** The state before the loop (pub/scripts/algorithms/dfs.js:12-16). */
  lemma DfsStart(g0: AdjList, source: string, R: set<string>, states: map<string, State>,
                 styles: map<string, Style>, edges: map<string, OrderedMap<Edge>>, U: set<string>)
    requires source in R && R <= g0.vals.Keys
    requires states == (map u | u in g0.vals :: g0.vals[u].state)[source := Visited]
    requires styles == map u | u in g0.vals :: g0.vals[u].style
    requires edges == map u | u in g0.vals :: g0.vals[u].edges
    requires U == set u | u in g0.vals && states[u] != Explored
    ensures DfsInv(g0, source, R, [source], states, styles, edges, [], U, {}, source, [], {})
  {
    StartStates(g0, source, R, states, U);
    StartFrontier(g0, source, states, U);
    StartEdges(g0, source, edges);
    StartPopped(g0, source, states, U);
  }

  lemma StartEdges(g0: AdjList, source: string, edges: map<string, OrderedMap<Edge>>)
    requires edges == map u | u in g0.vals :: g0.vals[u].edges
    ensures EdgesInv(g0, edges, {}, source, [])
  {
    forall u | u in edges
      ensures edges[u] == RedTo(g0.vals[u].edges, Reds(g0, {}, u) + (if u == source then [] else []))
    {
      assert Reds(g0, {}, u) + [] == [];
      RedToNone(g0.vals[u].edges);
    }
  }

  lemma StartPopped(g0: AdjList, source: string, states: map<string, State>, U: set<string>)
    requires states == (map u | u in g0.vals :: g0.vals[u].state)[source := Visited]
    requires U == set u | u in g0.vals && states[u] != Explored
    ensures PoppedInv(g0, U, {})
  {
  }

  // Popping `v` off `S + [v]`.

  lemma StackPop(g0: AdjList, source: string, R: set<string>, S: seq<string>, log: seq<string>,
                 popped: set<string>, v: string)
    requires StackInv(g0, source, R, S + [v], log, popped, {})
    ensures StackInv(g0, source, R, S, log, popped, {v}) && v in R
    ensures forall q :: q in S + [v] ==> q in S || q == v
  {
    assert v in S + [v];
    assert forall q :: q in S ==> q in S + [v];
  }

  lemma EdgesPop(g0: AdjList, edges: map<string, OrderedMap<Edge>>, popped: set<string>, v0: string, v: string)
    requires EdgesInv(g0, edges, popped, v0, [])
    ensures EdgesInv(g0, edges, popped, v, [])
  {
  }

  // Examining neighbour `w` of `v`: `v` is logged, the edge to `w` painted.

  lemma StackLog(g0: AdjList, source: string, R: set<string>, S: seq<string>, log: seq<string>,
                 popped: set<string>, v: string)
    requires StackInv(g0, source, R, S, log, popped, {v}) && v in R && v in g0.vals
    requires g0.vals[v].edges.keys != []
    ensures StackInv(g0, source, R, S, log + [v], popped, {v})
  {
  }

  lemma EdgesRed(g0: AdjList, edges: map<string, OrderedMap<Edge>>, popped: set<string>, v: string,
                 done: seq<string>, w: string)
    requires EdgesInv(g0, edges, popped, v, done) && v in g0.vals && w in g0.vals[v].edges.vals
    ensures w in edges[v].vals
    ensures EdgesInv(g0, edges[v := edges[v].Update(w, RedEdge(edges[v].vals[w]))], popped, v, done + [w])
  {
    var T := Reds(g0, popped, v) + done;
    RedToStep(g0.vals[v].edges, T, w);
    assert T + [w] == Reds(g0, popped, v) + (done + [w]);
  }

  lemma StackPush(g0: AdjList, source: string, R: set<string>, S: seq<string>, log: seq<string>,
                  popped: set<string>, v: string, w: string)
    requires StackInv(g0, source, R, S, log, popped, {v}) && w in R && log != []
    ensures StackInv(g0, source, R, S + [w], log, popped, {v})
  {
  }

  // After the neighbours, `v` is finished.

  lemma ColorsFinish(g0: AdjList, styles: map<string, Style>, popped: set<string>, v: string)
    requires ColorsInv(g0, styles, popped) && v in g0.vals
    ensures ColorsInv(g0, styles[v := styles[v][VertexColor := Str("blue")]], popped + {v})
  {
  }

  lemma EdgesFinish(g0: AdjList, edges: map<string, OrderedMap<Edge>>, popped: set<string>, v: string, v': string)
    requires v in g0.vals && EdgesInv(g0, edges, popped, v, g0.vals[v].edges.keys)
    ensures EdgesInv(g0, edges, popped + {v}, v', [])
  {
    forall u | u in edges
      ensures edges[u] == RedTo(g0.vals[u].edges, Reds(g0, popped + {v}, u) + (if u == v' then [] else []))
    {
      assert Reds(g0, popped + {v}, u) + [] == Reds(g0, popped + {v}, u);
      if u == v {
        RedToSame(g0.vals[u].edges, Reds(g0, popped, u) + g0.vals[v].edges.keys, Reds(g0, popped + {v}, u));
      } else {
        assert Reds(g0, popped, u) + [] == Reds(g0, popped + {v}, u);
      }
    }
  }

  lemma StackFinish(g0: AdjList, source: string, R: set<string>, S: seq<string>, log: seq<string>,
                    popped: set<string>, v: string)
    requires StackInv(g0, source, R, S, log, popped, {v}) && v in R
    requires v in g0.vals && g0.vals[v].edges.keys != [] ==> v in log
    ensures StackInv(g0, source, R, S, log, popped + {v}, {})
  {
  }

  lemma PoppedFinish(g0: AdjList, U: set<string>, popped: set<string>, v: string)
    requires PoppedInv(g0, U, popped)
    ensures PoppedInv(g0, U - {v}, popped + {v})
  {
  }

  /** The DFS run (pub/scripts/algorithms/dfs.js:12-48): the source is
      marked "visited" and pushed; each popped vertex is logged once per
      out-neighbour, in insertion order, the edge to that neighbour gets a
      red `edgeColor`, and an unmarked neighbour is pushed; then the popped
      vertex gets a blue `vertexColor` and becomes "explored". Pushing does
      not mark, so a vertex can be on the stack more than once.

      The loop always ends. Only reachable vertices are touched, each either
      left alone or finished; from an unmarked start exactly the reachable
      vertices are finished, and every one of them with out-edges is
      logged. */
  method Dfs(g0: AdjList, source: string) returns (g: AdjList, log: seq<string>, ghost pops: seq<string>)
    requires Closed(g0) && source in g0.vals
    ensures g.keys == g0.keys && g.vals.Keys == g0.vals.Keys
    ensures log != [] ==> log[0] == source
    ensures forall u :: u in log ==> u in ReachFrom(g0, source) && g0.vals[u].edges.keys != []
    ensures forall u :: u in g0.vals ==>
      g.vals[u] == g0.vals[u].(state := g.vals[u].state) || Finished(g0.vals[u], g.vals[u])
    ensures forall u :: u in g0.vals && u !in ReachFrom(g0, source) ==> g.vals[u] == g0.vals[u]
    ensures Clear(g0) ==> forall u :: u in ReachFrom(g0, source) ==> Finished(g0.vals[u], g.vals[u])
    ensures Clear(g0) ==> forall u :: u in ReachFrom(g0, source) && g0.vals[u].edges.keys != [] ==> u in log
    ensures Replay(g0, Marks0(g0, source), [source], pops, true) == Some([]) && log == LogOf(g0, pops)
  {
    ghost var R := ReachFrom(g0, source);
    ReachFromFacts(g0, source);
    var stack := [source];
    var states := map u | u in g0.vals :: g0.vals[u].state;
    var styles := map u | u in g0.vals :: g0.vals[u].style;
    var edges := map u | u in g0.vals :: g0.vals[u].edges;
    states := states[source := Visited];
    log := [];
    ghost var popped: set<string> := {};
    ghost var U := set u | u in g0.vals && states[u] != Explored;
    DfsStart(g0, source, R, states, styles, edges, U);
    TracedStart(g0, source, states);
    states, styles, edges, log, U, popped, pops :=
      DfsLoop(g0, source, R, Marks0(g0, source), stack, states, styles, edges, log, U, popped, []);
    g := AssembleAll(g0, states, styles, edges);
    ExploredIsReachable(g0, source, R, states, U);
    DfsResult(g0, source, R, states, styles, edges, log, U, popped, g);
  }

  /** The records of `g` with the given state slots, styles and edges. */
  function AssembleAll(g: AdjList, states: map<string, State>, styles: map<string, Style>,
                       edges: map<string, OrderedMap<Edge>>): (h: AdjList)
    requires states.Keys == g.vals.Keys && styles.Keys == g.vals.Keys && edges.Keys == g.vals.Keys
    ensures h.keys == g.keys && h.vals.Keys == g.vals.Keys
    ensures forall u :: u in g.vals ==>
      h.vals[u] == g.vals[u].(state := states[u], style := styles[u], edges := edges[u])
  {
    OrderedMap(g.keys, map u | u in g.vals :: g.vals[u].(state := states[u], style := styles[u], edges := edges[u]))
  }

  /** What an empty stack leaves. */
  lemma DfsResult(g0: AdjList, source: string, R: set<string>, states: map<string, State>,
                  styles: map<string, Style>, edges: map<string, OrderedMap<Edge>>, log: seq<string>,
                  U: set<string>, popped: set<string>, g: AdjList)
    requires R <= g0.vals.Keys
    requires StatesInv(g0, source, R, states, U) && StackInv(g0, source, R, [], log, popped, {})
    requires ColorsInv(g0, styles, popped) && EdgesInv(g0, edges, popped, source, []) && PoppedInv(g0, U, popped)
    requires Clear(g0) ==> R == g0.vals.Keys - U
    requires g == AssembleAll(g0, states, styles, edges)
    ensures forall u :: u in g0.vals ==>
      g.vals[u] == g0.vals[u].(state := g.vals[u].state) || Finished(g0.vals[u], g.vals[u])
    ensures forall u :: u in g0.vals && u !in R ==> g.vals[u] == g0.vals[u]
    ensures Clear(g0) ==> forall u :: u in R ==> Finished(g0.vals[u], g.vals[u])
    ensures Clear(g0) ==> forall u :: u in R && g0.vals[u].edges.keys != [] ==> u in log
  {
    forall u | u in g0.vals
      ensures u in popped ==> Finished(g0.vals[u], g.vals[u])
      ensures u !in popped ==> g.vals[u] == g0.vals[u].(state := g.vals[u].state)
    {
      assert Reds(g0, popped, u) + [] == Reds(g0, popped, u);
      if u !in popped {
        RedToNone(g0.vals[u].edges);
      }
    }
  }

  /** The `while` loop of DFS (pub/scripts/algorithms/dfs.js:26-48): it runs
      until the stack is empty. */
  method DfsLoop(g0: AdjList, source: string, ghost R: set<string>, ghost M0: set<string>, S0: seq<string>,
                 states0: map<string, State>, styles0: map<string, Style>, edges0: map<string, OrderedMap<Edge>>,
                 log0: seq<string>, ghost U0: set<string>, ghost popped0: set<string>, ghost pops0: seq<string>)
    returns (states: map<string, State>, styles: map<string, Style>, edges: map<string, OrderedMap<Edge>>,
             log: seq<string>, ghost U: set<string>, ghost popped: set<string>, ghost pops: seq<string>)
    requires Closed(g0) && R <= g0.vals.Keys
    requires forall u, w :: u in R && w in g0.vals[u].edges.vals ==> w in R
    requires DfsInv(g0, source, R, S0, states0, styles0, edges0, log0, U0, popped0, source, [], {})
    requires Traced(g0, source, M0, states0, S0, log0, pops0)
    ensures DfsInv(g0, source, R, [], states, styles, edges, log, U, popped, source, [], {})
    ensures Traced(g0, source, M0, states, [], log, pops)
  {
    states, styles, edges, log, U, popped, pops := states0, styles0, edges0, log0, U0, popped0, pops0;
    var stack := S0;
    while |stack| > 0
      invariant DfsInv(g0, source, R, stack, states, styles, edges, log, U, popped, source, [], {})
      invariant Traced(g0, source, M0, states, stack, log, pops)
      decreases |U|, CountOut(U, stack)
    {
      stack, states, styles, edges, log, U, popped, pops :=
        DfsIteration(g0, source, R, M0, stack, states, styles, edges, log, U, popped, pops);
    }
  }

  /** One pass of the DFS `while` body (pub/scripts/algorithms/dfs.js:27-47). */
  method DfsIteration(g0: AdjList, source: string, ghost R: set<string>, ghost M0: set<string>, S0: seq<string>,
                      states0: map<string, State>, styles0: map<string, Style>,
                      edges0: map<string, OrderedMap<Edge>>, log0: seq<string>,
                      ghost U0: set<string>, ghost popped0: set<string>, ghost pops0: seq<string>)
    returns (stack: seq<string>, states: map<string, State>, styles: map<string, Style>,
             edges: map<string, OrderedMap<Edge>>, log: seq<string>, ghost U: set<string>,
             ghost popped: set<string>, ghost pops: seq<string>)
    requires Closed(g0) && R <= g0.vals.Keys
    requires forall u, w :: u in R && w in g0.vals[u].edges.vals ==> w in R
    requires S0 != []
    requires DfsInv(g0, source, R, S0, states0, styles0, edges0, log0, U0, popped0, source, [], {})
    requires Traced(g0, source, M0, states0, S0, log0, pops0)
    ensures DfsInv(g0, source, R, stack, states, styles, edges, log, U, popped, source, [], {})
    ensures Traced(g0, source, M0, states, stack, log, pops)
    ensures |U| < |U0| || (|U| == |U0| && CountOut(U, stack) < CountOut(U0, S0))
  {
    var v := S0[|S0| - 1];
    stack := S0[..|S0| - 1];
    RestAndLast(S0);
    CountOutSnoc(U0, stack, v);
    ghost var S1 := stack;
    StackPop(g0, source, R, stack, log0, popped0, v);
    FrontierTake(g0, S0, stack, states0, U0, v);
    EdgesPop(g0, edges0, popped0, source, v);
    NeighboursIn(g0, R, v);
    stack, edges, log := DfsNeighbours(g0, source, R, M0, pops0, v, stack, states0, styles0, edges0, log0, U0, popped0);
    TracedStep(g0, source, M0, states0, S0, log0, pops0, v, stack, log);
    StatesExplore(g0, source, R, states0, U0, v);
    FrontierExplore(g0, stack, states0, U0, v);
    ColorsFinish(g0, styles0, popped0, v);
    EdgesFinish(g0, edges, popped0, v, source);
    StackFinish(g0, source, R, stack, log, popped0, v);
    PoppedFinish(g0, U0, popped0, v);
    styles := styles0[v := styles0[v][VertexColor := Str("blue")]];
    states := states0[v := Explored];
    U := U0 - {v};
    popped := popped0 + {v};
    pops := pops0 + [v];
    MeasureDrops(U0, v, S0, S1, stack);
  }

  /** The inner `for` loop of DFS (pub/scripts/algorithms/dfs.js:29-42)
      over the out-neighbours of the popped vertex `v`. */
  method DfsNeighbours(g0: AdjList, source: string, ghost R: set<string>, ghost M0: set<string>,
                       ghost pops: seq<string>, v: string, S0: seq<string>,
                       states: map<string, State>, styles: map<string, Style>,
                       edges0: map<string, OrderedMap<Edge>>, log0: seq<string>,
                       ghost U: set<string>, ghost popped: set<string>)
    returns (stack: seq<string>, edges: map<string, OrderedMap<Edge>>, log: seq<string>)
    requires v in g0.vals && R <= g0.vals.Keys && v in R && g0.vals[v].edges.Valid()
    requires forall w :: w in g0.vals[v].edges.keys ==> w in R
    requires DfsInv(g0, source, R, S0, states, styles, edges0, log0, U, popped, v, [], {v})
    requires MarksInv(states, M0, pops)
    ensures DfsInv(g0, source, R, stack, states, styles, edges, log, U, popped, v, g0.vals[v].edges.keys, {v})
    ensures stack == S0 + Unmarked(g0.vals[v].edges.keys, |g0.vals[v].edges.keys|, M0, pops)
    ensures log == log0 + Copies(v, |g0.vals[v].edges.keys|)
    ensures CountOut(U, stack) == CountOut(U, S0)
    ensures Clear(g0) ==> Covered(U, stack, v, g0.vals[v].edges.keys)
    ensures g0.vals[v].edges.keys != [] ==> v in log
  {
    stack, edges, log := S0, edges0, log0;
    var ns := g0.vals[v].edges.keys;
    var i := 0;
    while i < |ns|
      invariant 0 <= i <= |ns|
      invariant DfsInv(g0, source, R, stack, states, styles, edges, log, U, popped, v, ns[..i], {v})
      invariant CountOut(U, stack) == CountOut(U, S0)
      invariant Clear(g0) ==> Covered(U, stack, v, ns[..i])
      invariant i > 0 ==> v in log
      invariant stack == S0 + Unmarked(ns, i, M0, pops) && log == log0 + Copies(v, i)
    {
      TakeOneMore(ns, i);
      assert ns[i] in g0.vals[v].edges.vals;
      ghost var S, l := stack, log;
      stack, edges, log := DfsVisit(g0, source, R, v, ns[i], ns[..i], stack, states, styles, edges, log, U, popped);
      PushedStep(S0, ns, i, M0, pops, Marked(states[ns[i]]), S);
      CopiesStep(log0, l, v, i);
      i := i + 1;
    }
    TakeAll(ns);
  }

  /** One pass of the inner loop (pub/scripts/algorithms/dfs.js:30-41):
      neighbour `w` of `v`, after the neighbours `done`. */
  method DfsVisit(g0: AdjList, source: string, ghost R: set<string>, v: string, w: string,
                  ghost done: seq<string>, S0: seq<string>, states: map<string, State>, styles: map<string, Style>,
                  edges0: map<string, OrderedMap<Edge>>, log0: seq<string>,
                  ghost U: set<string>, ghost popped: set<string>)
    returns (stack: seq<string>, edges: map<string, OrderedMap<Edge>>, log: seq<string>)
    requires v in g0.vals && R <= g0.vals.Keys && v in R
    requires g0.vals[v].edges.Valid() && w in g0.vals[v].edges.vals && w in R
    requires DfsInv(g0, source, R, S0, states, styles, edges0, log0, U, popped, v, done, {v})
    requires Clear(g0) ==> Covered(U, S0, v, done)
    ensures DfsInv(g0, source, R, stack, states, styles, edges, log, U, popped, v, done + [w], {v})
    ensures CountOut(U, stack) == CountOut(U, S0)
    ensures Clear(g0) ==> Covered(U, stack, v, done + [w])
    ensures v in log
    ensures w in states && stack == S0 + (if Marked(states[w]) then [] else [w]) && log == log0 + [v]
  {
    assert w in g0.vals[v].edges.keys;
    StackLog(g0, source, R, S0, log0, popped, v);
    EdgesRed(g0, edges0, popped, v, done, w);
    log := log0 + [v];
    edges := edges0[v := edges0[v].Update(w, RedEdge(edges0[v].vals[w]))];
    stack := S0;
    if !Marked(states[w]) {
      CountOutSnoc(U, stack, w);
      StackPush(g0, source, R, stack, log, popped, v, w);
      FrontierGrow(g0, stack, stack + [w], states, U, {v});
      CoveredStep(g0, source, R, states, U, stack, stack + [w], v, done, w);
      stack := stack + [w];
    } else {
      CoveredStep(g0, source, R, states, U, stack, stack, v, done, w);
    }
  }
}
