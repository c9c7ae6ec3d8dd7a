/** The `Graph` class of pub/scripts/graph.js: an adjacency list, the
    options, the lists of restyled vertices and the flags the mouse
    handlers and the algorithm buttons read and write.

    Every field is a field of the class; the records themselves are values
    (module Adjacency), so where the source keeps a reference to a record
    in `styledVertices`, the model keeps the vertex name. Canvas drawing,
    the listeners' registration and the `sleep` between steps have no
    counterpart; each handler and runner is one method. */
module Graph {
  import opened Values
  import opened Adjacency
  import opened Editing
  import Traversal
  import BreadthFirst
  import DepthFirst
  import Kruskal
  import Prim
  import Weighted

  /** How a call ends: normally, or with the value it throws. */
  datatype Outcome = Done | Thrown(message: string)

  /** The handler flags and positions of a graph, as one value. */
  datatype Status = Status(mouseDown: bool, running: bool, current: Option<string>,
                           mousePos: (int, int), positionOnClick: Option<(int, int)>, stable: bool)

  /** `styledVertices`: kind ("selected" or an algorithm name) to the
      vertices restyled under it, in push order. */
  type Styled = map<string, seq<string>>

  /** The message `populateAdjListFromJSObject` throws. */
  const NotAnObject := "Adjacency list data source must be a JS object."

  /** What Prim's runner throws on an empty list, where it reads the edges
      of a first vertex that does not exist. */
  const NoRoot := "TypeError"

  /** The list held under `k`, the empty list when `k` is absent. */
  function Listed(sv: Styled, k: string): seq<string>
  {
    if k in sv then sv[k] else []
  }

  /** `l` pushed onto the list under `k`, which is created when absent. */
  function Pushed(sv: Styled, k: string, l: seq<string>): (r: Styled)
    ensures r.Keys == sv.Keys + {k}
    ensures r[k] == Listed(sv, k) + l
    ensures forall j :: j in sv && j != k ==> r[j] == sv[j]
  {
    sv[k := Listed(sv, k) + l]
  }

  /** The property `styledVertices[type]` reads: `null` becomes "null". */
  function KeyOf(kind: Option<string>): (k: string)
    ensures kind.Some? ==> k == kind.value
  {
    if kind.None? then "null" else kind.value
  }

  /** Every listed vertex is a vertex of `g`. */
  ghost predicate Names(g: AdjList, sv: Styled)
  {
    forall k, u :: k in sv && u in sv[k] ==> u in g.vals
  }

  /** What holds between handlers: the list is well formed with every
      state slot empty, and every listed vertex exists. */
  ghost predicate Sound(g: AdjList, sv: Styled)
  {
    Closed(g) && AllReset(g) && Names(g, sv)
  }

  // ---------------------------------------------------------------------
  // The operations on values

  /** `unstyleVertices(kind)` on the records: the vertices listed under
      the kind unstyled in list order; nothing when the kind is absent. */
  function Unstyle(g: AdjList, sv: Styled, kind: Option<string>): (h: AdjList)
    requires Names(g, sv)
    ensures h.keys == g.keys && h.vals.Keys == g.vals.Keys
  {
    var k := KeyOf(kind);
    if k in sv then Unstyled(g, sv[k], |sv[k]|) else g
  }

  /** `unstyleVertices(kind)` on the lists: the kind's list emptied. */
  function Cleared(sv: Styled, kind: Option<string>): (r: Styled)
    ensures r.Keys == sv.Keys
    ensures KeyOf(kind) in sv ==> r[KeyOf(kind)] == []
    ensures forall j :: j in sv && j != KeyOf(kind) ==> r[j] == sv[j]
  {
    var k := KeyOf(kind);
    if k in sv then sv[k := []] else sv
  }

  /** The records after `drawToCanvas`: clamped on the first draw only. */
  function Drawn(g: AdjList, stable: bool, width: int, height: int): AdjList
  {
    if stable then g else MapRecords(g, ClampRecord(width, height))
  }

  /** `styledVertices` after `styleSelectedVertex`: the hit vertex, if
      any, pushed under "selected". */
  function SelectionPushed(g: AdjList, sv: Styled, px: int, py: int): Styled
    requires Closed(g)
  {
    match FirstHit(g, g.keys, px, py)
    case None => sv
    case Some(u) => Pushed(sv, "selected", [u])
  }

  /** `moveVertex` on the records: vertex `u` placed at (x, y). */
  function MovedTo(g: AdjList, u: string, x: int, y: int): (h: AdjList)
    requires u in g.vals
  {
    g.Update(u, g.vals[u].(x := x, y := y))
  }

  /** Moving a vertex changes its position and nothing else; moving it
      back restores the graph. */
  lemma MovedToFacts(g: AdjList, u: string, x: int, y: int)
    requires u in g.vals
    ensures var h := MovedTo(g, u, x, y);
      && h.keys == g.keys && h.vals.Keys == g.vals.Keys
      && h.vals[u] == g.vals[u].(x := x, y := y)
      && (forall v :: v in g.vals && v != u ==> h.vals[v] == g.vals[v])
      && MovedTo(h, u, g.vals[u].x, g.vals[u].y) == g
  {
    var h := MovedTo(g, u, x, y);
    assert MovedTo(h, u, g.vals[u].x, g.vals[u].y).vals == g.vals;
  }

  /** `options.directed` is truthy. */
  predicate DirectedOn(o: Style)
  {
    "directed" in o && Truthy(o["directed"])
  }

  /** The options while an MST runner works: `directed` set false if it
      was truthy. */
  function Undirected(o: Style): (r: Style)
    ensures !DirectedOn(r)
    ensures r.Keys == o.Keys
    ensures forall k :: k in o && k != "directed" ==> r[k] == o[k]
  {
    if DirectedOn(o) then o["directed" := Bool(false)] else o
  }

  /** The options after an MST runner: `directed` set back to `true` if it
      was truthy. */
  function Redirected(o: Style): (r: Style)
    ensures DirectedOn(r) <==> DirectedOn(o)
    ensures r.Keys == o.Keys
    ensures forall k :: k in o && k != "directed" ==> r[k] == o[k]
  {
    if DirectedOn(o) then o["directed" := Bool(true)] else o
  }

  /** Options completed by the constructor without a `directed` of their
      own hold `directed: true`, so an MST run restores them exactly; in
      general a run restores them up to the truthiness of `directed`. */
  lemma RedirectedRestores(given: Style, o: Style)
    requires Defaulted(given, o) && "directed" !in given
    ensures Redirected(o) == o
  {
    assert DefaultOptions[0] == ("directed", Bool(true));
  }

  /** The records a button click hands to the algorithm: the running
      algorithm's vertices unstyled first. */
  function Cancelled(g: AdjList, sv: Styled, running: bool, current: Option<string>): AdjList
    requires Names(g, sv)
  {
    if running then Unstyle(g, sv, current) else g
  }

  /** The lists a button click hands to the algorithm. */
  function CancelledLists(sv: Styled, running: bool, current: Option<string>): Styled
  {
    if running then Cleared(sv, current) else sv
  }

  // ---------------------------------------------------------------------
  // Keeping the invariant

  /** Same names, targets and states: what every operation but population
      keeps. */
  ghost predicate Reshaped(g: AdjList, h: AdjList)
  {
    && h.keys == g.keys && h.vals.Keys == g.vals.Keys
    && forall u :: u in g.vals ==>
      && h.vals[u].edges.keys == g.vals[u].edges.keys
      && h.vals[u].edges.vals.Keys == g.vals[u].edges.vals.Keys
      && h.vals[u].state == g.vals[u].state
  }

  /** A rewrite that keeps names, targets and states keeps the invariant. */
  lemma ReshapedSound(g: AdjList, h: AdjList, sv: Styled)
    requires Sound(g, sv) && Reshaped(g, h)
    ensures Sound(h, sv)
  {
    forall u | u in h.vals
      ensures h.vals[u].edges.Valid()
    {
      assert h.vals[u].edges.keys == g.vals[u].edges.keys;
    }
  }

  /** A new graph is sound. */
  lemma EmptySound()
    ensures Sound(EmptyMap(), map[])
  {
  }

  /** Storing a fresh record keeps the invariant, even over an old one. */
  lemma CreatedSound(g: AdjList, sv: Styled, name: string, r: Vertex)
    requires Sound(g, sv) && r.edges.Valid() && r.edges.keys == [] && r.state == Text("")
    ensures Sound(g.Set(name, r), sv)
  {
  }

  /** Population keeps the invariant: it only adds vertices, grows edge
      maps, and creates every vertex with an empty state. */
  lemma PopulatedSound(g: AdjList, sv: Styled, es: seq<Entry>, opts: Style)
    requires Sound(g, sv)
    ensures Sound(Populated(g, es, |es|, opts), sv)
  {
    PopulatedClosed(g, es, |es|, opts);
    PopulatedExtends(g, es, |es|, opts);
    PopulatedCreated(g, es, |es|, opts);
  }

  /** The first draw keeps the invariant. */
  lemma DrawnSound(g: AdjList, sv: Styled, stable: bool, width: int, height: int)
    requires Sound(g, sv)
    ensures Sound(Drawn(g, stable, width, height), sv)
  {
    ClampedFacts(g, width, height);
    ReshapedSound(g, Drawn(g, stable, width, height), sv);
  }

  /** Selecting keeps the invariant. */
  lemma SelectedSound(g: AdjList, sv: Styled, px: int, py: int)
    requires Sound(g, sv)
    ensures Sound(Selected(g, px, py), SelectionPushed(g, sv, px, py))
  {
    var h := Selected(g, px, py);
    SelectedReshapes(g, px, py);
    ReshapedSound(g, h, sv);
    match FirstHit(g, g.keys, px, py)
    case None =>
    case Some(u) =>
      PushedNames(h, sv, "selected", [u]);
  }

  /** Selecting restyles at most one present vertex. */
  lemma SelectedReshapes(g: AdjList, px: int, py: int)
    requires Closed(g)
    ensures Reshaped(g, Selected(g, px, py))
    ensures FirstHit(g, g.keys, px, py).Some? ==> FirstHit(g, g.keys, px, py).value in g.vals
  {
    match FirstHit(g, g.keys, px, py)
    case None =>
    case Some(u) =>
      assert Selected(g, px, py) == SetStyle(g, u, "textColor", Str("red"));
  }

  /** Moving one vertex keeps the invariant. */
  lemma MovedSound(g: AdjList, sv: Styled, u: string, x: int, y: int)
    requires Sound(g, sv) && u in g.vals
    ensures Sound(MovedTo(g, u, x, y), sv)
  {
    MovedToFacts(g, u, x, y);
    ReshapedSound(g, MovedTo(g, u, x, y), sv);
  }

  /** A pan keeps the invariant. */
  lemma ShiftedSound(g: AdjList, sv: Styled, dx: int, dy: int)
    requires Sound(g, sv)
    ensures Sound(MapRecords(g, ShiftRecord(dx, dy)), sv)
  {
    ShiftedFacts(g, dx, dy);
    ReshapedSound(g, MapRecords(g, ShiftRecord(dx, dy)), sv);
  }

  /** Unstyling keeps names, targets, states and tags. */
  lemma UnstyleReshapes(g: AdjList, sv: Styled, kind: Option<string>)
    requires Names(g, sv)
    ensures Reshaped(g, Unstyle(g, sv, kind))
    ensures forall u :: u in g.vals ==> Unstyle(g, sv, kind).vals[u].setTag == g.vals[u].setTag
  {
    var k := KeyOf(kind);
    if k in sv {
      UnstyledFacts(g, sv[k]);
    }
  }

  /** Unstyling keeps the invariant. */
  lemma UnstyleSound(g: AdjList, sv: Styled, kind: Option<string>)
    requires Sound(g, sv)
    ensures Sound(Unstyle(g, sv, kind), Cleared(sv, kind))
  {
    UnstyleReshapes(g, sv, kind);
    ReshapedSound(g, Unstyle(g, sv, kind), sv);
  }

  /** A relabelling that keeps names and tags keeps the tag counts. */
  lemma {:induction false} TagsFrame(g: AdjList, h: AdjList, i: nat)
    requires g.Valid() && h.keys == g.keys && h.vals.Keys == g.vals.Keys && i <= |g.keys|
    requires forall u :: u in g.vals ==> h.vals[u].setTag == g.vals[u].setTag
    ensures h.Valid()
    ensures Kruskal.Untagged(h, i) == Kruskal.Untagged(g, i)
    ensures Kruskal.RetagMap(h, i) == Kruskal.RetagMap(g, i)
  {
    if i == 0 {
      assert Kruskal.TagsOf(h) == Kruskal.TagsOf(g);
    } else {
      TagsFrame(g, h, i - 1);
    }
  }

  /** Kruskal's requirement on the tags survives unstyling. */
  lemma UnstyleConsistent(g: AdjList, sv: Styled, kind: Option<string>)
    requires Sound(g, sv) && Kruskal.Consistent(g)
    ensures Kruskal.Consistent(Unstyle(g, sv, kind))
  {
    UnstyleReshapes(g, sv, kind);
    TagsFrame(g, Unstyle(g, sv, kind), |g.keys|);
  }

  /** `l` pushed under `k` keeps every listed name a vertex when the
      names of `l` are vertices. */
  lemma PushedNames(g: AdjList, sv: Styled, k: string, l: seq<string>)
    requires Names(g, sv) && forall u :: u in l ==> u in g.vals
    ensures Names(g, Pushed(sv, k, l))
  {
  }

  // ---------------------------------------------------------------------
  // What the runners leave behind

  /** The BFS runner: `log` is what it pushes onto `styledVertices.bfs`,
      its names are exactly the vertices reachable from the source, each
      of those has a red `edgeColor`, and only `edgeColor` and a blue
      `vertexBorderColor` of reached vertices change. */
  ghost predicate BfsRan(g0: AdjList, source: string, g: AdjList, log: seq<string>)
  {
    && g.keys == g0.keys && g.vals.Keys == g0.vals.Keys
    && (forall u :: u in g0.vals ==> g.vals[u] == g0.vals[u].(style := g.vals[u].style))
    && log != [] && log[0] == source
    && (forall u :: u in log <==> u in Traversal.ReachFrom(g0, source))
    && (forall u :: u in g0.vals && u in log ==> Holds(g.vals[u].style, Traversal.EdgeColor, Str("red")))
    && (forall u :: u in g0.vals && u !in log ==> g.vals[u].style == g0.vals[u].style)
    && (forall u :: u in g0.vals ==>
          g.vals[u].style - {Traversal.EdgeColor, Traversal.BorderColor} ==
          g0.vals[u].style - {Traversal.EdgeColor, Traversal.BorderColor})
    && (forall u :: u in g0.vals && !SameAt(g0.vals[u].style, g.vals[u].style, Traversal.BorderColor) ==>
          Holds(g.vals[u].style, Traversal.BorderColor, Str("blue")))
  }

  /** The DFS runner: every reachable vertex is finished (blue, all its
      out-edges red) and the others are untouched; `log` is what it pushes
      onto `styledVertices.dfs`, whose names are the reachable vertices
      that have out-edges. */
  ghost predicate DfsRan(g0: AdjList, source: string, g: AdjList, log: seq<string>)
  {
    && g.keys == g0.keys && g.vals.Keys == g0.vals.Keys
    && (log != [] ==> log[0] == source)
    && (forall u :: u in log ==> u in Traversal.ReachFrom(g0, source) && g0.vals[u].edges.keys != [])
    && (forall u :: u in Traversal.ReachFrom(g0, source) && g0.vals[u].edges.keys != [] ==> u in log)
    && (forall u :: u in Traversal.ReachFrom(g0, source) ==>
          DepthFirst.Finished(g0.vals[u], g.vals[u].(state := Traversal.Explored)))
    && (forall u :: u in g0.vals && u !in Traversal.ReachFrom(g0, source) ==> g.vals[u] == g0.vals[u])
  }

  /** The Kruskal runner: every record gets its disjoint-set tag, the edges
      of the solution turn red, and the solution is what the greedy
      selection keeps from the edges in ascending weight order. */
  ghost predicate KruskalRan(g0: AdjList, g: AdjList, sol: seq<Weighted.WEdge>, popped: seq<Weighted.WEdge>)
  {
    && Closed(g0)
    && g.keys == g0.keys && g.vals.Keys == g0.vals.Keys
    && Kruskal.TagsOf(g) == Kruskal.RetagMap(g0, |g0.keys|)
    && (forall u :: u in g0.vals ==>
          g.vals[u] == g0.vals[u].(edges := Weighted.RedOut(u, g0.vals[u].edges, Weighted.Pairs(sol)),
                                   setTag := g.vals[u].setTag))
    && multiset(popped) == multiset(Kruskal.Entries(g0)) && Kruskal.Ascending(popped)
    && (forall e :: e in popped ==>
          Kruskal.Joinable(Kruskal.Singletons(Kruskal.Untagged(g0, |g0.keys|)), Kruskal.TagsOf(g), e))
    && sol == Kruskal.Select(Kruskal.Singletons(Kruskal.Untagged(g0, |g0.keys|)), Kruskal.TagsOf(g), popped).sol
  }

  /** The Prim runner: the popped edges are a run of the heap to empty, the
      solution is what that run accepts, and its edges turn red. */
  ghost predicate PrimRan(g0: AdjList, g: AdjList, sol: seq<Weighted.WEdge>, popped: seq<Weighted.WEdge>)
  {
    && Closed(g0) && g0.keys != []
    && Prim.AllStored(g0, popped) && Prim.Popped(g0, popped)
    && Prim.Run(g0, popped).pool == multiset{} && sol == Prim.Run(g0, popped).sol
    && g.keys == g0.keys && g.vals.Keys == g0.vals.Keys
    && (forall u :: u in g0.vals ==>
          g.vals[u] == g0.vals[u].(edges := Weighted.RedOut(u, g0.vals[u].edges, Weighted.Pairs(sol))))
  }

  /** The algorithms `addAlgorithms` dispatches to, by lower-cased name. */
  const Algorithms: set<string> := {"bfs", "dfs", "mstprim", "mstkruskal"}

  /** Runner `kind` with source `source`, from records `g0`, lists `sv0`
      and options `o0` to records `g`, lists `sv`, options `o` and outcome
      `r`. `log` is what a traversal pushes onto its list; `sol` and
      `popped` are an MST run's solution and heap pops. A missing BFS or
      DFS source throws after the list is created; Prim's runner throws on
      an empty list with `directed` left off; an unknown name changes
      nothing. */
  ghost predicate Ran(kind: string, source: string, g0: AdjList, sv0: Styled, o0: Style,
                      g: AdjList, sv: Styled, o: Style, r: Outcome,
                      log: seq<string>, sol: seq<Weighted.WEdge>, popped: seq<Weighted.WEdge>)
  {
    if kind == "bfs" then
      && o == o0 && sv == Pushed(sv0, "bfs", log)
      && if source in g0.vals then r == Done && BfsRan(g0, source, g, log)
         else r == Thrown(Traversal.BfsMissing(source)) && g == g0 && log == []
    else if kind == "dfs" then
      && o == o0 && sv == Pushed(sv0, "dfs", log)
      && if source in g0.vals then r == Done && DfsRan(g0, source, g, log)
         else r == Thrown(Traversal.DfsMissing(source)) && g == g0 && log == []
    else if kind == "mstkruskal" then
      && r == Done && o == Redirected(o0) && sv == Pushed(sv0, "mstkruskal", [])
      && KruskalRan(g0, g, sol, popped)
    else if kind == "mstprim" then
      && sv == Pushed(sv0, "mstprim", [])
      && if g0.keys == [] then r == Thrown(NoRoot) && g == g0 && o == Undirected(o0)
         else r == Done && o == Redirected(o0) && PrimRan(g0, g, sol, popped)
    else
      r == Done && g == g0 && sv == sv0 && o == o0
  }

  /** The flags after runner `kind`: a known runner makes itself current
      and sets the running flag, which no runner clears. */
  function AfterRun(kind: string, f: Status): (h: Status)
    ensures h.mouseDown == f.mouseDown && h.mousePos == f.mousePos
    ensures h.positionOnClick == f.positionOnClick && h.stable == f.stable
    ensures kind in Algorithms ==> h.running && h.current == Some(kind)
    ensures kind !in Algorithms ==> h == f
  {
    if kind in Algorithms then f.(running := true, current := Some(kind)) else f
  }

  /** The dispatch ignores case: a button named in any case runs the same
      algorithm as its lower-cased name. */
  lemma DispatchIgnoresCase(alg: string)
    ensures ToLower(ToLower(alg)) in Algorithms <==> ToLower(alg) in Algorithms
  {
    ToLowerIdempotent(alg);
  }

  /** The BFS search followed by the reset of the states. */
  lemma BfsOutcome(g0: AdjList, sv: Styled, source: string, g: AdjList, log: seq<string>)
    requires Sound(g0, sv) && source in g0.vals
    requires g.keys == g0.keys && g.vals.Keys == g0.vals.Keys
    requires forall u :: u in g0.vals ==> g.vals[u] == g0.vals[u].(state := g.vals[u].state, style := g.vals[u].style)
    requires log != [] && log[0] == source
    requires forall u :: u in log ==> u in Traversal.ReachFrom(g0, source)
    requires forall u :: u in g0.vals ==>
      g.vals[u].style - {Traversal.EdgeColor, Traversal.BorderColor} ==
      g0.vals[u].style - {Traversal.EdgeColor, Traversal.BorderColor}
    requires forall u :: u in g0.vals && u in log ==> Holds(g.vals[u].style, Traversal.EdgeColor, Str("red"))
    requires forall u :: u in g0.vals && u !in log ==> g.vals[u].style == g0.vals[u].style
    requires forall u :: u in g0.vals && !SameAt(g0.vals[u].style, g.vals[u].style, Traversal.BorderColor) ==>
      Holds(g.vals[u].style, Traversal.BorderColor, Str("blue"))
    requires Traversal.Clear(g0) ==> forall u :: u in Traversal.ReachFrom(g0, source) ==> u in log
    ensures BfsRan(g0, source, ResetStates(g), log)
    ensures Sound(ResetStates(g), Pushed(sv, "bfs", log))
  {
    assert Traversal.Clear(g0);
    ReshapedSound(g0, ResetStates(g), sv);
    PushedNames(ResetStates(g), sv, "bfs", log);
  }

  /** The DFS search followed by the reset of the states. */
  lemma DfsOutcome(g0: AdjList, sv: Styled, source: string, g: AdjList, log: seq<string>)
    requires Sound(g0, sv) && source in g0.vals
    requires g.keys == g0.keys && g.vals.Keys == g0.vals.Keys
    requires log != [] ==> log[0] == source
    requires forall u :: u in log ==> u in Traversal.ReachFrom(g0, source) && g0.vals[u].edges.keys != []
    requires forall u :: u in g0.vals ==>
      g.vals[u] == g0.vals[u].(state := g.vals[u].state) || DepthFirst.Finished(g0.vals[u], g.vals[u])
    requires forall u :: u in g0.vals && u !in Traversal.ReachFrom(g0, source) ==> g.vals[u] == g0.vals[u]
    requires Traversal.Clear(g0) ==> forall u :: u in Traversal.ReachFrom(g0, source) ==>
      DepthFirst.Finished(g0.vals[u], g.vals[u])
    requires Traversal.Clear(g0) ==> forall u :: u in Traversal.ReachFrom(g0, source) && g0.vals[u].edges.keys != [] ==>
      u in log
    ensures DfsRan(g0, source, ResetStates(g), log)
    ensures Sound(ResetStates(g), Pushed(sv, "dfs", log))
  {
    assert Traversal.Clear(g0);
    var h := ResetStates(g);
    forall u | u in g0.vals
      ensures h.vals[u].edges.keys == g0.vals[u].edges.keys
      ensures h.vals[u].edges.vals.Keys == g0.vals[u].edges.vals.Keys
    {
      DepthFirst.RedToFacts(g0.vals[u].edges, g0.vals[u].edges.keys);
    }
    ReshapedSound(g0, h, sv);
    PushedNames(h, sv, "dfs", log);
  }

  /** Kruskal's run, whose states are already reset. */
  lemma KruskalOutcome(g0: AdjList, sv: Styled, g: AdjList, sol: seq<Weighted.WEdge>, popped: seq<Weighted.WEdge>)
    requires Sound(g0, sv)
    requires g.keys == g0.keys && g.vals.Keys == g0.vals.Keys
    requires forall u :: u in g0.vals ==>
      g.vals[u] == g0.vals[u].(edges := Weighted.RedOut(u, g0.vals[u].edges, Weighted.Pairs(sol)), state := Text(""),
                               setTag := g.vals[u].setTag)
    ensures Sound(g, Pushed(sv, "mstkruskal", []))
  {
    ReshapedSound(g0, g, sv);
    PushedNames(g, sv, "mstkruskal", []);
  }

  /** Prim's run, whose states are already reset. */
  lemma PrimOutcome(g0: AdjList, sv: Styled, g: AdjList, sol: seq<Weighted.WEdge>)
    requires Sound(g0, sv)
    requires g.keys == g0.keys && g.vals.Keys == g0.vals.Keys
    requires forall u :: u in g0.vals ==>
      g.vals[u] == g0.vals[u].(edges := Weighted.RedOut(u, g0.vals[u].edges, Weighted.Pairs(sol)), state := Text(""))
    ensures Sound(g, Pushed(sv, "mstprim", []))
  {
    ReshapedSound(g0, g, sv);
    PushedNames(g, sv, "mstprim", []);
  }

  // ---------------------------------------------------------------------
  // The loops over records

  /** `f` applied to every record, one record at a time in insertion order
      (the loops of `drawToCanvas` and `moveGraph`). */
  method ForEachRecord(g0: AdjList, f: Vertex -> Vertex) returns (g: AdjList)
    requires g0.Valid()
    ensures g == MapRecords(g0, f)
  {
    g := g0;
    for i := 0 to |g0.keys|
      invariant g.keys == g0.keys && g.vals.Keys == g0.vals.Keys
      invariant forall j :: 0 <= j < |g0.keys| ==>
        g.vals[g0.keys[j]] == if j < i then f(g0.vals[g0.keys[j]]) else g0.vals[g0.keys[j]]
    {
      g := g.Update(g0.keys[i], f(g.vals[g0.keys[i]]));
    }
    assert g.vals == MapRecords(g0, f).vals;
  }

  /** The loop of `unstyleVertices` over the vertices of one list. */
  method UnstyleList(g0: AdjList, l: seq<string>) returns (g: AdjList)
    requires forall u :: u in l ==> u in g0.vals
    ensures g == Unstyled(g0, l, |l|)
  {
    g := g0;
    for i := 0 to |l|
      invariant g == Unstyled(g0, l, i)
    {
      g := g.Update(l[i], Plain(g.vals[l[i]]));
    }
  }

  /** `unstyleVertices(kind)` on the records and lists. */
  method UnstyleOn(g0: AdjList, sv0: Styled, kind: Option<string>) returns (g: AdjList, sv: Styled)
    requires Sound(g0, sv0)
    ensures g == Unstyle(g0, sv0, kind) && sv == Cleared(sv0, kind)
    ensures Sound(g, sv)
  {
    UnstyleSound(g0, sv0, kind);
    g, sv := g0, sv0;
    var k := KeyOf(kind);
    if k in sv0 {
      g := UnstyleList(g0, sv0[k]);
      sv := sv0[k := []];
    }
  }

  // ---------------------------------------------------------------------
  // The runners, on the fields they read and write

  /** `bfs(graph, source)` on the records and lists: creates
      `styledVertices.bfs`, throws for a missing source, and otherwise
      runs the search, pushing what it visits, and resets every state. */
  method BfsRunner(g0: AdjList, sv0: Styled, o0: Style, source: string)
    returns (g: AdjList, sv: Styled, o: Style, r: Outcome, ghost log: seq<string>)
    requires Sound(g0, sv0)
    ensures Sound(g, sv)
    ensures Ran("bfs", source, g0, sv0, o0, g, sv, o, r, log, [], [])
  {
    o := o0;
    if source !in g0.vals {
      PushedNames(g0, sv0, "bfs", []);
      return g0, Pushed(sv0, "bfs", []), o, Thrown(Traversal.BfsMissing(source)), [];
    }
    var h, l, _ := BreadthFirst.Bfs(g0, source);
    BfsOutcome(g0, sv0, source, h, l);
    g, sv, r, log := ResetStates(h), Pushed(sv0, "bfs", l), Done, l;
  }

  /** `dfs(graph, source)` on the records and lists: creates
      `styledVertices.dfs`, throws for a missing source, and otherwise
      runs the search, pushing what it explores, and resets every state. */
  method DfsRunner(g0: AdjList, sv0: Styled, o0: Style, source: string)
    returns (g: AdjList, sv: Styled, o: Style, r: Outcome, ghost log: seq<string>)
    requires Sound(g0, sv0)
    ensures Sound(g, sv)
    ensures Ran("dfs", source, g0, sv0, o0, g, sv, o, r, log, [], [])
  {
    o := o0;
    if source !in g0.vals {
      PushedNames(g0, sv0, "dfs", []);
      return g0, Pushed(sv0, "dfs", []), o, Thrown(Traversal.DfsMissing(source)), [];
    }
    var h, l, _ := DepthFirst.Dfs(g0, source);
    DfsOutcome(g0, sv0, source, h, l);
    g, sv, r, log := ResetStates(h), Pushed(sv0, "dfs", l), Done, l;
  }

  /** Switching `directed` off and, when it was truthy, back on is
      `Redirected`. */
  lemma DirectedToggled(o: Style)
    ensures (if DirectedOn(o) then Undirected(o)["directed" := Bool(true)] else Undirected(o)) == Redirected(o)
  {
  }

  /** Kruskal's run, seen as the runner's outcome. */
  lemma KruskalRanFrom(g0: AdjList, sv0: Styled, o0: Style, g: AdjList, o: Style,
                       sol: seq<Weighted.WEdge>, popped: seq<Weighted.WEdge>)
    requires Closed(g0) && AllReset(g0) && o == Redirected(o0)
    requires g.keys == g0.keys && g.vals.Keys == g0.vals.Keys
    requires Kruskal.TagsOf(g) == Kruskal.RetagMap(g0, |g0.keys|)
    requires forall u :: u in g0.vals ==>
      g.vals[u] == g0.vals[u].(edges := Weighted.RedOut(u, g0.vals[u].edges, Weighted.Pairs(sol)), state := Text(""),
                               setTag := g.vals[u].setTag)
    requires multiset(popped) == multiset(Kruskal.Entries(g0)) && Kruskal.Ascending(popped)
    requires forall e :: e in popped ==>
      Kruskal.Joinable(Kruskal.Singletons(Kruskal.Untagged(g0, |g0.keys|)), Kruskal.TagsOf(g), e)
    requires sol == Kruskal.Select(Kruskal.Singletons(Kruskal.Untagged(g0, |g0.keys|)), Kruskal.TagsOf(g), popped).sol
    ensures Ran("mstkruskal", "a", g0, sv0, o0, g, Pushed(sv0, "mstkruskal", []), o, Done, [], sol, popped)
    ensures Names(g0, sv0) ==> Sound(g, Pushed(sv0, "mstkruskal", []))
  {
    if Names(g0, sv0) {
      KruskalOutcome(g0, sv0, g, sol, popped);
    }
  }

  /** `mstkruskal(graph, source)` on the records, lists and options: the
      source is unused, and `directed` is switched off for the run and
      back on afterwards. */
  method KruskalRunner(g0: AdjList, sv0: Styled, o0: Style)
    returns (g: AdjList, sv: Styled, o: Style, sol: seq<Weighted.WEdge>, ghost popped: seq<Weighted.WEdge>)
    requires Sound(g0, sv0) && Kruskal.Consistent(g0)
    ensures Sound(g, sv)
    ensures Ran("mstkruskal", "a", g0, sv0, o0, g, sv, o, Done, [], sol, popped)
  {
    var turnedDirected := DirectedOn(o0);
    o := Undirected(o0);
    g, sol, popped := Kruskal.Kruskal(g0);
    sv := Pushed(sv0, "mstkruskal", []);
    if turnedDirected {
      o := o["directed" := Bool(true)];
    }
    DirectedToggled(o0);
    KruskalRanFrom(g0, sv0, o0, g, o, sol, popped);
  }

  /** Prim's run, seen as the runner's outcome. */
  lemma PrimRanFrom(g0: AdjList, sv0: Styled, o0: Style, g: AdjList, o: Style,
                    sol: seq<Weighted.WEdge>, popped: seq<Weighted.WEdge>)
    requires Closed(g0) && AllReset(g0) && g0.keys != [] && o == Redirected(o0)
    requires Prim.AllStored(g0, popped) && Prim.Popped(g0, popped)
    requires Prim.Run(g0, popped).pool == multiset{} && sol == Prim.Run(g0, popped).sol
    requires g.keys == g0.keys && g.vals.Keys == g0.vals.Keys
    requires forall u :: u in g0.vals ==>
      g.vals[u] == g0.vals[u].(edges := Weighted.RedOut(u, g0.vals[u].edges, Weighted.Pairs(sol)), state := Text(""))
    ensures Ran("mstprim", "a", g0, sv0, o0, g, Pushed(sv0, "mstprim", []), o, Done, [], sol, popped)
    ensures Names(g0, sv0) ==> Sound(g, Pushed(sv0, "mstprim", []))
  {
    if Names(g0, sv0) {
      PrimOutcome(g0, sv0, g, sol);
    }
  }

  /** `mstprim(graph, source)` on the records, lists and options: the
      source is unused and the root is the first vertex; on an empty list
      reading its edges throws, with `directed` still switched off. */
  method PrimRunner(g0: AdjList, sv0: Styled, o0: Style)
    returns (g: AdjList, sv: Styled, o: Style, r: Outcome, sol: seq<Weighted.WEdge>, ghost popped: seq<Weighted.WEdge>)
    requires Sound(g0, sv0)
    ensures Sound(g, sv)
    ensures Ran("mstprim", "a", g0, sv0, o0, g, sv, o, r, [], sol, popped)
  {
    var turnedDirected := DirectedOn(o0);
    o := Undirected(o0);
    sv := Pushed(sv0, "mstprim", []);
    var h;
    h, sol, popped := Prim.Prim(g0);
    if h.None? {
      PushedNames(g0, sv0, "mstprim", []);
      return g0, sv, o, Thrown(NoRoot), sol, popped;
    }
    g := h.value;
    if turnedDirected {
      o := o["directed" := Bool(true)];
    }
    DirectedToggled(o0);
    PrimRanFrom(g0, sv0, o0, g, o, sol, popped);
    r := Done;
  }

  /** The `switch` of `addAlgorithms` on the lower-cased name, with the
      source "a" every button passes; an unknown name only logs. */
  method Dispatch(kind: string, g0: AdjList, sv0: Styled, o0: Style)
    returns (g: AdjList, sv: Styled, o: Style, r: Outcome, ghost log: seq<string>,
             sol: seq<Weighted.WEdge>, ghost popped: seq<Weighted.WEdge>)
    requires Sound(g0, sv0) && (kind == "mstkruskal" ==> Kruskal.Consistent(g0))
    ensures Sound(g, sv)
    ensures Ran(kind, "a", g0, sv0, o0, g, sv, o, r, log, sol, popped)
  {
    log, sol, popped := [], [], [];
    if kind == "bfs" {
      g, sv, o, r, log := BfsRunner(g0, sv0, o0, "a");
    } else if kind == "dfs" {
      g, sv, o, r, log := DfsRunner(g0, sv0, o0, "a");
    } else if kind == "mstprim" {
      g, sv, o, r, sol, popped := PrimRunner(g0, sv0, o0);
    } else if kind == "mstkruskal" {
      g, sv, o, sol, popped := KruskalRunner(g0, sv0, o0);
      r := Done;
    } else {
      g, sv, o, r := g0, sv0, o0, Done;
    }
  }

  /** A button click on the records, lists and options: a running
      algorithm's vertices are unstyled first, then the algorithm runs. */
  method ClickOn(kind: string, g0: AdjList, sv0: Styled, o0: Style, running: bool, current: Option<string>)
    returns (g: AdjList, sv: Styled, o: Style, r: Outcome, ghost log: seq<string>,
             sol: seq<Weighted.WEdge>, ghost popped: seq<Weighted.WEdge>)
    requires Sound(g0, sv0) && (kind == "mstkruskal" ==> Kruskal.Consistent(g0))
    ensures Sound(g, sv)
    ensures Ran(kind, "a", Cancelled(g0, sv0, running, current), CancelledLists(sv0, running, current),
                o0, g, sv, o, r, log, sol, popped)
  {
    var g1, sv1 := g0, sv0;
    if running {
      if kind == "mstkruskal" {
        UnstyleConsistent(g0, sv0, current);
      }
      g1, sv1 := UnstyleOn(g0, sv0, current);
    }
    g, sv, o, r, log, sol, popped := Dispatch(kind, g1, sv1, o0);
  }

  class Graph {
    var adjList: AdjList
    var options: Style
    var styledVertices: Styled
    var mouseDown: bool
    var isAlgorithmRunning: bool
    var currentAlgorithm: Option<string>
    var mousePos: (int, int)
    var positionOnClick: Option<(int, int)>
    var stable: bool
    /** `canvas.canvas.width` and `.height`. */
    const width: int
    const height: int

    function Flags(): Status
      reads this
    {
      Status(mouseDown, isAlgorithmRunning, currentAlgorithm, mousePos, positionOnClick, stable)
    }

    /** The records and lists are sound, and a pressed mouse has a click
        position. */
    ghost predicate Valid()
      reads this
    {
      Sound(adjList, styledVertices) && (mouseDown ==> positionOnClick.Some?)
    }

    /** `new Graph(canvas, options)`: the options completed with their
        defaults, an empty list and cleared flags. */
    constructor(width: int, height: int, opts: Style)
      ensures Valid()
      ensures this.width == width && this.height == height
      ensures Defaulted(opts, options)
      ensures adjList == EmptyMap() && styledVertices == map[]
      ensures Flags() == Status(false, false, None, (0, 0), None, false)
    {
      var o := ApplyDefaults(opts);
      this.width := width;
      this.height := height;
      options := o;
      adjList := EmptyMap();
      styledVertices := map[];
      mouseDown := false;
      isAlgorithmRunning := false;
      currentAlgorithm := None;
      mousePos := (0, 0);
      positionOnClick := None;
      stable := false;
      EmptySound();
    }

    /** `createNewVertex(name, x, y)`: stores (overwriting) a fresh record
        at the given position, or at `drawn` when a coordinate is missing. */
    method CreateNewVertex(name: string, x: Option<int>, y: Option<int>, drawn: (int, int))
      requires OnCanvas(drawn, width, height)
      modifies this
      ensures adjList == old(adjList).Set(name, NewVertex(options, Position(x, y, drawn)))
      ensures (x.Some? && y.Some?) || OnCanvas((adjList.vals[name].x, adjList.vals[name].y), width, height)
      ensures options == old(options) && styledVertices == old(styledVertices) && Flags() == old(Flags())
      ensures old(Valid()) ==> Valid()
    {
      var r := NewVertex(options, Position(x, y, drawn));
      if Valid() {
        CreatedSound(adjList, styledVertices, name, r);
      }
      adjList := adjList.Set(name, r);
    }

    /** The `.map` callback over the edges of one source: each target is
        created when absent, then its edge is set. */
    method AddTargetsOf(s: string, ts: seq<Target>)
      requires s in adjList.vals
      requires forall j :: 0 <= j < |ts| ==> OnCanvas(ts[j].drawn, width, height)
      modifies this
      ensures adjList == AddTargets(old(adjList), s, ts, |ts|, options)
      ensures options == old(options) && styledVertices == old(styledVertices) && Flags() == old(Flags())
    {
      for j := 0 to |ts|
        invariant adjList == AddTargets(old(adjList), s, ts, j, options)
        invariant options == old(options) && styledVertices == old(styledVertices) && Flags() == old(Flags())
      {
        AddTargetOf(s, ts[j]);
      }
    }

    /** One target: created when absent, then its edge is set. */
    method AddTargetOf(s: string, t: Target)
      requires s in adjList.vals && OnCanvas(t.drawn, width, height)
      modifies this
      ensures adjList == AddTarget(old(adjList), s, t, options)
      ensures options == old(options) && styledVertices == old(styledVertices) && Flags() == old(Flags())
    {
      if t.name !in adjList.vals {
        CreateNewVertex(t.name, t.x, t.y, t.drawn);
      }
      assert adjList == AddVertex(old(adjList), t.name, t.x, t.y, t.drawn, options);
      adjList := AddEdge(adjList, s, t.name, t.weight, options);
    }

    /** The loop of `populateAdjListFromJSObject` over the data's entries:
        each source is created when absent, then its targets are added. */
    method AddEntries(es: seq<Entry>)
      requires DrawnOnCanvas(es, width, height)
      modifies this
      ensures adjList == Populated(old(adjList), es, |es|, options)
      ensures options == old(options) && styledVertices == old(styledVertices) && Flags() == old(Flags())
    {
      for i := 0 to |es|
        invariant adjList == Populated(old(adjList), es, i, options)
        invariant options == old(options) && styledVertices == old(styledVertices) && Flags() == old(Flags())
      {
        var e := es[i];
        if e.name !in adjList.vals {
          CreateNewVertex(e.name, e.x, e.y, e.drawn);
        }
        AddTargetsOf(e.name, e.targets);
      }
    }

    /** `populateAdjListFromJSObject(data)`: throws on a non-object or
        `null`; otherwise adds the entries' sources and targets in order,
        creating each only when absent. */
    method Populate(data: Data) returns (r: Outcome)
      requires Valid()
      requires data.Object? ==> DrawnOnCanvas(data.entries, width, height)
      modifies this
      ensures Valid()
      ensures !data.Object? ==> r == Thrown(NotAnObject) && adjList == old(adjList)
      ensures data.Object? ==> r == Done && adjList == Populated(old(adjList), data.entries, |data.entries|, options)
      ensures options == old(options) && styledVertices == old(styledVertices) && Flags() == old(Flags())
    {
      if !data.Object? {
        return Thrown(NotAnObject);
      }
      PopulatedSound(adjList, styledVertices, data.entries, options);
      AddEntries(data.entries);
      r := Done;
    }

    /** `drawToCanvas()`: on the first draw every coordinate off the canvas
        is clamped back; afterwards the graph is stable. */
    method DrawToCanvas()
      requires Valid()
      modifies this
      ensures Valid()
      ensures adjList == Drawn(old(adjList), old(stable), width, height)
      ensures options == old(options) && styledVertices == old(styledVertices)
      ensures Flags() == old(Flags()).(stable := true)
    {
      DrawnSound(adjList, styledVertices, stable, width, height);
      if !stable {
        adjList := ForEachRecord(adjList, ClampRecord(width, height));
      }
      stable := true;
    }

    /** `styleSelectedVertex(position)`: the first vertex whose box holds
        the position gets a red `textColor` and is pushed under "selected". */
    method StyleSelectedVertex(px: int, py: int)
      requires Valid()
      modifies this
      ensures Valid()
      ensures adjList == Selected(old(adjList), px, py)
      ensures styledVertices == SelectionPushed(old(adjList), old(styledVertices), px, py)
      ensures options == old(options) && Flags() == old(Flags())
    {
      SelectedSound(adjList, styledVertices, px, py);
      styledVertices := SelectionPushed(adjList, styledVertices, px, py);
      adjList := Selected(adjList, px, py);
    }

    /** `moveVertex(position)`: when something is selected, the first
        selected vertex moves to the position and the result is true. */
    method MoveVertex(nx: int, ny: int) returns (moved: bool)
      requires Valid()
      modifies this
      ensures Valid()
      ensures moved <==> Listed(old(styledVertices), "selected") != []
      ensures moved ==> adjList == MovedTo(old(adjList), old(styledVertices)["selected"][0], nx, ny)
      ensures !moved ==> adjList == old(adjList)
      ensures options == old(options) && styledVertices == old(styledVertices) && Flags() == old(Flags())
    {
      if "selected" in styledVertices && |styledVertices["selected"]| > 0 {
        var u := styledVertices["selected"][0];
        MovedSound(adjList, styledVertices, u, nx, ny);
        adjList := MovedTo(adjList, u, nx, ny);
        return true;
      }
      return false;
    }

    /** `moveGraph(position)`: every vertex moves by the offset from the
        click position, which then becomes the new position. */
    method MoveGraph(nx: int, ny: int)
      requires Valid() && positionOnClick.Some?
      modifies this
      ensures Valid()
      ensures adjList == MapRecords(old(adjList), ShiftRecord(nx - old(positionOnClick).value.0,
                                                              ny - old(positionOnClick).value.1))
      ensures options == old(options) && styledVertices == old(styledVertices)
      ensures Flags() == old(Flags()).(positionOnClick := Some((nx, ny)))
    {
      var dx := nx - positionOnClick.value.0;
      var dy := ny - positionOnClick.value.1;
      ShiftedSound(adjList, styledVertices, dx, dy);
      adjList := ForEachRecord(adjList, ShiftRecord(dx, dy));
      positionOnClick := Some((nx, ny));
    }

    /** `unstyleVertices(kind)`: the vertices listed under the kind get the
        plain style and black out-edges, and the list is emptied; an absent
        kind changes nothing. */
    method UnstyleVertices(kind: Option<string>)
      requires Valid()
      modifies this
      ensures Valid()
      ensures adjList == Unstyle(old(adjList), old(styledVertices), kind)
      ensures styledVertices == Cleared(old(styledVertices), kind)
      ensures options == old(options) && Flags() == old(Flags())
    {
      adjList, styledVertices := UnstyleOn(adjList, styledVertices, kind);
    }

    /** The `mousedown` listener: the mouse is down at the event position;
        a running algorithm is cancelled (its vertices unstyled, nothing
        current, not running), otherwise the vertex there is selected; the
        graph is then drawn. */
    method MouseDown(ex: int, ey: int)
      requires Valid()
      modifies this
      ensures Valid()
      ensures old(isAlgorithmRunning) ==>
        && adjList == Drawn(Unstyle(old(adjList), old(styledVertices), old(currentAlgorithm)), old(stable), width, height)
        && styledVertices == Cleared(old(styledVertices), old(currentAlgorithm))
        && Flags() == old(Flags()).(mouseDown := true, positionOnClick := Some((ex, ey)),
                                    running := false, current := None, stable := true)
      ensures !old(isAlgorithmRunning) ==>
        && adjList == Drawn(Selected(old(adjList), ex, ey), old(stable), width, height)
        && styledVertices == SelectionPushed(old(adjList), old(styledVertices), ex, ey)
        && Flags() == old(Flags()).(mouseDown := true, positionOnClick := Some((ex, ey)), stable := true)
      ensures options == old(options)
    {
      mouseDown := true;
      positionOnClick := Some((ex, ey));
      if !isAlgorithmRunning {
        StyleSelectedVertex(ex, ey);
      } else {
        UnstyleVertices(currentAlgorithm);
        currentAlgorithm := None;
        isAlgorithmRunning := false;
      }
      DrawToCanvas();
    }

    /** The drag of `mousemove`: the first selected vertex follows the
        mouse, or the whole graph when nothing is selected; then the graph
        is drawn. */
    method Drag(ex: int, ey: int)
      requires Valid() && positionOnClick.Some?
      modifies this
      ensures Valid()
      ensures Listed(old(styledVertices), "selected") != [] ==>
        && adjList == Drawn(MovedTo(old(adjList), old(styledVertices)["selected"][0], ex, ey), old(stable), width, height)
        && Flags() == old(Flags()).(stable := true)
      ensures Listed(old(styledVertices), "selected") == [] ==>
        && adjList == Drawn(MapRecords(old(adjList), ShiftRecord(ex - old(positionOnClick).value.0,
                                                                 ey - old(positionOnClick).value.1)),
                            old(stable), width, height)
        && Flags() == old(Flags()).(positionOnClick := Some((ex, ey)), stable := true)
      ensures styledVertices == old(styledVertices) && options == old(options)
    {
      ghost var shifted := MapRecords(adjList, ShiftRecord(ex - positionOnClick.value.0,
                                                           ey - positionOnClick.value.1));
      var moved := MoveVertex(ex, ey);
      if !moved {
        MoveGraph(ex, ey);
        assert adjList == shifted;
      }
      DrawToCanvas();
    }

    /** The `mousemove` listener: with the mouse down and nothing running
        the graph is dragged; the mouse position is always recorded. */
    method MouseMove(ex: int, ey: int)
      requires Valid()
      modifies this
      ensures Valid()
      ensures !old(mouseDown && !isAlgorithmRunning) ==>
        adjList == old(adjList) && Flags() == old(Flags()).(mousePos := (ex, ey))
      ensures old(mouseDown && !isAlgorithmRunning) && Listed(old(styledVertices), "selected") != [] ==>
        && adjList == Drawn(MovedTo(old(adjList), old(styledVertices)["selected"][0], ex, ey), old(stable), width, height)
        && Flags() == old(Flags()).(mousePos := (ex, ey), stable := true)
      ensures old(mouseDown && !isAlgorithmRunning) && Listed(old(styledVertices), "selected") == [] ==>
        && adjList == Drawn(MapRecords(old(adjList), ShiftRecord(ex - old(positionOnClick).value.0,
                                                                 ey - old(positionOnClick).value.1)),
                            old(stable), width, height)
        && Flags() == old(Flags()).(mousePos := (ex, ey), positionOnClick := Some((ex, ey)), stable := true)
      ensures styledVertices == old(styledVertices) && options == old(options)
    {
      if mouseDown && !isAlgorithmRunning {
        Drag(ex, ey);
      }
      mousePos := (ex, ey);
    }

    /** The `mouseup` listener: the mouse is up; when nothing runs the
        selection is unstyled; the graph is drawn. */
    method MouseUp()
      requires Valid()
      modifies this
      ensures Valid()
      ensures old(isAlgorithmRunning) ==>
        adjList == Drawn(old(adjList), old(stable), width, height) && styledVertices == old(styledVertices)
      ensures !old(isAlgorithmRunning) ==>
        && adjList == Drawn(Unstyle(old(adjList), old(styledVertices), Some("selected")), old(stable), width, height)
        && styledVertices == Cleared(old(styledVertices), Some("selected"))
      ensures Flags() == old(Flags()).(mouseDown := false, stable := true)
      ensures options == old(options)
    {
      mouseDown := false;
      if !isAlgorithmRunning {
        UnstyleVertices(Some("selected"));
      }
      DrawToCanvas();
    }

    /** An algorithm button of `addAlgorithms`: a running algorithm's
        vertices are unstyled and it stops being current (the running flag
        stays), then the algorithm the name gives in any case runs from
        "a", making itself current and running. */
    method Click(alg: string)
      returns (r: Outcome, ghost log: seq<string>, sol: seq<Weighted.WEdge>, ghost popped: seq<Weighted.WEdge>)
      requires Valid()
      requires ToLower(alg) == "mstkruskal" ==> Kruskal.Consistent(adjList)
      modifies this
      ensures Valid()
      ensures Ran(ToLower(alg), "a",
                  Cancelled(old(adjList), old(styledVertices), old(isAlgorithmRunning), old(currentAlgorithm)),
                  CancelledLists(old(styledVertices), old(isAlgorithmRunning), old(currentAlgorithm)),
                  old(options), adjList, styledVertices, options, r, log, sol, popped)
      ensures Flags() == AfterRun(ToLower(alg), old(Flags()).(current := if old(isAlgorithmRunning) then None
                                                                          else old(currentAlgorithm)))
    {
      var kind := ToLower(alg);
      var g, sv, o;
      g, sv, o, r, log, sol, popped :=
        ClickOn(kind, adjList, styledVertices, options, isAlgorithmRunning, currentAlgorithm);
      var status := AfterRun(kind, Flags().(current := if isAlgorithmRunning then None else currentAlgorithm));
      adjList, styledVertices, options := g, sv, o;
      isAlgorithmRunning, currentAlgorithm := status.running, status.current;
    }
  }
}
