/** What the `Graph` class of pub/scripts/graph.js does to its adjacency
    list, as functions on values: the option defaults, creating and
    populating vertices, the first-draw clamp, panning and unstyling. The
    class itself (graph.dfy) runs the loops and keeps the flags. */
module Editing {
  import opened Values
  import opened Adjacency

  // ---------------------------------------------------------------------
  // Options

  /** The options the constructor fills in when they are missing, in the
      order it fills them (pub/scripts/graph.js:114-127). */
  const DefaultOptions: seq<(string, Value)> := [
    ("directed", Bool(true)),
    ("textColor", Str("black")),
    ("textFont", Str("20px Arial")),
    ("vertexBorderColor", Str("black")),
    ("vertexRadius", Num(20)),
    ("vertexFillColor", Str("white")),
    ("vertexBorderWidth", Num(3)),
    ("edgeWidth", Num(3)),
    ("edgeColor", Str("black"))]

  /** `!(k in o) && (o[k] = v)` for each default of `ds` in turn. */
  function Defaults(o: Style, ds: seq<(string, Value)>): Style
    decreases |ds|
  {
    if ds == [] then o
    else
      var (k, v) := ds[0];
      Defaults(if k in o then o else o[k := v], ds[1..])
  }

  /** Filling in defaults adds exactly the listed keys. */
  lemma {:induction false} DefaultsKeys(o: Style, ds: seq<(string, Value)>)
    ensures Defaults(o, ds).Keys == o.Keys + set d | d in ds :: d.0
    decreases |ds|
  {
    if ds != [] {
      var (k, v) := ds[0];
      DefaultsKeys(if k in o then o else o[k := v], ds[1..]);
      assert (set d | d in ds :: d.0) == {k} + set d | d in ds[1..] :: d.0;
    }
  }

  /** Filling in defaults keeps every option given ... */
  lemma {:induction false} DefaultsKeep(o: Style, ds: seq<(string, Value)>)
    ensures forall k :: k in o ==> k in Defaults(o, ds) && Defaults(o, ds)[k] == o[k]
    decreases |ds|
  {
    DefaultsKeys(o, ds);
    if ds != [] {
      var (k, v) := ds[0];
      DefaultsKeep(if k in o then o else o[k := v], ds[1..]);
    }
  }

  /** ... and adds each missing one with the first value listed for it. */
  lemma {:induction false} DefaultsFirst(o: Style, ds: seq<(string, Value)>)
    ensures forall i :: 0 <= i < |ds| && ds[i].0 !in o && (forall j :: 0 <= j < i ==> ds[j].0 != ds[i].0) ==>
      ds[i].0 in Defaults(o, ds) && Defaults(o, ds)[ds[i].0] == ds[i].1
    decreases |ds|
  {
    DefaultsKeys(o, ds);
    if ds != [] {
      var (k, v) := ds[0];
      var o1 := if k in o then o else o[k := v];
      DefaultsFirst(o1, ds[1..]);
      DefaultsKeep(o1, ds[1..]);
      forall i | 0 < i < |ds| && ds[i].0 !in o && (forall j :: 0 <= j < i ==> ds[j].0 != ds[i].0)
        ensures ds[i].0 in Defaults(o, ds) && Defaults(o, ds)[ds[i].0] == ds[i].1
      {
        assert ds[1..][i - 1] == ds[i];
        assert forall j :: 0 <= j < i - 1 ==> ds[1..][j] == ds[j + 1];
      }
    }
  }

  /** The constructor's option object: the defaults applied in order. */
  function WithDefaults(o: Style): Style
  {
    Defaults(o, DefaultOptions)
  }

  /** `r` is `o` completed: every option given is kept, and each missing
      default is added with its default value. */
  ghost predicate Defaulted(o: Style, r: Style)
  {
    && r.Keys == o.Keys + (set d | d in DefaultOptions :: d.0)
    && (forall k :: k in o ==> r[k] == o[k])
    && (forall i :: 0 <= i < |DefaultOptions| && DefaultOptions[i].0 !in o ==>
          r[DefaultOptions[i].0] == DefaultOptions[i].1)
  }

  /** Applying the defaults in order completes the options: no option is
      listed twice, so each missing one gets its own value. */
  lemma WithDefaultsFacts(o: Style)
    ensures Defaulted(o, WithDefaults(o))
  {
    DefaultsKeys(o, DefaultOptions);
    DefaultsKeep(o, DefaultOptions);
    DefaultsFirst(o, DefaultOptions);
    DefaultsNamedOnce();
  }

  /** Completing the options has one result. */
  lemma DefaultedUnique(o: Style, r1: Style, r2: Style)
    requires Defaulted(o, r1) && Defaulted(o, r2)
    ensures r1 == r2
  {
    forall k | k in r1
      ensures r1[k] == r2[k]
    {
      if k !in o {
        var d :| d in DefaultOptions && d.0 == k;
        var i :| 0 <= i < |DefaultOptions| && DefaultOptions[i] == d;
      }
    }
  }

  /** The constructor's nine default statements, run in order. */
  method ApplyDefaults(o: Style) returns (r: Style)
    ensures Defaulted(o, r)
  {
    r := o;
    for i := 0 to |DefaultOptions|
      invariant Defaults(r, DefaultOptions[i..]) == WithDefaults(o)
    {
      var (k, v) := DefaultOptions[i];
      assert DefaultOptions[i..][1..] == DefaultOptions[i + 1..];
      if k !in r {
        r := r[k := v];
      }
    }
    WithDefaultsFacts(o);
  }

  /** No option is listed twice among the defaults. */
  lemma DefaultsNamedOnce()
    ensures forall i, j :: 0 <= j < i < |DefaultOptions| ==> DefaultOptions[j].0 != DefaultOptions[i].0
  {
    var ks := seq(|DefaultOptions|, i requires 0 <= i < |DefaultOptions| => DefaultOptions[i].0);
    assert ks == ["directed", "textColor", "textFont", "vertexBorderColor", "vertexRadius",
                  "vertexFillColor", "vertexBorderWidth", "edgeWidth", "edgeColor"];
  }

  /** The option keys a new vertex's style copies (pub/scripts/graph.js:160-167). */
  const VertexOptionKeys: set<string> :=
    {"vertexBorderColor", "vertexRadius", "vertexFillColor", "textColor", "textFont", "vertexBorderWidth"}

  /** The option keys a new edge's style copies (pub/scripts/graph.js:201). */
  const EdgeOptionKeys: set<string> := {"edgeColor", "edgeWidth"}

  /** `Object.keys(o).filter(k => ks has k).reduce(copy)`: the options named in `ks`. */
  function Pick(o: Style, ks: set<string>): Style
  {
    map k | k in o && k in ks :: o[k]
  }

  /** The copy holds exactly the options named in `ks`, with their values. */
  lemma PickFacts(o: Style, ks: set<string>)
    ensures Pick(o, ks).Keys == o.Keys * ks
    ensures forall k :: k in Pick(o, ks) ==> Pick(o, ks)[k] == o[k]
  {
  }

  // ---------------------------------------------------------------------
  // Creating vertices

  /** `Math.floor(Math.random() * bound)` can give `v`: the model's stand-in
      for the random coordinate. */
  predicate RandomCoord(v: int, bound: int)
  {
    0 <= v && (v < bound || v == 0)
  }

  /** The coordinates of a new vertex: the given pair when both are defined,
      else the random pair `drawn`. */
  function Position(px: Option<int>, py: Option<int>, drawn: (int, int)): (int, int)
  {
    if px.None? || py.None? then drawn else (px.value, py.value)
  }

  /** The record `createNewVertex` stores: no edges, the vertex options
      as its style and an empty state. */
  function NewVertex(opts: Style, pos: (int, int)): (r: Vertex)
    ensures r.edges.Valid() && r.edges.keys == []
    ensures r.state == Text("") && r.setTag.None? && (r.x, r.y) == pos
  {
    Vertex(EmptyMap(), pos.0, pos.1, Pick(opts, VertexOptionKeys), Text(""), None)
  }

  // ---------------------------------------------------------------------
  // Populating from a JavaScript object

  /** `target: [weight, x, y]` inside a source's edge object; `drawn` is
      the random pair the target gets if this occurrence creates it. */
  datatype Target = Target(name: string, weight: int, x: Option<int>, y: Option<int>, drawn: (int, int))

  /** `source: [edges, x, y]`, one property of the data object; `drawn` is
      the random pair the source gets if this occurrence creates it. */
  datatype Entry = Entry(name: string, targets: seq<Target>, x: Option<int>, y: Option<int>, drawn: (int, int))

  /** The argument of `populateAdjListFromJSObject`: not an object, `null`,
      or an object whose properties are listed in enumeration order. */
  datatype Data = NotObject | Null | Object(entries: seq<Entry>)

  /** `createNewVertex` only when the name is absent (`drawn` is the random
      pair the vertex would get). */
  function AddVertex(g: AdjList, name: string, px: Option<int>, py: Option<int>, drawn: (int, int),
                     opts: Style): (h: AdjList)
    ensures h.vals.Keys == g.vals.Keys + {name}
  {
    if name in g.vals then g else g.Set(name, NewVertex(opts, Position(px, py, drawn)))
  }

  /** `adjList.get(s)[0].set(t, [weight, copy of the edge options])`. */
  function AddEdge(g: AdjList, s: string, t: string, w: int, opts: Style): (h: AdjList)
    requires s in g.vals
    ensures h.vals.Keys == g.vals.Keys
  {
    g.Update(s, g.vals[s].(edges := g.vals[s].edges.Set(t, Edge(w, Pick(opts, EdgeOptionKeys)))))
  }

  /** One target of source `s`: created if absent, then its edge set. */
  function AddTarget(g: AdjList, s: string, t: Target, opts: Style): (h: AdjList)
    requires s in g.vals
    ensures h.vals.Keys == g.vals.Keys + {t.name}
  {
    AddEdge(AddVertex(g, t.name, t.x, t.y, t.drawn, opts), s, t.name, t.weight, opts)
  }

  /** The first `n` targets of source `s`, in order. */
  function AddTargets(g: AdjList, s: string, ts: seq<Target>, n: nat, opts: Style): (h: AdjList)
    requires s in g.vals && n <= |ts|
    ensures s in h.vals
  {
    if n == 0 then g else AddTarget(AddTargets(g, s, ts, n - 1, opts), s, ts[n - 1], opts)
  }

  /** One property of the data object: its source, then its targets. */
  function AddEntry(g: AdjList, e: Entry, opts: Style): AdjList
  {
    AddTargets(AddVertex(g, e.name, e.x, e.y, e.drawn, opts), e.name, e.targets, |e.targets|, opts)
  }

  /** The first `n` properties of the data object, in order. */
  function Populated(g: AdjList, es: seq<Entry>, n: nat, opts: Style): AdjList
    requires n <= |es|
  {
    if n == 0 then g else AddEntry(Populated(g, es, n - 1, opts), es[n - 1], opts)
  }

  // Each property below is proved in three layers: for one target, for
  // the targets of one source, for the entries; the `g1` of a step lemma is
  // the graph built so far.

  // Population keeps the graph closed.

  /** One target keeps the graph closed: its vertex exists before its edge
      is set. */
  lemma TargetClosed(g1: AdjList, s: string, t: Target, opts: Style)
    requires Closed(g1) && s in g1.vals
    ensures Closed(AddTarget(g1, s, t, opts))
  {
  }

  lemma {:induction false} AddTargetsClosed(g: AdjList, s: string, ts: seq<Target>, n: nat, opts: Style, h: AdjList)
    requires Closed(g) && s in g.vals && n <= |ts| && h == AddTargets(g, s, ts, n, opts)
    ensures Closed(h)
  {
    if n > 0 {
      var g1 := AddTargets(g, s, ts, n - 1, opts);
      AddTargetsClosed(g, s, ts, n - 1, opts, g1);
      TargetClosed(g1, s, ts[n - 1], opts);
    }
  }

  /** One property of the data object keeps the graph closed. */
  lemma EntryClosed(g1: AdjList, e: Entry, opts: Style)
    requires Closed(g1)
    ensures Closed(AddEntry(g1, e, opts))
  {
    var g2 := AddVertex(g1, e.name, e.x, e.y, e.drawn, opts);
    AddTargetsClosed(g2, e.name, e.targets, |e.targets|, opts, AddEntry(g1, e, opts));
  }

  /** Every edge population adds leads to a vertex: the graph stays closed. */
  lemma {:induction false} PopulatedClosed(g: AdjList, es: seq<Entry>, n: nat, opts: Style)
    requires Closed(g) && n <= |es|
    ensures Closed(Populated(g, es, n, opts))
  {
    if n > 0 {
      PopulatedClosed(g, es, n - 1, opts);
      EntryClosed(Populated(g, es, n - 1, opts), es[n - 1], opts);
    }
  }

  // What population keeps: existing vertices and edge order

  /** `r'` is `r` with possibly more edges: the old edges keep their places
      and everything but the edge values is the same. */
  ghost predicate Grows(r: Vertex, r': Vertex)
  {
    && r'.x == r.x && r'.y == r.y && r'.style == r.style && r'.state == r.state && r'.setTag == r.setTag
    && |r.edges.keys| <= |r'.edges.keys|
    && (forall i :: 0 <= i < |r.edges.keys| ==> r'.edges.keys[i] == r.edges.keys[i])
    && r.edges.vals.Keys <= r'.edges.vals.Keys
  }

  /** `h` has every vertex of `g` at its old place in the order, each grown. */
  ghost predicate Extends(g: AdjList, h: AdjList)
  {
    && |g.keys| <= |h.keys|
    && (forall i :: 0 <= i < |g.keys| ==> h.keys[i] == g.keys[i])
    && g.vals.Keys <= h.vals.Keys
    && (forall u :: u in g.vals ==> Grows(g.vals[u], h.vals[u]))
  }

  lemma ExtendsTrans(a: AdjList, b: AdjList, c: AdjList)
    requires Extends(a, b) && Extends(b, c)
    ensures Extends(a, c)
  {
  }

  lemma VertexExtends(g1: AdjList, name: string, px: Option<int>, py: Option<int>, drawn: (int, int),
                      opts: Style)
    ensures Extends(g1, AddVertex(g1, name, px, py, drawn, opts))
  {
  }

  lemma TargetExtends(g1: AdjList, s: string, t: Target, opts: Style)
    requires s in g1.vals
    ensures Extends(g1, AddTarget(g1, s, t, opts))
  {
    var g2 := AddVertex(g1, t.name, t.x, t.y, t.drawn, opts);
    VertexExtends(g1, t.name, t.x, t.y, t.drawn, opts);
    EdgeExtends(g2, s, t.name, t.weight, opts);
    ExtendsTrans(g1, g2, AddTarget(g1, s, t, opts));
  }

  lemma EdgeExtends(g: AdjList, s: string, t: string, w: int, opts: Style)
    requires s in g.vals
    ensures Extends(g, AddEdge(g, s, t, w, opts))
  {
    var r := g.vals[s];
    var r' := AddEdge(g, s, t, w, opts).vals[s];
    assert r'.edges == r.edges.Set(t, Edge(w, Pick(opts, EdgeOptionKeys)));
    assert Grows(r, r');
  }

  lemma {:induction false} AddTargetsExtends(g: AdjList, s: string, ts: seq<Target>, n: nat, opts: Style)
    requires s in g.vals && n <= |ts|
    ensures Extends(g, AddTargets(g, s, ts, n, opts))
  {
    if n > 0 {
      var g1 := AddTargets(g, s, ts, n - 1, opts);
      AddTargetsExtends(g, s, ts, n - 1, opts);
      TargetExtends(g1, s, ts[n - 1], opts);
      ExtendsTrans(g, g1, AddTarget(g1, s, ts[n - 1], opts));
    } else {
      assert Extends(g, g);
    }
  }

  lemma EntryExtends(g: AdjList, g1: AdjList, e: Entry, opts: Style)
    requires Extends(g, g1)
    ensures Extends(g1, AddEntry(g1, e, opts))
    ensures Extends(g, AddEntry(g1, e, opts))
  {
    var g2 := AddVertex(g1, e.name, e.x, e.y, e.drawn, opts);
    VertexExtends(g1, e.name, e.x, e.y, e.drawn, opts);
    AddTargetsExtends(g2, e.name, e.targets, |e.targets|, opts);
    ExtendsTrans(g1, g2, AddEntry(g1, e, opts));
    ExtendsTrans(g, g1, AddEntry(g1, e, opts));
  }

  /** Population never recreates a vertex: every existing vertex keeps its
      place in the order, its position, style, state and tag, and every
      edge it had, each in its old place in the edge order. */
  lemma {:induction false} PopulatedExtends(g: AdjList, es: seq<Entry>, n: nat, opts: Style)
    requires n <= |es|
    ensures Extends(g, Populated(g, es, n, opts))
  {
    if n > 0 {
      PopulatedExtends(g, es, n - 1, opts);
      EntryExtends(g, Populated(g, es, n - 1, opts), es[n - 1], opts);
    } else {
      assert Extends(g, g);
    }
  }

  // What population creates: new vertices

  /** `(name, x, y)`: where an occurrence puts its vertex if it creates it. */
  function Placed(name: string, px: Option<int>, py: Option<int>, drawn: (int, int)): (string, int, int)
  {
    var p := Position(px, py, drawn);
    (name, p.0, p.1)
  }

  /** Where the occurrences, as sources or targets, among the first `n`
      entries would put their vertices. */
  function PlacedUpTo(es: seq<Entry>, n: nat): set<(string, int, int)>
    requires n <= |es|
  {
    if n == 0 then {}
    else
      var e := es[n - 1];
      PlacedUpTo(es, n - 1) + {Placed(e.name, e.x, e.y, e.drawn)} + PlacedTargets(e.targets, |e.targets|)
  }

  function PlacedTargets(ts: seq<Target>, n: nat): set<(string, int, int)>
    requires n <= |ts|
  {
    if n == 0 then {} else PlacedTargets(ts, n - 1) + {Placed(ts[n - 1].name, ts[n - 1].x, ts[n - 1].y, ts[n - 1].drawn)}
  }

  /** Every vertex of `h` not in `g` is a record as `createNewVertex`
      makes it: no tag, an empty state, the vertex options as its style, and
      a position one of the occurrences in `P` gives it. */
  ghost predicate Created(g: AdjList, h: AdjList, opts: Style, P: set<(string, int, int)>)
  {
    forall u :: u in h.vals && u !in g.vals ==>
      && h.vals[u].style == Pick(opts, VertexOptionKeys)
      && h.vals[u].state == Text("") && h.vals[u].setTag.None?
      && (u, h.vals[u].x, h.vals[u].y) in P
  }

  lemma CreatedTrans(a: AdjList, b: AdjList, c: AdjList, opts: Style,
                     P: set<(string, int, int)>, Q: set<(string, int, int)>)
    requires Extends(b, c)
    requires Created(a, b, opts, P) && Created(b, c, opts, Q)
    ensures Created(a, c, opts, P + Q)
  {
  }

  lemma TargetCreated(g: AdjList, g1: AdjList, s: string, t: Target, opts: Style, P: set<(string, int, int)>,
                      h: AdjList, P': set<(string, int, int)>)
    requires Created(g, g1, opts, P) && s in g1.vals
    requires h == AddTarget(g1, s, t, opts) && P' == P + {Placed(t.name, t.x, t.y, t.drawn)}
    ensures Created(g, h, opts, P')
  {
    TargetExtends(g1, s, t, opts);
    CreatedTrans(g, g1, h, opts, P, {Placed(t.name, t.x, t.y, t.drawn)});
  }

  lemma {:induction false} AddTargetsCreated(g: AdjList, s: string, ts: seq<Target>, n: nat, opts: Style, h: AdjList)
    requires s in g.vals && n <= |ts| && h == AddTargets(g, s, ts, n, opts)
    ensures Created(g, h, opts, PlacedTargets(ts, n))
  {
    if n > 0 {
      var g1 := AddTargets(g, s, ts, n - 1, opts);
      AddTargetsCreated(g, s, ts, n - 1, opts, g1);
      TargetCreated(g, g1, s, ts[n - 1], opts, PlacedTargets(ts, n - 1), h, PlacedTargets(ts, n));
    }
  }


  lemma EntryCreated(g: AdjList, g1: AdjList, e: Entry, opts: Style, P: set<(string, int, int)>)
    requires Created(g, g1, opts, P)
    ensures Created(g, AddEntry(g1, e, opts), opts,
                    P + {Placed(e.name, e.x, e.y, e.drawn)} + PlacedTargets(e.targets, |e.targets|))
  {
    var g2 := AddVertex(g1, e.name, e.x, e.y, e.drawn, opts);
    VertexExtends(g1, e.name, e.x, e.y, e.drawn, opts);
    assert Created(g1, g2, opts, {Placed(e.name, e.x, e.y, e.drawn)});
    CreatedTrans(g, g1, g2, opts, P, {Placed(e.name, e.x, e.y, e.drawn)});
    AddTargetsCreated(g2, e.name, e.targets, |e.targets|, opts, AddEntry(g1, e, opts));
    AddTargetsExtends(g2, e.name, e.targets, |e.targets|, opts);
    CreatedTrans(g, g2, AddEntry(g1, e, opts), opts, P + {Placed(e.name, e.x, e.y, e.drawn)},
                 PlacedTargets(e.targets, |e.targets|));
  }

  /** Every vertex population adds is a fresh record with an empty state,
      no tag and the vertex options as its style, at the position one of
      its occurrences gives. */
  lemma {:induction false} PopulatedCreated(g: AdjList, es: seq<Entry>, n: nat, opts: Style)
    requires n <= |es|
    ensures Created(g, Populated(g, es, n, opts), opts, PlacedUpTo(es, n))
  {
    if n > 0 {
      PopulatedCreated(g, es, n - 1, opts);
      EntryCreated(g, Populated(g, es, n - 1, opts), es[n - 1], opts, PlacedUpTo(es, n - 1));
    }
  }

  /** The `(name, x, y)` of every occurrence among the first `n` entries
      that gives both coordinates. */
  function GivenUpTo(es: seq<Entry>, n: nat): set<(string, int, int)>
    requires n <= |es|
  {
    if n == 0 then {}
    else
      var e := es[n - 1];
      GivenUpTo(es, n - 1) + Given(e.name, e.x, e.y) + GivenTargets(e.targets, |e.targets|)
  }

  function Given(name: string, px: Option<int>, py: Option<int>): set<(string, int, int)>
  {
    if px.Some? && py.Some? then {(name, px.value, py.value)} else {}
  }

  function GivenTargets(ts: seq<Target>, n: nat): set<(string, int, int)>
    requires n <= |ts|
  {
    if n == 0 then {} else GivenTargets(ts, n - 1) + Given(ts[n - 1].name, ts[n - 1].x, ts[n - 1].y)
  }

  /** A pair `Math.floor(Math.random() * width)`, `... * height` can give. */
  predicate OnCanvas(p: (int, int), width: int, height: int)
  {
    RandomCoord(p.0, width) && RandomCoord(p.1, height)
  }

  /** Every random pair of the data is one the canvas can give. */
  ghost predicate DrawnOnCanvas(es: seq<Entry>, width: int, height: int)
  {
    forall i :: 0 <= i < |es| ==>
      OnCanvas(es[i].drawn, width, height) &&
      forall j :: 0 <= j < |es[i].targets| ==> OnCanvas(es[i].targets[j].drawn, width, height)
  }

  lemma PlacedSplit(name: string, px: Option<int>, py: Option<int>, drawn: (int, int), width: int, height: int)
    requires OnCanvas(drawn, width, height)
    ensures var (u, x, y) := Placed(name, px, py, drawn);
      (u, x, y) in Given(name, px, py) || OnCanvas((x, y), width, height)
  {
  }

  lemma {:induction false} PlacedTargetsSplit(ts: seq<Target>, n: nat, width: int, height: int)
    requires n <= |ts|
    requires forall j :: 0 <= j < |ts| ==> OnCanvas(ts[j].drawn, width, height)
    ensures forall u, x, y :: (u, x, y) in PlacedTargets(ts, n) ==>
      (u, x, y) in GivenTargets(ts, n) || OnCanvas((x, y), width, height)
  {
    if n > 0 {
      PlacedTargetsSplit(ts, n - 1, width, height);
      var t := ts[n - 1];
      PlacedSplit(t.name, t.x, t.y, t.drawn, width, height);
    }
  }

  lemma {:induction false} PlacedUpToSplit(es: seq<Entry>, n: nat, width: int, height: int)
    requires n <= |es| && DrawnOnCanvas(es, width, height)
    ensures forall u, x, y :: (u, x, y) in PlacedUpTo(es, n) ==>
      (u, x, y) in GivenUpTo(es, n) || OnCanvas((x, y), width, height)
  {
    if n > 0 {
      PlacedUpToSplit(es, n - 1, width, height);
      var e := es[n - 1];
      PlacedSplit(e.name, e.x, e.y, e.drawn, width, height);
      PlacedTargetsSplit(e.targets, |e.targets|, width, height);
    }
  }

  /** Explicit coordinates are used only when both are given: with the
      random pairs on the canvas, every new vertex is on the canvas or at a
      pair of coordinates the data gave for it. */
  lemma PopulatedPlaced(g: AdjList, es: seq<Entry>, opts: Style, width: int, height: int)
    requires DrawnOnCanvas(es, width, height)
    ensures forall u :: u in Populated(g, es, |es|, opts).vals && u !in g.vals ==>
      var r := Populated(g, es, |es|, opts).vals[u];
      (u, r.x, r.y) in GivenUpTo(es, |es|) || OnCanvas((r.x, r.y), width, height)
  {
    PopulatedCreated(g, es, |es|, opts);
    PlacedUpToSplit(es, |es|, width, height);
  }

  // What population sets: the edges

  /** The `(source, target, weight)` of every edge listed among the first
      `n` entries. */
  function ListedUpTo(es: seq<Entry>, n: nat): set<(string, string, int)>
    requires n <= |es|
  {
    if n == 0 then {} else ListedUpTo(es, n - 1) + ListedTargets(es[n - 1].name, es[n - 1].targets, |es[n - 1].targets|)
  }

  function ListedTargets(s: string, ts: seq<Target>, n: nat): set<(string, string, int)>
    requires n <= |ts|
  {
    if n == 0 then {} else ListedTargets(s, ts, n - 1) + {(s, ts[n - 1].name, ts[n - 1].weight)}
  }

  /** The edges of `h` against those of `g` and the listed triples `L`:
      every listed edge is present, with a listed weight and a copy of the
      edge options as its style; every other edge of `h` is an edge of `g`,
      unchanged. In particular no edge appears that was neither there nor
      listed: no reverse edge is added. */
  ghost predicate EdgesSet(g: AdjList, h: AdjList, opts: Style, L: set<(string, string, int)>)
  {
    && (forall s, t, w :: (s, t, w) in L ==> s in h.vals && t in h.vals[s].edges.vals)
    && (forall s, t :: s in h.vals && t in h.vals[s].edges.vals ==>
          if exists w :: (s, t, w) in L then
            (s, t, h.vals[s].edges.vals[t].weight) in L && h.vals[s].edges.vals[t].style == Pick(opts, EdgeOptionKeys)
          else
            s in g.vals && t in g.vals[s].edges.vals && h.vals[s].edges.vals[t] == g.vals[s].edges.vals[t])
  }

  lemma EdgesSetTrans(a: AdjList, b: AdjList, c: AdjList, opts: Style,
                      L: set<(string, string, int)>, M: set<(string, string, int)>)
    requires Extends(b, c)
    requires EdgesSet(a, b, opts, L) && EdgesSet(b, c, opts, M)
    ensures EdgesSet(a, c, opts, L + M)
  {
    forall s, t | s in c.vals && t in c.vals[s].edges.vals
      ensures if exists w :: (s, t, w) in L + M then
          (s, t, c.vals[s].edges.vals[t].weight) in L + M && c.vals[s].edges.vals[t].style == Pick(opts, EdgeOptionKeys)
        else
          s in a.vals && t in a.vals[s].edges.vals && c.vals[s].edges.vals[t] == a.vals[s].edges.vals[t]
    {
      if exists w :: (s, t, w) in M {
      } else {
        assert s in b.vals && t in b.vals[s].edges.vals;
      }
    }
  }

  lemma EdgeEdges(g1: AdjList, s: string, t: string, w: int, opts: Style)
    requires s in g1.vals
    ensures EdgesSet(g1, AddEdge(g1, s, t, w, opts), opts, {(s, t, w)})
  {
    var h := AddEdge(g1, s, t, w, opts);
    forall s', t' | s' in h.vals && t' in h.vals[s'].edges.vals
      ensures if exists w' :: (s', t', w') in {(s, t, w)} then
          (s', t', h.vals[s'].edges.vals[t'].weight) in {(s, t, w)} && h.vals[s'].edges.vals[t'].style == Pick(opts, EdgeOptionKeys)
        else
          s' in g1.vals && t' in g1.vals[s'].edges.vals && h.vals[s'].edges.vals[t'] == g1.vals[s'].edges.vals[t']
    {
      if s' == s && t' == t {
        assert (s', t', w) in {(s, t, w)};
      }
    }
  }

  lemma TargetEdges(g: AdjList, g1: AdjList, s: string, t: Target, opts: Style, L: set<(string, string, int)>)
    requires EdgesSet(g, g1, opts, L) && s in g1.vals
    ensures EdgesSet(g, AddTarget(g1, s, t, opts), opts, L + {(s, t.name, t.weight)})
  {
    var g2 := AddVertex(g1, t.name, t.x, t.y, t.drawn, opts);
    VertexExtends(g1, t.name, t.x, t.y, t.drawn, opts);
    assert EdgesSet(g, g2, opts, L);
    EdgeEdges(g2, s, t.name, t.weight, opts);
    assert Extends(g2, AddTarget(g1, s, t, opts));
    EdgesSetTrans(g, g2, AddTarget(g1, s, t, opts), opts, L, {(s, t.name, t.weight)});
  }

  lemma {:induction false} AddTargetsEdges(g: AdjList, s: string, ts: seq<Target>, n: nat, opts: Style)
    requires s in g.vals && n <= |ts|
    ensures EdgesSet(g, AddTargets(g, s, ts, n, opts), opts, ListedTargets(s, ts, n))
  {
    if n > 0 {
      AddTargetsEdges(g, s, ts, n - 1, opts);
      TargetEdges(g, AddTargets(g, s, ts, n - 1, opts), s, ts[n - 1], opts, ListedTargets(s, ts, n - 1));
    }
  }

  lemma EntryEdges(g: AdjList, g1: AdjList, e: Entry, opts: Style, L: set<(string, string, int)>)
    requires EdgesSet(g, g1, opts, L)
    ensures EdgesSet(g, AddEntry(g1, e, opts), opts, L + ListedTargets(e.name, e.targets, |e.targets|))
  {
    var g2 := AddVertex(g1, e.name, e.x, e.y, e.drawn, opts);
    VertexExtends(g1, e.name, e.x, e.y, e.drawn, opts);
    assert EdgesSet(g, g2, opts, L);
    AddTargetsEdges(g2, e.name, e.targets, |e.targets|, opts);
    AddTargetsExtends(g2, e.name, e.targets, |e.targets|, opts);
    EdgesSetTrans(g, g2, AddEntry(g1, e, opts), opts, L, ListedTargets(e.name, e.targets, |e.targets|));
  }

  /** Population sets exactly the listed edges: each listed `source →
      target` is present with a listed weight and a fresh copy of the edge
      options, and every other edge is one that was there before, unchanged.
      No reverse edge is ever inserted. */
  lemma {:induction false} PopulatedEdges(g: AdjList, es: seq<Entry>, n: nat, opts: Style)
    requires n <= |es|
    ensures EdgesSet(g, Populated(g, es, n, opts), opts, ListedUpTo(es, n))
  {
    if n > 0 {
      PopulatedEdges(g, es, n - 1, opts);
      EntryEdges(g, Populated(g, es, n - 1, opts), es[n - 1], opts, ListedUpTo(es, n - 1));
    }
  }

  // ---------------------------------------------------------------------
  // Record-wise rewriting

  /** `g` with `f` applied to every record; the names and their order stay. */
  function MapRecords(g: AdjList, f: Vertex -> Vertex): (h: AdjList)
    ensures h.keys == g.keys && h.vals.Keys == g.vals.Keys
    ensures forall u :: u in g.vals ==> h.vals[u] == f(g.vals[u])
  {
    OrderedMap(g.keys, map u | u in g.vals :: f(g.vals[u]))
  }

  /** The first-draw clamp of one coordinate (pub/scripts/graph.js:235-248). */
  function Clamp(v: int, bound: int): int
  {
    if v < 0 then 40 else if v > bound then bound - 40 else v
  }

  /** A coordinate on the canvas is left alone, and on a canvas at least 40
      pixels wide every clamped coordinate is on it. */
  lemma ClampFacts(v: int, bound: int)
    ensures 0 <= v <= bound ==> Clamp(v, bound) == v
    ensures v < 0 ==> Clamp(v, bound) == 40
    ensures 0 <= v && v > bound ==> Clamp(v, bound) == bound - 40
    ensures 40 <= bound ==> 0 <= Clamp(v, bound) <= bound
  {
  }

  function ClampRecord(width: int, height: int): Vertex -> Vertex
  {
    (r: Vertex) => r.(x := Clamp(r.x, width), y := Clamp(r.y, height))
  }

  /** The records after the first draw: only positions change, a position on
      the canvas stays, and on a canvas of at least 40 by 40 every vertex
      ends up on it. Clamping twice is clamping once. */
  lemma ClampedFacts(g: AdjList, width: int, height: int)
    ensures var h := MapRecords(g, ClampRecord(width, height));
      && h.keys == g.keys && h.vals.Keys == g.vals.Keys
      && (forall u :: u in g.vals ==> h.vals[u] == g.vals[u].(x := h.vals[u].x, y := h.vals[u].y))
      && (forall u :: u in g.vals && 0 <= g.vals[u].x <= width ==> h.vals[u].x == g.vals[u].x)
      && (forall u :: u in g.vals && 0 <= g.vals[u].y <= height ==> h.vals[u].y == g.vals[u].y)
      && (40 <= width && 40 <= height ==>
            && (forall u :: u in h.vals ==> 0 <= h.vals[u].x <= width && 0 <= h.vals[u].y <= height)
            && MapRecords(h, ClampRecord(width, height)) == h)
  {
    var h := MapRecords(g, ClampRecord(width, height));
    if 40 <= width && 40 <= height {
      var k := MapRecords(h, ClampRecord(width, height));
      forall u | u in h.vals
        ensures k.vals[u] == h.vals[u]
      {
        ClampFacts(g.vals[u].x, width);
        ClampFacts(g.vals[u].y, height);
      }
    }
  }

  /** `list[1] += dx; list[2] += dy`: one record of a pan. */
  function ShiftRecord(dx: int, dy: int): Vertex -> Vertex
  {
    (r: Vertex) => r.(x := r.x + dx, y := r.y + dy)
  }

  /** A pan moves every vertex by the same offset, so all differences of
      positions are kept and nothing but positions changes; panning back
      by the opposite offset restores the graph. */
  lemma ShiftedFacts(g: AdjList, dx: int, dy: int)
    ensures var h := MapRecords(g, ShiftRecord(dx, dy));
      && h.keys == g.keys && h.vals.Keys == g.vals.Keys
      && (forall u :: u in g.vals ==> h.vals[u] == g.vals[u].(x := g.vals[u].x + dx, y := g.vals[u].y + dy))
      && (forall u, v :: u in g.vals && v in g.vals ==>
            h.vals[u].x - h.vals[v].x == g.vals[u].x - g.vals[v].x &&
            h.vals[u].y - h.vals[v].y == g.vals[u].y - g.vals[v].y)
      && MapRecords(h, ShiftRecord(-dx, -dy)) == g
  {
    var h := MapRecords(g, ShiftRecord(dx, dy));
    var k := MapRecords(h, ShiftRecord(-dx, -dy));
    assert k.vals == g.vals;
  }

  // ---------------------------------------------------------------------
  // Unstyling

  /** The style `unstyleVertices` gives every listed vertex (pub/scripts/graph.js:327-334). */
  const PlainStyle: Style := map[
    "vertexRadius" := Num(20),
    "vertexFillColor" := Str("white"),
    "textColor" := Str("black"),
    "textFont" := Str("20px Arial"),
    "vertexBorderColor" := Str("black"),
    "vertexBorderWidth" := Num(3)]

  /** Every out-edge's `edgeColor` becomes "black". */
  function Blacken(m: OrderedMap<Edge>): (r: OrderedMap<Edge>)
    ensures r.keys == m.keys && r.vals.Keys == m.vals.Keys
    ensures forall t :: t in m.vals ==> r.vals[t].weight == m.vals[t].weight
  {
    OrderedMap(m.keys, map t | t in m.vals :: m.vals[t].(style := m.vals[t].style["edgeColor" := Str("black")]))
  }

  /** One listed record after unstyling. */
  function Plain(r: Vertex): Vertex
  {
    r.(edges := Blacken(r.edges), style := PlainStyle)
  }

  /** Unstyling a record twice is unstyling it once. */
  lemma PlainTwice(r: Vertex)
    ensures Plain(Plain(r)) == Plain(r)
  {
    var m := r.edges;
    forall t | t in m.vals
      ensures Blacken(Blacken(m)).vals[t] == Blacken(m).vals[t]
    {
      var st := m.vals[t].style;
      assert st["edgeColor" := Str("black")]["edgeColor" := Str("black")] == st["edgeColor" := Str("black")];
    }
    assert Blacken(Blacken(m)).vals == Blacken(m).vals;
  }

  /** The loop of `unstyleVertices` over the first `n` entries of `l`. */
  function Unstyled(g: AdjList, l: seq<string>, n: nat): (h: AdjList)
    requires n <= |l| && forall u :: u in l ==> u in g.vals
    ensures h.keys == g.keys && h.vals.Keys == g.vals.Keys
  {
    if n == 0 then g else var h := Unstyled(g, l, n - 1); h.Update(l[n - 1], Plain(h.vals[l[n - 1]]))
  }

  /** The records named in `S` unstyled, the others untouched. */
  function UnstyleSet(g: AdjList, S: set<string>): (h: AdjList)
    ensures h.keys == g.keys && h.vals.Keys == g.vals.Keys
    ensures forall u :: u in g.vals ==> h.vals[u] == if u in S then Plain(g.vals[u]) else g.vals[u]
  {
    OrderedMap(g.keys, map u | u in g.vals :: if u in S then Plain(g.vals[u]) else g.vals[u])
  }

  /** The names among the first `n` entries of `l`. */
  function NamesUpTo(l: seq<string>, n: nat): (S: set<string>)
    requires n <= |l|
    ensures forall u :: u in S <==> exists j :: 0 <= j < n && l[j] == u
  {
    if n == 0 then {} else NamesUpTo(l, n - 1) + {l[n - 1]}
  }

  /** Unstyling a list comes to unstyling the set of its names: repeated
      entries make no difference. */
  lemma {:induction false} UnstyledIsSet(g: AdjList, l: seq<string>, n: nat)
    requires n <= |l| && forall u :: u in l ==> u in g.vals
    ensures Unstyled(g, l, n) == UnstyleSet(g, NamesUpTo(l, n))
  {
    if n == 0 {
      assert UnstyleSet(g, {}).vals == g.vals;
    } else {
      UnstyledIsSet(g, l, n - 1);
      UnstyleOneMore(g, NamesUpTo(l, n - 1), l[n - 1]);
    }
  }

  lemma UnstyleOneMore(g: AdjList, S: set<string>, v: string)
    requires v in g.vals
    ensures var h := UnstyleSet(g, S); h.Update(v, Plain(h.vals[v])) == UnstyleSet(g, S + {v})
  {
    var h := UnstyleSet(g, S);
    if v in S {
      PlainTwice(g.vals[v]);
    }
    var k := UnstyleSet(g, S + {v});
    assert h.vals[v := Plain(h.vals[v])] == k.vals;
  }

  /** Unstyling touches only styles: names, order, positions, states, tags
      and edge targets and weights stay, and every listed vertex gets the
      fixed style with black out-edges. */
  lemma UnstyledFacts(g: AdjList, l: seq<string>)
    requires forall u :: u in l ==> u in g.vals
    ensures var h := Unstyled(g, l, |l|);
      && h.keys == g.keys && h.vals.Keys == g.vals.Keys
      && (forall u :: u in g.vals ==>
            && h.vals[u].x == g.vals[u].x && h.vals[u].y == g.vals[u].y
            && h.vals[u].state == g.vals[u].state && h.vals[u].setTag == g.vals[u].setTag
            && h.vals[u].edges.keys == g.vals[u].edges.keys
            && h.vals[u].edges.vals.Keys == g.vals[u].edges.vals.Keys)
      && (forall u :: u in l ==>
            && h.vals[u].style == PlainStyle
            && (forall t :: t in h.vals[u].edges.vals ==> Holds(h.vals[u].edges.vals[t].style, "edgeColor", Str("black"))))
      && (forall u :: u in g.vals && u !in l ==> h.vals[u] == g.vals[u])
  {
    UnstyledIsSet(g, l, |l|);
  }

  // ---------------------------------------------------------------------
  // Selecting and moving one vertex

  /** `styleSelectedVertex` on the records: the first vertex whose box holds
      the position gets a red `textColor`. */
  function Selected(g: AdjList, px: int, py: int): (h: AdjList)
    requires Closed(g)
    ensures h.keys == g.keys && h.vals.Keys == g.vals.Keys
  {
    match FirstHit(g, g.keys, px, py)
    case None => g
    case Some(u) => SetStyle(g, u, "textColor", Str("red"))
  }

  /** Selecting changes one record's `textColor`, that of the first hit
      vertex in insertion order, and changes nothing when no box holds the
      position. */
  lemma SelectedFacts(g: AdjList, px: int, py: int)
    requires Closed(g)
    ensures FirstHit(g, g.keys, px, py).None? ==> Selected(g, px, py) == g
    ensures FirstHit(g, g.keys, px, py).Some? ==>
      var u := FirstHit(g, g.keys, px, py).value;
      && u in g.vals && InBox(g.vals[u].x, g.vals[u].y, px, py)
      && (exists i :: 0 <= i < |g.keys| && g.keys[i] == u && NoHitBefore(g, g.keys, i, px, py))
      && Selected(g, px, py).vals == g.vals[u := g.vals[u].(style := g.vals[u].style["textColor" := Str("red")])]
  {
  }
}
