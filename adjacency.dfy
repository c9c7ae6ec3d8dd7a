/** The adjacency list of a graph (pub/scripts/graph.js:85-100).

    `adjList` is a JavaScript `Map` from vertex name to a five-slot record
    `[edges, x, y, style, state]`, and `edges` is again a `Map` from target
    name to `[weight, style]`. Both maps iterate in insertion order, so an
    ordered map is its key sequence plus its contents. Record slots become
    named fields; the disjoint set's `_disjointSetId` property, which
    Kruskal's run leaves on every record, is the field `setTag`. */
module Adjacency {
  import opened Values

  /** A JavaScript `Map` with string keys: insertion order and contents. */
  datatype OrderedMap<V> = OrderedMap(keys: seq<string>, vals: map<string, V>)
  {
    ghost predicate Valid()
    {
      && Distinct(keys)
      && (forall k :: k in vals <==> k in keys)
    }

    /** `Map.prototype.set`: a present key is overwritten where it stands,
        a new key goes last. */
    function Set(k: string, v: V): (m: OrderedMap<V>)
      ensures Valid() ==> m.Valid()
      ensures m.vals == vals[k := v]
      ensures m.keys == if k in vals then keys else keys + [k]
    {
      if k in vals then OrderedMap(keys, vals[k := v]) else OrderedMap(keys + [k], vals[k := v])
    }

    /** Replaces the value of a present key; the order is untouched. */
    function Update(k: string, v: V): (m: OrderedMap<V>)
      requires k in vals
      ensures m.keys == keys && m.vals == vals[k := v]
      ensures Valid() ==> m.Valid()
    {
      OrderedMap(keys, vals[k := v])
    }
  }

  /** `new Map()`. */
  function EmptyMap<V>(): (m: OrderedMap<V>)
    ensures m.Valid() && m.keys == [] && m.vals == map[]
  {
    OrderedMap([], map[])
  }

  /** The `[weight, style]` value of an edges entry. */
  datatype Edge = Edge(weight: int, style: Style)

  /** Slot 4 of a record: a traversal's state string, or Prim's
      `[Infinity, predecessor]` marker (the infinite key is never read). */
  datatype State = Text(s: string) | Marker(pred: Option<string>)

  /** A vertex record. */
  datatype Vertex = Vertex(edges: OrderedMap<Edge>, x: int, y: int, style: Style, state: State,
                           setTag: Option<nat>)

  type AdjList = OrderedMap<Vertex>

  /** All maps are well formed and every edge's target is a vertex: what
      building the graph by population guarantees. */
  ghost predicate Closed(g: AdjList)
  {
    && g.Valid()
    && (forall u :: u in g.vals ==> g.vals[u].edges.Valid())
    && (forall u, w :: u in g.vals && w in g.vals[u].edges.vals ==> w in g.vals)
  }

  /** Style `t` agrees with style `s` on property `k`: both lack it, or both hold the same value. */
  predicate SameAt(s: Style, t: Style, k: string)
  {
    (k in s <==> k in t) && (k in s ==> s[k] == t[k])
  }

  /** `style[k]` holds value `v`. */
  predicate Holds(s: Style, k: string, v: Value)
  {
    k in s && s[k] == v
  }

  /** `record[3][k] = v` on vertex u. */
  function SetStyle(g: AdjList, u: string, k: string, v: Value): (h: AdjList)
    requires u in g.vals
    ensures h.keys == g.keys && h.vals.Keys == g.vals.Keys
    ensures Holds(h.vals[u].style, k, v)
    ensures forall j :: j in g.vals && j != u ==> h.vals[j] == g.vals[j]
    ensures h.vals[u] == g.vals[u].(style := h.vals[u].style)
    ensures forall p :: p != k ==> SameAt(g.vals[u].style, h.vals[u].style, p)
  {
    g.Update(u, g.vals[u].(style := g.vals[u].style[k := v]))
  }

  /** `record[4] = s` on vertex u. */
  function SetState(g: AdjList, u: string, s: State): (h: AdjList)
    requires u in g.vals
    ensures h.keys == g.keys && h.vals.Keys == g.vals.Keys
    ensures h.vals[u].state == s
    ensures forall j :: j in g.vals && j != u ==> h.vals[j] == g.vals[j]
    ensures h.vals[u] == g.vals[u].(state := s)
  {
    g.Update(u, g.vals[u].(state := s))
  }

  /** `record[0].get(t)[1][k] = v`: a property of the style of edge u -> t. */
  function SetEdgeStyle(g: AdjList, u: string, t: string, k: string, v: Value): (h: AdjList)
    requires u in g.vals && t in g.vals[u].edges.vals
    ensures h.keys == g.keys && h.vals.Keys == g.vals.Keys
    ensures forall j :: j in g.vals && j != u ==> h.vals[j] == g.vals[j]
    ensures h.vals[u] == g.vals[u].(edges := h.vals[u].edges)
    ensures h.vals[u].edges.keys == g.vals[u].edges.keys
    ensures h.vals[u].edges.vals.Keys == g.vals[u].edges.vals.Keys
    ensures Holds(h.vals[u].edges.vals[t].style, k, v)
    ensures h.vals[u].edges.vals[t].weight == g.vals[u].edges.vals[t].weight
    ensures forall p :: p != k ==> SameAt(g.vals[u].edges.vals[t].style, h.vals[u].edges.vals[t].style, p)
    ensures forall j :: j in g.vals[u].edges.vals && j != t ==>
      h.vals[u].edges.vals[j] == g.vals[u].edges.vals[j]
  {
    var e := g.vals[u].edges.vals[t];
    var edges := g.vals[u].edges.Update(t, e.(style := e.style[k := v]));
    g.Update(u, g.vals[u].(edges := edges))
  }

  /** `adjList.forEach(v => v[4] = "")`: every state slot becomes the empty
      string and nothing else changes. */
  function ResetStates(g: AdjList): (h: AdjList)
    ensures h.keys == g.keys && h.vals.Keys == g.vals.Keys
    ensures forall u :: u in g.vals ==> h.vals[u] == g.vals[u].(state := Text(""))
  {
    OrderedMap(g.keys, map u | u in g.vals :: g.vals[u].(state := Text("")))
  }

  /** Every state slot is the empty string, as after a reset. */
  ghost predicate AllReset(g: AdjList)
  {
    forall u :: u in g.vals ==> g.vals[u].state == Text("")
  }

  /** The inclusive 20-pixel box around a vertex at (x, y) holds (px, py). */
  predicate InBox(x: int, y: int, px: int, py: int)
  {
    x - 20 <= px <= x + 20 && y - 20 <= py <= y + 20
  }

  /** None of the first `i` keys of `ks` is hit. */
  predicate NoHitBefore(g: AdjList, ks: seq<string>, i: int, px: int, py: int)
    requires forall k :: k in ks ==> k in g.vals
  {
    forall j :: 0 <= j < i && j < |ks| ==> !InBox(g.vals[ks[j]].x, g.vals[ks[j]].y, px, py)
  }

  /** `Array.from(adjList.entries()).find(...)` over the keys `ks`, in order:
      the first vertex whose box holds the position. */
  function FirstHit(g: AdjList, ks: seq<string>, px: int, py: int): (r: Option<string>)
    requires forall k :: k in ks ==> k in g.vals
    ensures r.Some? ==> r.value in ks && InBox(g.vals[r.value].x, g.vals[r.value].y, px, py)
    ensures r.Some? ==> exists i :: 0 <= i < |ks| && ks[i] == r.value && NoHitBefore(g, ks, i, px, py)
    ensures r.None? <==> forall k :: k in ks ==> !InBox(g.vals[k].x, g.vals[k].y, px, py)
  {
    if ks == [] then None
    else if InBox(g.vals[ks[0]].x, g.vals[ks[0]].y, px, py) then Some(ks[0])
    else
      var r := FirstHit(g, ks[1..], px, py);
      assert r.Some? ==> exists i :: 0 <= i < |ks| && ks[i] == r.value && NoHitBefore(g, ks, i, px, py) by {
        if r.Some? {
          var i :| 0 <= i < |ks[1..]| && ks[1..][i] == r.value && NoHitBefore(g, ks[1..], i, px, py);
          assert ks[i + 1] == r.value;
          HitShift(g, ks, i, px, py);
        }
      }
      r
  }

  /** A miss at the head, then no hit before `i` in the tail: no hit before
      `i + 1`. */
  lemma HitShift(g: AdjList, ks: seq<string>, i: nat, px: int, py: int)
    requires forall k :: k in ks ==> k in g.vals
    requires ks != [] && !InBox(g.vals[ks[0]].x, g.vals[ks[0]].y, px, py) && NoHitBefore(g, ks[1..], i, px, py)
    ensures NoHitBefore(g, ks, i + 1, px, py)
  {
    forall j | 1 <= j < i + 1 && j < |ks|
      ensures !InBox(g.vals[ks[j]].x, g.vals[ks[j]].y, px, py)
    {
      assert ks[j] == ks[1..][j - 1];
    }
  }
}
