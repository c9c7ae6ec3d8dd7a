/** What the two minimum-spanning-tree runners (pub/scripts/algorithms/mst-kruskal.js
    and `mstprim` in pub/graph-lib.js) share: the heap item
    `[source, target, weight]` built from an edge Map entry, and the red
    `edgeColor` written on the accepted edges. */
module Weighted {
  import opened Values
  import opened Adjacency
  import opened PriorityQueue
  import Traversal

  /** A heap item `[source, target, weight]`. */
  datatype WEdge = WEdge(from: string, to: string, weight: int)

  /** The comparator `(e1, e2) => e1[2] - e2[2]` is the difference of this key. */
  function Weight(e: WEdge): int
  {
    e.weight
  }

  // ---------------------------------------------------------------------
  // The heap's items

  /** The entries of `u`'s edge Map, in Map order, as heap items. */
  function OutEdges(u: string, m: OrderedMap<Edge>): (es: seq<WEdge>)
    requires m.Valid()
  {
    OutFrom(u, m.keys, m.vals)
  }

  function OutFrom(u: string, ks: seq<string>, vals: map<string, Edge>): (es: seq<WEdge>)
    requires forall k :: k in ks ==> k in vals
    ensures |es| == |ks|
  {
    if ks == [] then []
    else OutFrom(u, ks[..|ks| - 1], vals) + [WEdge(u, ks[|ks| - 1], vals[ks[|ks| - 1]].weight)]
  }

  /** Item `i` is the `i`-th entry of the Map. */
  lemma {:induction false} OutFromAt(u: string, ks: seq<string>, vals: map<string, Edge>, i: nat)
    requires forall k :: k in ks ==> k in vals
    requires i < |ks|
    ensures OutFrom(u, ks, vals)[i] == WEdge(u, ks[i], vals[ks[i]].weight)
  {
    if i < |ks| - 1 {
      OutFromAt(u, ks[..|ks| - 1], vals, i);
    }
  }

  /** The items of `u`'s Map come from `u`, go to different targets and
      carry the stored weights. */
  lemma OutEdgesFacts(u: string, m: OrderedMap<Edge>)
    requires m.Valid()
    ensures |OutEdges(u, m)| == |m.keys|
    ensures forall e :: e in OutEdges(u, m) ==> e.from == u && e.to in m.vals && m.vals[e.to].weight == e.weight
    ensures forall i, j :: 0 <= i < j < |OutEdges(u, m)| ==> OutEdges(u, m)[i].to != OutEdges(u, m)[j].to
    ensures forall w :: w in m.vals ==> WEdge(u, w, m.vals[w].weight) in OutEdges(u, m)
  {
    var es := OutEdges(u, m);
    forall i | 0 <= i < |es|
      ensures es[i] == WEdge(u, m.keys[i], m.vals[m.keys[i]].weight)
    {
      OutFromAt(u, m.keys, m.vals, i);
    }
    forall w | w in m.vals
      ensures WEdge(u, w, m.vals[w].weight) in es
    {
      var i :| 0 <= i < |m.keys| && m.keys[i] == w;
      assert es[i] == WEdge(u, w, m.vals[w].weight);
    }
  }

  /** `e` is an entry of its source's edge Map, with the stored weight. */
  ghost predicate Stored(g: AdjList, e: WEdge)
  {
    e.from in g.vals && e.to in g.vals[e.from].edges.vals && g.vals[e.from].edges.vals[e.to].weight == e.weight
  }

  // ---------------------------------------------------------------------
  // Colouring the accepted edges

  /** The edges `u -> w` with `(u, w)` in `P`, coloured red. */
  function RedOut(u: string, m: OrderedMap<Edge>, P: set<(string, string)>): (r: OrderedMap<Edge>)
    ensures r.keys == m.keys && r.vals.Keys == m.vals.Keys
    ensures forall w :: w in m.vals ==>
      r.vals[w] == if (u, w) in P then m.vals[w].(style := m.vals[w].style[Traversal.EdgeColor := Str("red")]) else m.vals[w]
  {
    OrderedMap(m.keys, map w | w in m.vals ::
      if (u, w) in P then m.vals[w].(style := m.vals[w].style[Traversal.EdgeColor := Str("red")]) else m.vals[w])
  }

  function RedAt(g: AdjList, P: set<(string, string)>): (h: AdjList)
    ensures h.keys == g.keys && h.vals.Keys == g.vals.Keys
    ensures forall u :: u in g.vals ==> h.vals[u] == g.vals[u].(edges := RedOut(u, g.vals[u].edges, P))
  {
    OrderedMap(g.keys, map u | u in g.vals :: g.vals[u].(edges := RedOut(u, g.vals[u].edges, P)))
  }

  /** The source and target of the edges in `sol`. */
  function Pairs(sol: seq<WEdge>): (P: set<(string, string)>)
    ensures forall e :: e in sol ==> (e.from, e.to) in P
    ensures forall u, w :: (u, w) in P ==> exists e :: e in sol && e.from == u && e.to == w
  {
    set e | e in sol :: (e.from, e.to)
  }

  /** Colouring nothing changes nothing. */
  lemma RedAtNone(g: AdjList)
    ensures RedAt(g, {}) == g
  {
    forall u | u in g.vals
      ensures RedAt(g, {}).vals[u] == g.vals[u]
    {
      var m := g.vals[u].edges;
      assert RedOut(u, m, {}).vals == m.vals;
    }
    assert RedAt(g, {}).vals == g.vals;
  }

  /** Colouring one more edge is `SetEdgeStyle` on it. */
  lemma RedAtStep(g: AdjList, P: set<(string, string)>, u: string, w: string)
    requires u in g.vals && w in g.vals[u].edges.vals
    ensures SetEdgeStyle(RedAt(g, P), u, w, Traversal.EdgeColor, Str("red")) == RedAt(g, P + {(u, w)})
  {
    var h := RedAt(g, P);
    var h' := SetEdgeStyle(h, u, w, Traversal.EdgeColor, Str("red"));
    var r := RedAt(g, P + {(u, w)});
    var m := g.vals[u].edges;
    RedOutStep(u, m, P, w);
    assert h'.vals[u] == r.vals[u];
    forall x | x in g.vals && x != u
      ensures h'.vals[x] == r.vals[x]
    {
      assert RedOut(x, g.vals[x].edges, P) == RedOut(x, g.vals[x].edges, P + {(u, w)});
    }
    assert h'.vals == r.vals;
  }

  lemma RedOutStep(u: string, m: OrderedMap<Edge>, P: set<(string, string)>, w: string)
    requires w in m.vals
    ensures RedOut(u, m, P).Update(w, RedOut(u, m, P).vals[w].(style := RedOut(u, m, P).vals[w].style[Traversal.EdgeColor := Str("red")]))
      == RedOut(u, m, P + {(u, w)})
  {
    var a := RedOut(u, m, P);
    var b := RedOut(u, m, P + {(u, w)});
    var e := a.vals[w];
    var c := a.vals[w := e.(style := e.style[Traversal.EdgeColor := Str("red")])];
    forall x | x in m.vals
      ensures c[x] == b.vals[x]
    {
      if x == w {
        var s0 := m.vals[w].style;
        assert s0[Traversal.EdgeColor := Str("red")][Traversal.EdgeColor := Str("red")] == s0[Traversal.EdgeColor := Str("red")];
      } else {
        assert (u, x) in P + {(u, w)} <==> (u, x) in P;
      }
    }
    assert c == b.vals;
  }

  lemma PairsNone(sol: seq<WEdge>)
    requires sol == []
    ensures Pairs(sol) == {}
  {
    forall x: (string, string)
      ensures x !in Pairs(sol)
    {
      assert x == (x.0, x.1);
    }
  }

  /** Appending an edge adds its pair. */
  lemma PairsSnoc(sol: seq<WEdge>, e: WEdge)
    ensures Pairs(sol + [e]) == Pairs(sol) + {(e.from, e.to)}
  {
  }

  lemma PaintStep(g1: AdjList, sol: seq<WEdge>, i: nat)
    requires i < |sol| && sol[i].from in g1.vals && sol[i].to in g1.vals[sol[i].from].edges.vals
    ensures SetEdgeStyle(RedAt(g1, Pairs(sol[..i])), sol[i].from, sol[i].to, Traversal.EdgeColor, Str("red"))
      == RedAt(g1, Pairs(sol[..i + 1]))
  {
    var e := sol[i];
    RedAtStep(g1, Pairs(sol[..i]), e.from, e.to);
    Traversal.TakeOneMore(sol, i);
    assert Pairs(sol[..i + 1]) == Pairs(sol[..i]) + {(e.from, e.to)};
  }

  // ---------------------------------------------------------------------
  // Filling the heap

  /** Pushing the items of one edge Map, in Map order: the
      `forEach((v2) => a.push([v[0], v2[0], v2[1][0]]))` of the Kruskal runner
      and the root's pushes of the Prim runner. */
  method PushEdges(heap: TinyQueue<WEdge>, u: string, m: OrderedMap<Edge>)
    requires m.Valid() && heap.Valid()
    modifies heap
    ensures heap.Valid()
    ensures heap.Contents() == old(heap.Contents()) + multiset(OutEdges(u, m))
  {
    ghost var es := OutEdges(u, m);
    var j := 0;
    while j < |m.keys|
      invariant 0 <= j <= |m.keys|
      invariant heap.Valid()
      invariant heap.Contents() == old(heap.Contents()) + multiset(es[..j])
    {
      var w := m.keys[j];
      heap.Push(WEdge(u, w, m.vals[w].weight));
      OutFromAt(u, m.keys, m.vals, j);
      Traversal.TakeOneMore(es, j);
      j := j + 1;
    }
    Traversal.TakeAll(es);
  }
}
