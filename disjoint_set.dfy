/** The union-find `disjointSet` (pub/graph-lib.js:870-972), object mode.

    `add(val)` tags the value itself with `_disjointSetId`; the model keeps
    that tag with the caller's value and passes it in and out as an
    `Option<nat>` (None is `undefined`). In object mode the ids handed out
    are 0, 1, 2, ... in order, so the id-keyed objects `_relations`, `_size`
    and `_objects` are sequences of length `_lastId`. Ghost ranks, growing
    strictly along parent links and bounded by `bound`, show that the walk
    to a root terminates.

    As written, `union` adds the absorbed root's size to the absorbed root,
    not to the surviving one (pub/graph-lib.js:911-917). Every root therefore
    keeps size 1, the branch `size[val1Root] < size[val2Root]` is never
    taken, and `union(val1, val2)` always hangs val2's root under val1's. */
module UnionFind {
  import opened Values

  /** Parent links over the ids 0 .. |rel|-1, with a ghost ranking that grows
      strictly from child to parent and never exceeds `bound`. */
  datatype Forest = Forest(rel: seq<nat>, rank: seq<nat>, bound: nat)
  {
    ghost predicate Valid()
    {
      && |rank| == |rel|
      && (forall x {:trigger rel[x]} :: 0 <= x < |rel| ==> rel[x] < |rel|)
      && (forall x {:trigger rank[x]} :: 0 <= x < |rel| ==> rank[x] <= bound)
      && (forall x {:trigger rel[x]} :: 0 <= x < |rel| && rel[x] != x ==> rank[x] < rank[rel[x]])
    }

    /** The root reached from x by following parent links. */
    ghost function Root(x: nat): (r: nat)
      requires Valid() && x < |rel|
      ensures r < |rel| && rel[r] == r
      ensures rel[x] == x ==> r == x
      decreases bound - rank[x]
    {
      if rel[x] == x then x else Root(rel[x])
    }

    /** The root of an id that may be `undefined` or not below `|rel|`:
        `_findById` walks both to `undefined`. */
    ghost function Lookup(id: Option<nat>): (r: Option<nat>)
      requires Valid()
      ensures r.Some? <==> id.Some? && id.value < |rel|
      ensures r.Some? ==> r.value < |rel| && rel[r.value] == r.value
    {
      if id.Some? && id.value < |rel| then Some(Root(id.value)) else None
    }

    /** A fresh singleton with the next id. */
    ghost function Add(): (f: Forest)
      requires Valid()
      ensures f.Valid() && f.rel == rel + [|rel|]
    {
      Forest(rel + [|rel|], rank + [0], bound)
    }

    /** Root r2 hung under root r1. */
    ghost function Link(r1: nat, r2: nat): (f: Forest)
      requires Valid() && r1 < |rel| && r2 < |rel| && rel[r1] == r1 && rel[r2] == r2 && r1 != r2
      ensures f.Valid() && f.rel == rel[r2 := r1]
    {
      var rank' := if rank[r2] >= rank[r1] then rank[r1 := rank[r2] + 1] else rank;
      var bound' := if rank[r2] + 1 > bound then rank[r2] + 1 else bound;
      Forest(rel[r2 := r1], rank', bound')
    }
  }

  /** Registering a fresh singleton does not move any existing root. */
  lemma {:induction false} AddKeepsRoot(f: Forest, x: nat)
    requires f.Valid() && x < |f.rel|
    ensures f.Add().Root(x) == f.Root(x)
    decreases f.bound - f.rank[x]
  {
    if f.rel[x] != x {
      AddKeepsRoot(f, f.rel[x]);
    }
  }

  /** After hanging root r2 under root r1, exactly the members of r2's set
      change root, and they all move to r1. */
  lemma {:induction false} LinkRoot(f: Forest, r1: nat, r2: nat, x: nat)
    requires f.Valid() && r1 < |f.rel| && r2 < |f.rel| && f.rel[r1] == r1 && f.rel[r2] == r2 && r1 != r2
    requires x < |f.rel|
    ensures f.Link(r1, r2).Root(x) == if f.Root(x) == r2 then r1 else f.Root(x)
    decreases f.bound - f.rank[x]
  {
    var g := f.Link(r1, r2);
    if f.rel[x] == x {
      if x == r2 {
        assert g.rel[x] == r1 && g.rel[r1] == r1;
        assert g.Root(x) == g.Root(r1);
      } else {
        assert g.rel[x] == x;
      }
    } else {
      assert g.rel[x] == f.rel[x];
      LinkRoot(f, r1, r2, f.rel[x]);
      assert g.Root(x) == g.Root(f.rel[x]);
    }
  }

  /** After linking, two ids share a root exactly when they shared one
      before or one was in r1's set and the other in r2's. */
  lemma LinkConnects(f: Forest, r1: nat, r2: nat, x: nat, y: nat)
    requires f.Valid() && r1 < |f.rel| && r2 < |f.rel| && f.rel[r1] == r1 && f.rel[r2] == r2 && r1 != r2
    requires x < |f.rel| && y < |f.rel|
    ensures f.Link(r1, r2).Root(x) == f.Link(r1, r2).Root(y) <==>
      || f.Root(x) == f.Root(y)
      || (f.Root(x) in {r1, r2} && f.Root(y) in {r1, r2})
  {
    LinkRoot(f, r1, r2, x);
    LinkRoot(f, r1, r2, y);
  }

  /** The roots of a forest. */
  function Roots(rel: seq<nat>): (s: set<nat>)
    ensures forall x: nat :: x in s <==> x < |rel| && rel[x] == x
  {
    set x | 0 <= x < |rel| && rel[x] == x
  }

  /** Linking two different roots removes exactly one root. */
  lemma LinkRootCount(rel: seq<nat>, r1: nat, r2: nat)
    requires r1 < |rel| && r2 < |rel| && rel[r1] == r1 && rel[r2] == r2 && r1 != r2
    ensures Roots(rel[r2 := r1]) == Roots(rel) - {r2}
    ensures |Roots(rel[r2 := r1])| == |Roots(rel)| - 1
  {
    assert Roots(rel[r2 := r1]) == Roots(rel) - {r2};
  }

  /** The members of `keys` below `key`. */
  function Below(keys: set<nat>, key: nat): (s: set<nat>)
    ensures forall r :: r in s <==> r in keys && r < key
  {
    set r | r in keys && r < key
  }

  lemma BelowStep(keys: set<nat>, key: nat)
    ensures Below(keys, key + 1) == Below(keys, key) + (if key in keys then {key} else {})
    ensures key !in Below(keys, key)
  {
  }

  /** The values with an id below `n` whose root is `r`, in id order. */
  ghost function MembersOf<T>(f: Forest, objects: seq<T>, r: nat, n: nat): seq<T>
    requires f.Valid() && n <= |f.rel| && n <= |objects|
  {
    if n == 0 then [] else MembersOf(f, objects, r, n - 1) + (if f.Root(n - 1) == r then [objects[n - 1]] else [])
  }

  /** A value lies in the list of root `r` exactly when some id below `n`
      with root `r` holds it. */
  lemma {:induction false} MembersFacts<T>(f: Forest, objects: seq<T>, r: nat, n: nat)
    requires f.Valid() && n <= |f.rel| && n <= |objects|
    ensures forall v :: v in MembersOf(f, objects, r, n) <==> exists j :: 0 <= j < n && f.Root(j) == r && objects[j] == v
  {
    if n > 0 {
      MembersFacts(f, objects, r, n - 1);
    }
  }

  /** Each id's value is in the list of its root. */
  lemma {:induction false} MemberAt<T>(f: Forest, objects: seq<T>, j: nat, n: nat)
    requires f.Valid() && n <= |f.rel| && n <= |objects| && j < n
    ensures objects[j] in MembersOf(f, objects, f.Root(j), n)
  {
    if j < n - 1 {
      MemberAt(f, objects, j, n - 1);
    }
  }

  /** The first loop of `extract()` after the ids below `n`: each id's
      value appended to the list of its root. */
  ghost function GroupsUpTo<T>(f: Forest, objects: seq<T>, n: nat): map<nat, seq<T>>
    requires f.Valid() && n <= |f.rel| && n <= |objects|
  {
    if n == 0 then map[]
    else
      var g := GroupsUpTo(f, objects, n - 1);
      var r := f.Root(n - 1);
      g[r := (if r in g then g[r] else []) + [objects[n - 1]]]
  }

  /** The lists are keyed by the roots of the ids seen, and each holds its
      root's members in id order. */
  lemma {:induction false} GroupsUpToFacts<T>(f: Forest, objects: seq<T>, n: nat)
    requires f.Valid() && n <= |f.rel| && n <= |objects|
    ensures GroupsUpTo(f, objects, n).Keys <= Roots(f.rel)
    ensures forall r :: r in GroupsUpTo(f, objects, n) ==> GroupsUpTo(f, objects, n)[r] == MembersOf(f, objects, r, n)
    ensures forall r :: r in Roots(f.rel) && r !in GroupsUpTo(f, objects, n) ==> MembersOf(f, objects, r, n) == []
  {
    if n > 0 {
      GroupsUpToFacts(f, objects, n - 1);
      var g := GroupsUpTo(f, objects, n - 1);
      var r := f.Root(n - 1);
      assert GroupsUpTo(f, objects, n) == g[r := (if r in g then g[r] else []) + [objects[n - 1]]];
      assert r in Roots(f.rel);
      assert MembersOf(f, objects, r, n) == MembersOf(f, objects, r, n - 1) + [objects[n - 1]];
      forall x | x != r
        ensures MembersOf(f, objects, x, n) == MembersOf(f, objects, x, n - 1)
      {
      }
    }
  }

  /** Once every id is seen, there is one list per root, holding exactly
      its members. */
  lemma GroupsAll<T>(f: Forest, objects: seq<T>)
    requires f.Valid() && |objects| == |f.rel|
    ensures GroupsUpTo(f, objects, |f.rel|).Keys == Roots(f.rel)
    ensures forall r :: r in GroupsUpTo(f, objects, |f.rel|) ==>
      GroupsUpTo(f, objects, |f.rel|)[r] == MembersOf(f, objects, r, |f.rel|)
  {
    var n := |f.rel|;
    GroupsUpToFacts(f, objects, n);
    forall r | r in Roots(f.rel)
      ensures r in GroupsUpTo(f, objects, n)
    {
      MemberAt(f, objects, r, n);
    }
  }

  /** The roots below `n`, in ascending order. */
  function RootsBelow(rel: seq<nat>, n: nat): seq<nat>
    requires n <= |rel|
  {
    if n == 0 then [] else RootsBelow(rel, n - 1) + (if rel[n - 1] == n - 1 then [n - 1] else [])
  }

  /** `RootsBelow` lists every root below `n`, each once, ascending. */
  lemma {:induction false} RootsBelowFacts(rel: seq<nat>, n: nat)
    requires n <= |rel|
    ensures forall x: nat :: x in RootsBelow(rel, n) <==> x < n && rel[x] == x
    ensures forall i, j :: 0 <= i < j < |RootsBelow(rel, n)| ==> RootsBelow(rel, n)[i] < RootsBelow(rel, n)[j]
  {
    if n > 0 {
      RootsBelowFacts(rel, n - 1);
      var rs0 := RootsBelow(rel, n - 1);
      var rs := RootsBelow(rel, n);
      if rel[n - 1] == n - 1 {
        assert rs == rs0 + [n - 1];
        forall i, j | 0 <= i < j < |rs|
          ensures rs[i] < rs[j]
        {
          if j == |rs0| {
            assert rs[i] == rs0[i] && rs0[i] in rs0;
          }
        }
      } else {
        assert rs == rs0;
      }
    }
  }

  /** There are as many of them as there are roots below `n`. */
  lemma {:induction false} RootsBelowCount(rel: seq<nat>, n: nat)
    requires n <= |rel|
    ensures |RootsBelow(rel, n)| == |Below(Roots(rel), n)|
  {
    if n > 0 {
      RootsBelowCount(rel, n - 1);
      BelowStep(Roots(rel), n - 1);
    }
  }

  /** What `extract()` answers for forest `f` over the values `objects`:
      per root, ascending, the values of that root's ids in id order. */
  ghost function Grouped<T>(f: Forest, objects: seq<T>): seq<seq<T>>
    requires f.Valid() && |objects| == |f.rel|
  {
    var rs := RootsBelow(f.rel, |f.rel|);
    seq(|rs|, k requires 0 <= k < |rs| => MembersOf(f, objects, rs[k], |f.rel|))
  }

  /** There is one group per root. */
  lemma GroupedCount<T>(f: Forest, objects: seq<T>)
    requires f.Valid() && |objects| == |f.rel|
    ensures |Grouped(f, objects)| == |Roots(f.rel)|
  {
    RootsBelowCount(f.rel, |f.rel|);
    assert Below(Roots(f.rel), |f.rel|) == Roots(f.rel);
  }

  /** Group `k` is non-empty and holds only values of ids with its root. */
  lemma GroupAt<T>(f: Forest, objects: seq<T>, k: nat)
    requires f.Valid() && |objects| == |f.rel| && k < |Grouped(f, objects)|
    ensures Grouped(f, objects)[k] != []
    ensures forall v :: v in Grouped(f, objects)[k] ==>
      exists id :: 0 <= id < |f.rel| && f.Root(id) == RootsBelow(f.rel, |f.rel|)[k] && objects[id] == v
  {
    var n := |f.rel|;
    var r := RootsBelow(f.rel, n)[k];
    RootsBelowFacts(f.rel, n);
    assert r in RootsBelow(f.rel, n);
    assert Grouped(f, objects)[k] == MembersOf(f, objects, r, n);
    MemberAt(f, objects, r, n);
    forall v | v in Grouped(f, objects)[k]
      ensures exists id :: 0 <= id < n && f.Root(id) == r && objects[id] == v
    {
      MemberWitness(f, objects, r, n, v);
    }
  }

  lemma MemberWitness<T>(f: Forest, objects: seq<T>, r: nat, n: nat, v: T)
    requires f.Valid() && n <= |f.rel| && n <= |objects|
    requires v in MembersOf(f, objects, r, n)
    ensures exists id :: 0 <= id < n && f.Root(id) == r && objects[id] == v
  {
    MembersFacts(f, objects, r, n);
  }

  /** The lists of `byRoot` for the roots `rs`, in that order. */
  ghost function Picked<T>(byRoot: map<nat, seq<T>>, rs: seq<nat>): (groups: seq<seq<T>>)
    requires forall x :: x in rs ==> x in byRoot
    ensures |groups| == |rs| && forall k :: 0 <= k < |rs| ==> groups[k] == byRoot[rs[k]]
  {
    if rs == [] then [] else Picked(byRoot, rs[..|rs| - 1]) + [byRoot[rs[|rs| - 1]]]
  }

  /** The second loop of `extract()`: the lists of `byRoot`, keyed by the
      roots of `rel`, taken in ascending order of their roots. */
  method InRootOrder<T>(byRoot: map<nat, seq<T>>, rel: seq<nat>) returns (groups: seq<seq<T>>)
    requires byRoot.Keys == Roots(rel)
    ensures forall x :: x in RootsBelow(rel, |rel|) ==> x in byRoot
    ensures groups == Picked(byRoot, RootsBelow(rel, |rel|))
  {
    groups := [];
    ghost var rs: seq<nat> := [];
    for key := 0 to |rel|
      invariant rs == RootsBelow(rel, key) && forall x :: x in rs ==> x in byRoot
      invariant groups == Picked(byRoot, rs)
    {
      if key in byRoot {
        groups := groups + [byRoot[key]];
        rs := rs + [key];
        assert rs[..|rs| - 1] == RootsBelow(rel, key);
      }
    }
  }

  /** With one list per root holding its members, the lists in root order
      are the groups. */
  lemma PickedGrouped<T>(f: Forest, objects: seq<T>, byRoot: map<nat, seq<T>>)
    requires f.Valid() && |objects| == |f.rel| && byRoot.Keys == Roots(f.rel)
    requires forall r :: r in byRoot ==> byRoot[r] == MembersOf(f, objects, r, |f.rel|)
    ensures forall x :: x in RootsBelow(f.rel, |f.rel|) ==> x in byRoot
    ensures Picked(byRoot, RootsBelow(f.rel, |f.rel|)) == Grouped(f, objects)
  {
    RootsBelowFacts(f.rel, |f.rel|);
  }

  class DisjointSet<T(==)> {
    var relations: seq<nat>
    var size: seq<int>
    var objects: seq<T>
    var lastId: nat
    ghost var rank: seq<nat>
    ghost var bound: nat

    /** The parent links with their ghost ranking. */
    ghost function Links(): Forest
      reads this
    {
      Forest(relations, rank, bound)
    }

    ghost predicate Valid()
      reads this
    {
      && Links().Valid()
      && |relations| == lastId
      && |size| == lastId
      && |objects| == lastId
      && (forall x :: 0 <= x < lastId ==> size[x] >= 1)
      && (forall r :: 0 <= r < lastId && relations[r] == r ==> size[r] == 1)
    }

    /** What `_findById` answers for an id that may be `undefined` or
        unknown to this instance: both walk to `undefined`. */
    ghost function RootOpt(id: Option<nat>): Option<nat>
      reads this
      requires Valid()
    {
      Links().Lookup(id)
    }

    /** `new disjointSet()`: `_reset` on an instance with no objects. */
    constructor ()
      ensures Valid() && relations == [] && objects == [] && lastId == 0
      ensures Links() == Forest([], [], 0)
    {
      relations, size, objects, lastId := [], [], [], 0;
      rank, bound := [], 0;
    }

    /** `add(val)` for an object value carrying the tag `tag`: registers a
        singleton with the next id only when the value has no tag yet. The
        answer is the value's tag afterwards. */
    method Add(val: T, tag: Option<nat>) returns (newTag: Option<nat>)
      requires Valid()
      modifies this
      ensures Valid()
      ensures tag.Some? ==> newTag == tag && unchanged(this)
      ensures tag.None? ==> newTag == Some(old(lastId)) && lastId == old(lastId) + 1
      ensures tag.None? ==> relations == old(relations) + [old(lastId)]
      ensures tag.None? ==> objects == old(objects) + [val]
      ensures tag.None? ==> Links() == old(Links()).Add()
    {
      if tag.None? {
        var id := lastId;
        relations := relations + [id];
        objects := objects + [val];
        size := size + [1];
        lastId := lastId + 1;
        rank := rank + [0];
        newTag := Some(id);
      } else {
        newTag := tag;
      }
    }

    /** `_findById(id)`: follow parent links until a self-parented id. */
    method FindById(id: Option<nat>) returns (root: Option<nat>)
      requires Valid()
      ensures root == RootOpt(id)
      ensures root.Some? ==> root.value < lastId && relations[root.value] == root.value
    {
      if id.None? || id.value >= lastId {
        return None;
      }
      var rootId: nat := id.value;
      while relations[rootId] != rootId
        invariant rootId < lastId
        invariant Links().Root(rootId) == Links().Root(id.value)
        decreases bound - rank[rootId]
      {
        rootId := relations[rootId];
      }
      root := Some(rootId);
    }

    /** `find(val)` goes through the value's tag. */
    method Find(tag: Option<nat>) returns (root: Option<nat>)
      requires Valid()
      ensures root == RootOpt(tag)
    {
      root := FindById(tag);
    }

    /** `connected(val1, val2)`: both finds agree (two `undefined` agree too). */
    method Connected(tag1: Option<nat>, tag2: Option<nat>) returns (b: bool)
      requires Valid()
      ensures b <==> RootOpt(tag1) == RootOpt(tag2)
    {
      var r1 := Find(tag1);
      var r2 := Find(tag2);
      b := r1 == r2;
    }

    /** `union(val1, val2)`. With both values registered to different roots,
        val2's root is hung under val1's; otherwise nothing changes. */
    method Union(tag1: Option<nat>, tag2: Option<nat>)
      requires Valid()
      requires RootOpt(tag1).Some? <==> RootOpt(tag2).Some?
      modifies this
      ensures Valid()
      ensures objects == old(objects) && lastId == old(lastId)
      ensures old(RootOpt(tag1)) == old(RootOpt(tag2)) ==> unchanged(this)
      ensures old(RootOpt(tag1)) != old(RootOpt(tag2)) ==>
        Links() == old(Links()).Link(old(RootOpt(tag1)).value, old(RootOpt(tag2)).value)
    {
      var val1RootId := Find(tag1);
      var val2RootId := Find(tag2);
      if val1RootId == val2RootId {
        return;
      }
      Link(val1RootId.value, val2RootId.value);
    }

    /** The linking half of `union`, on two different roots. As written the
        size test never holds (both roots have size 1), so r2 goes under r1. */
    method Link(r1: nat, r2: nat)
      requires Valid()
      requires r1 < lastId && r2 < lastId && relations[r1] == r1 && relations[r2] == r2 && r1 != r2
      modifies this
      ensures Valid()
      ensures objects == old(objects) && lastId == old(lastId)
      ensures relations == old(relations)[r2 := r1]
      ensures size == old(size)[r2 := old(size)[r2] + old(size)[r1]]
      ensures Roots(relations) == old(Roots(relations)) - {r2}
      ensures Links() == old(Links()).Link(r1, r2)
    {
      var s1, s2 := size[r1], size[r2];
      assert s1 == 1 && s2 == 1;
      ghost var f := Links();
      var child, parent := if s1 < s2 then r1 else r2, if s1 < s2 then r2 else r1;
      relations := relations[child := parent];
      size := size[child := size[child] + size[parent]];
      rank, bound := f.Link(r1, r2).rank, f.Link(r1, r2).bound;
      assert Links() == f.Link(r1, r2);
      LinkRootCount(f.rel, r1, r2);
    }

    /** The first loop of `extract()`: every registered value appended, in
        id order, to the list of its root. `for (id in _relations)` visits
        the ids in ascending order (they are integer-like keys). The ids
        arrive as strings, so the first comparison `relations["0"] !== "0"`
        holds even at a root; that costs one extra step and reaches the
        same root. */
    method GroupByRoot() returns (byRoot: map<nat, seq<T>>)
      requires Valid()
      ensures byRoot.Keys == Roots(relations)
      ensures forall r :: r in byRoot ==> byRoot[r] == MembersOf(Links(), objects, r, lastId)
    {
      ghost var f := Links();
      byRoot := map[];
      for id := 0 to lastId
        invariant byRoot == GroupsUpTo(f, objects, id)
      {
        var rootId := FindById(Some(id));
        var r := rootId.value;
        assert r == f.Root(id);
        var before := if r in byRoot then byRoot[r] else [];
        byRoot := byRoot[r := before + [objects[id]]];
      }
      GroupsAll(f, objects);
    }

    /** `extract()`: the sets, one list of values per root, the roots taken
        in ascending order (`for (key1 in resObj)` visits integer-like keys
        in ascending order). */
    method Extract() returns (groups: seq<seq<T>>)
      requires Valid()
      ensures groups == Grouped(Links(), objects)
    {
      var byRoot := GroupByRoot();
      groups := InRootOrder(byRoot, relations);
      PickedGrouped(Links(), objects, byRoot);
    }

    /** `_reset()`: forget every set. The answer lists, in id order, the
        values whose `_disjointSetId` tag `_reset` deletes. */
    method Reset() returns (untagged: seq<T>)
      requires Valid()
      modifies this
      ensures Valid() && relations == [] && objects == [] && lastId == 0
      ensures untagged == old(objects)
    {
      untagged := objects;
      relations, size, objects, lastId := [], [], [], 0;
      rank, bound := [], 0;
    }
  }
}
