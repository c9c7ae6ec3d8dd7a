/** The array binary heap `TinyQueue` (pub/graph-lib.js:977-1051).

    The source takes a comparator `compare(a, b)` and only ever asks for the
    sign of its answer. Both comparators of the core (`e1[2] - e2[2]` in the
    two minimum-spanning-tree runners) are differences of an integer key,
    and so is the sign of `defaultCompare` on numbers; the model therefore
    fixes `Compare(a, b) = key(a) - key(b)` for a caller-chosen `key`.

    The loops of `_up` and `_down` keep the moving item aside and write it
    once at the end (a "hole"); `SiftUp` and `SiftDown` below are the same
    loops written as recursive functions, and the methods are proved to
    compute exactly them. */
module PriorityQueue {
  import opened Values

  function Compare<T>(key: T -> int, a: T, b: T): int
  {
    key(a) - key(b)
  }

  function Parent(i: nat): nat
    requires i > 0
  {
    (i - 1) / 2
  }

  /** Every element is no smaller than its parent. */
  ghost predicate IsHeap<T>(key: T -> int, d: seq<T>)
  {
    forall i :: 0 < i < |d| ==> key(d[Parent(i)]) <= key(d[i])
  }

  /** The parent edges whose parent index is at least k hold. */
  ghost predicate HeapFrom<T>(key: T -> int, d: seq<T>, k: nat)
  {
    forall i :: 0 < i < |d| && Parent(i) >= k ==> key(d[Parent(i)]) <= key(d[i])
  }

  /** `_up(pos)` with `item` held aside while the hole at `pos` rises. */
  function SiftUp<T>(key: T -> int, d: seq<T>, pos: nat, item: T): (r: seq<T>)
    requires pos < |d|
    ensures |r| == |d|
    decreases pos
  {
    if pos > 0 && Compare(key, item, d[Parent(pos)]) < 0 then
      SiftUp(key, d[pos := d[Parent(pos)]], Parent(pos), item)
    else
      d[pos := item]
  }

  /** The child `_down` descends to: the right one only when strictly smaller. */
  function BestChild<T>(key: T -> int, d: seq<T>, pos: nat): (c: nat)
    requires pos < |d| / 2
    ensures c == 2 * pos + 1 || c == 2 * pos + 2
    ensures c < |d|
  {
    var left := 2 * pos + 1;
    var right := left + 1;
    if right < |d| && Compare(key, d[right], d[left]) < 0 then right else left
  }

  /** `_down(pos)` with `item` held aside while the hole at `pos` sinks. */
  function SiftDown<T>(key: T -> int, d: seq<T>, pos: nat, item: T): (r: seq<T>)
    requires pos < |d|
    ensures |r| == |d|
    decreases |d| - pos
  {
    if pos < |d| / 2 then
      var best := BestChild(key, d, pos);
      if Compare(key, d[best], item) >= 0 then d[pos := item]
      else SiftDown(key, d[pos := d[best]], best, item)
    else
      d[pos := item]
  }

  /** The constructor's loop `for (i = (length >> 1) - 1; i >= 0; i--) _down(i)`,
      from index i downwards. */
  function Heapify<T>(key: T -> int, d: seq<T>, i: int): (r: seq<T>)
    requires -1 <= i < |d|
    ensures |r| == |d|
    decreases i + 1
  {
    if i < 0 then d else Heapify(key, SiftDown(key, d, i, d[i]), i - 1)
  }

  /** The heap array after the constructor: heapified when not empty. */
  function Build<T>(key: T -> int, d: seq<T>): (r: seq<T>)
    ensures |r| == |d|
  {
    if |d| > 0 then Heapify(key, d, |d| / 2 - 1) else d
  }

  /** The heap array after `push(item)`. */
  function PushData<T>(key: T -> int, d: seq<T>, item: T): (r: seq<T>)
    ensures |r| == |d| + 1
  {
    SiftUp(key, d + [item], |d|, item)
  }

  /** The heap array after `pop()` on a non-empty heap: the last element is
      taken off and, when something remains, sifted down from the root. */
  function PopData<T>(key: T -> int, d: seq<T>): (r: seq<T>)
    requires |d| > 0
    ensures |r| == |d| - 1
  {
    var bottom := d[|d| - 1];
    var rest := d[..|d| - 1];
    if |rest| > 0 then SiftDown(key, rest[0 := bottom], 0, bottom) else rest
  }

  // ---------------------------------------------------------------------
  // Heap order and contents

  /** The state of `_up` with the hole at `pos`: every parent edge that does
      not touch the hole holds, the held item fits above the hole's children,
      and so does the hole's parent. */
  ghost predicate UpHole<T>(key: T -> int, d: seq<T>, pos: nat, item: T)
  {
    && pos < |d|
    && (forall i :: 0 < i < |d| && i != pos && Parent(i) != pos ==> key(d[Parent(i)]) <= key(d[i]))
    && (forall i :: 0 < i < |d| && Parent(i) == pos ==> key(item) <= key(d[i]))
    && (pos > 0 ==> forall i :: 0 < i < |d| && Parent(i) == pos ==> key(d[Parent(pos)]) <= key(d[i]))
  }

  /** One iteration of `_up` keeps the hole state. */
  lemma SiftUpStep<T>(key: T -> int, d: seq<T>, pos: nat, item: T)
    requires UpHole(key, d, pos, item)
    requires pos > 0 && key(item) < key(d[Parent(pos)])
    ensures UpHole(key, d[pos := d[Parent(pos)]], Parent(pos), item)
  {
    var p := Parent(pos);
    var d' := d[pos := d[p]];
    forall i | 0 < i < |d'| && i != p && Parent(i) != p
      ensures key(d'[Parent(i)]) <= key(d'[i])
    {
      if i == pos {
      } else if Parent(i) == pos {
      } else {
      }
    }
    forall i | 0 < i < |d'| && Parent(i) == p
      ensures key(item) <= key(d'[i])
    {
      if i != pos {
        assert key(d[p]) <= key(d[i]);
      }
    }
    if p > 0 {
      assert Parent(p) != pos && p != pos;
      forall i | 0 < i < |d'| && Parent(i) == p
        ensures key(d'[Parent(p)]) <= key(d'[i])
      {
        assert key(d[Parent(p)]) <= key(d[p]);
        if i != pos {
          assert key(d[p]) <= key(d[i]);
        }
      }
    }
  }

  /** Writing the item where `_up` stops gives a heap. */
  lemma SiftUpStop<T>(key: T -> int, d: seq<T>, pos: nat, item: T)
    requires UpHole(key, d, pos, item)
    requires pos > 0 ==> key(item) >= key(d[Parent(pos)])
    ensures IsHeap(key, d[pos := item])
  {
    var r := d[pos := item];
    forall i | 0 < i < |r| ensures key(r[Parent(i)]) <= key(r[i]) {
      if i == pos {
      } else if Parent(i) == pos {
      } else {
      }
    }
  }

  lemma {:induction false} SiftUpCorrect<T>(key: T -> int, d: seq<T>, pos: nat, item: T)
    requires UpHole(key, d, pos, item)
    ensures IsHeap(key, SiftUp(key, d, pos, item))
    ensures multiset(SiftUp(key, d, pos, item)) == multiset(d[pos := item])
    decreases pos
  {
    if pos > 0 && Compare(key, item, d[Parent(pos)]) < 0 {
      var p := Parent(pos);
      SiftUpStep(key, d, pos, item);
      SiftUpCorrect(key, d[pos := d[p]], p, item);
      SwapMultiset(d, pos, p, item);
    } else {
      SiftUpStop(key, d, pos, item);
    }
  }

  /** Moving the value at p to q and putting x at p has the same contents as
      putting x at q. */
  lemma SwapMultiset<T>(d: seq<T>, q: nat, p: nat, x: T)
    requires p < |d| && q < |d| && p != q
    ensures multiset(d[q := d[p]][p := x]) == multiset(d[q := x])
  {
    var a := d[q := d[p]][p := x];
    var b := d[q := x];
    calc {
      multiset(a);
      multiset(d[q := d[p]]) - multiset{d[p]} + multiset{x};
      multiset(d) - multiset{d[q]} + multiset{d[p]} - multiset{d[p]} + multiset{x};
      multiset(d) - multiset{d[q]} + multiset{x};
      multiset(b);
    }
  }

  /** The state of `_down` with the hole at `pos`, below the start index k:
      parent edges from index k on that do not touch the hole hold, and the
      hole's parent fits above both the held item and the hole's children. */
  ghost predicate DownHole<T>(key: T -> int, d: seq<T>, k: nat, pos: nat, item: T)
  {
    && k <= pos < |d|
    && (forall i :: 0 < i < |d| && Parent(i) >= k && i != pos && Parent(i) != pos ==> key(d[Parent(i)]) <= key(d[i]))
    && (pos > k ==> key(d[Parent(pos)]) <= key(item))
    && (pos > k ==> forall i :: 0 < i < |d| && Parent(i) == pos ==> key(d[Parent(pos)]) <= key(d[i]))
  }

  /** One iteration of `_down` keeps the hole state. */
  lemma SiftDownStep<T>(key: T -> int, d: seq<T>, k: nat, pos: nat, item: T)
    requires DownHole(key, d, k, pos, item)
    requires pos < |d| / 2 && key(d[BestChild(key, d, pos)]) < key(item)
    ensures DownHole(key, d[pos := d[BestChild(key, d, pos)]], k, BestChild(key, d, pos), item)
  {
    var best := BestChild(key, d, pos);
    var d' := d[pos := d[best]];
    assert Parent(best) == pos;
    forall i | 0 < i < |d'| && Parent(i) >= k && i != best && Parent(i) != best
      ensures key(d'[Parent(i)]) <= key(d'[i])
    {
      if i == pos {
        assert Parent(pos) >= k && pos > k;
      } else if Parent(i) == pos {
        assert i == 2 * pos + 1 || i == 2 * pos + 2;
      } else {
      }
    }
    forall i | 0 < i < |d'| && Parent(i) == best
      ensures key(d'[Parent(best)]) <= key(d'[i])
    {
      assert key(d[best]) <= key(d[i]);
    }
  }

  /** Writing the item where `_down` stops gives a heap from k on. */
  lemma SiftDownStop<T>(key: T -> int, d: seq<T>, k: nat, pos: nat, item: T)
    requires DownHole(key, d, k, pos, item)
    requires pos < |d| / 2 ==> key(d[BestChild(key, d, pos)]) >= key(item)
    ensures HeapFrom(key, d[pos := item], k)
  {
    var r := d[pos := item];
    forall i | 0 < i < |r| && Parent(i) >= k ensures key(r[Parent(i)]) <= key(r[i]) {
      if i == pos {
      } else if Parent(i) == pos {
        assert i == 2 * pos + 1 || i == 2 * pos + 2;
        assert pos < |d| / 2;
      } else {
      }
    }
  }

  lemma {:induction false} SiftDownCorrect<T>(key: T -> int, d: seq<T>, k: nat, pos: nat, item: T)
    requires DownHole(key, d, k, pos, item)
    ensures HeapFrom(key, SiftDown(key, d, pos, item), k)
    ensures multiset(SiftDown(key, d, pos, item)) == multiset(d[pos := item])
    decreases |d| - pos
  {
    if pos < |d| / 2 && Compare(key, d[BestChild(key, d, pos)], item) < 0 {
      var best := BestChild(key, d, pos);
      SiftDownStep(key, d, k, pos, item);
      SiftDownCorrect(key, d[pos := d[best]], k, best, item);
      SwapMultiset(d, pos, best, item);
    } else {
      SiftDownStop(key, d, k, pos, item);
    }
  }

  /** `_down(k)` turns "heap below k" into "heap from k". */
  lemma SiftDownAt<T>(key: T -> int, d: seq<T>, k: nat)
    requires k < |d| && HeapFrom(key, d, k + 1)
    ensures HeapFrom(key, SiftDown(key, d, k, d[k]), k)
    ensures multiset(SiftDown(key, d, k, d[k])) == multiset(d)
  {
    assert d[k := d[k]] == d;
    SiftDownCorrect(key, d, k, k, d[k]);
  }

  lemma {:induction false} HeapifyCorrect<T>(key: T -> int, d: seq<T>, i: int)
    requires -1 <= i < |d|
    requires HeapFrom(key, d, i + 1)
    ensures IsHeap(key, Heapify(key, d, i))
    ensures multiset(Heapify(key, d, i)) == multiset(d)
    decreases i + 1
  {
    if i >= 0 {
      SiftDownAt(key, d, i);
      HeapifyCorrect(key, SiftDown(key, d, i, d[i]), i - 1);
    }
  }

  /** After the constructor the array is a heap with the given contents. */
  lemma BuildCorrect<T>(key: T -> int, d: seq<T>)
    ensures IsHeap(key, Build(key, d))
    ensures multiset(Build(key, d)) == multiset(d)
  {
    if |d| > 0 {
      assert HeapFrom(key, d, |d| / 2) by {
        forall i | 0 < i < |d| && Parent(i) >= |d| / 2 ensures false { }
      }
      HeapifyCorrect(key, d, |d| / 2 - 1);
    }
  }

  /** `push` keeps the heap order and adds exactly the pushed item. */
  lemma PushCorrect<T>(key: T -> int, d: seq<T>, item: T)
    requires IsHeap(key, d)
    ensures IsHeap(key, PushData(key, d, item))
    ensures multiset(PushData(key, d, item)) == multiset(d) + multiset{item}
  {
    var e := d + [item];
    forall i | 0 < i < |e| && i != |d| && Parent(i) != |d|
      ensures key(e[Parent(i)]) <= key(e[i])
    {
      assert e[i] == d[i] && e[Parent(i)] == d[Parent(i)];
    }
    forall i | 0 < i < |e| && Parent(i) == |d| ensures false { }
    SiftUpCorrect(key, e, |d|, item);
    assert e[|d| := item] == e;
  }

  /** The root of a heap is no greater than any element. */
  lemma {:induction false} RootIsMinimum<T>(key: T -> int, d: seq<T>, i: nat)
    requires IsHeap(key, d) && i < |d|
    ensures key(d[0]) <= key(d[i])
    decreases i
  {
    if i > 0 {
      RootIsMinimum(key, d, Parent(i));
    }
  }

  /** `pop` on a non-empty heap removes one occurrence of the root, which is
      no greater than anything left, and keeps the heap order. */
  lemma PopCorrect<T>(key: T -> int, d: seq<T>)
    requires IsHeap(key, d) && |d| > 0
    ensures IsHeap(key, PopData(key, d))
    ensures multiset(PopData(key, d)) + multiset{d[0]} == multiset(d)
    ensures forall y :: y in PopData(key, d) ==> key(d[0]) <= key(y)
  {
    var bottom := d[|d| - 1];
    var rest := d[..|d| - 1];
    assert d == rest + [bottom];
    var r := PopData(key, d);
    if |rest| > 0 {
      var e := rest[0 := bottom];
      assert HeapFrom(key, e, 1) by {
        forall i | 0 < i < |e| && Parent(i) >= 1 ensures key(e[Parent(i)]) <= key(e[i]) {
          assert e[i] == d[i] && e[Parent(i)] == d[Parent(i)];
        }
      }
      SiftDownAt(key, e, 0);
      assert HeapFrom(key, r, 0);
      calc {
        multiset(r) + multiset{d[0]};
        multiset(e) + multiset{d[0]};
        multiset(rest) - multiset{rest[0]} + multiset{bottom} + multiset{d[0]};
        { assert rest[0] == d[0]; }
        multiset(rest) + multiset{bottom};
        multiset(d);
      }
    } else {
      assert r == [] && d == [d[0]];
    }
    forall y | y in r ensures key(d[0]) <= key(y) {
      assert y in multiset(r);
      assert y in multiset(d);
      var j :| 0 <= j < |d| && d[j] == y;
      RootIsMinimum(key, d, j);
    }
  }

  // ---------------------------------------------------------------------
  // The class

  class TinyQueue<T> {
    var data: seq<T>
    var length: nat
    const key: T -> int

    ghost predicate Valid()
      reads this
    {
      length == |data| && IsHeap(key, data)
    }

    /** The elements currently held, as a multiset. */
    ghost function Contents(): multiset<T>
      reads this
    {
      multiset(data)
    }

    /** `new TinyQueue(data, compare)`: keeps the array and heapifies it. */
    constructor (init: seq<T>, key: T -> int)
      ensures Valid()
      ensures this.key == key
      ensures data == Build(key, init)
      ensures Contents() == multiset(init)
    {
      this.data := init;
      this.length := |init|;
      this.key := key;
      new;
      if length > 0 {
        var i := length / 2 - 1;
        while i >= 0
          invariant -1 <= i < |data| && length == |data| == |init|
          invariant Heapify(key, data, i) == Build(key, init)
          invariant key == this.key
          decreases i + 1
        {
          Down(i);
          i := i - 1;
        }
      }
      BuildCorrect(key, init);
    }

    method Push(item: T)
      requires Valid()
      modifies this
      ensures Valid()
      ensures data == PushData(key, old(data), item)
      ensures Contents() == old(Contents()) + multiset{item}
    {
      PushCorrect(key, data, item);
      data := data + [item];
      Up(length);
      length := length + 1;
    }

    /** `pop()`: None plays `undefined` on an empty heap. */
    method Pop() returns (top: Option<T>)
      requires Valid()
      modifies this
      ensures Valid()
      ensures old(length) == 0 ==> top == None && data == old(data)
      ensures old(length) > 0 ==> top == Some(old(data)[0]) && data == PopData(key, old(data))
      ensures old(length) > 0 ==> Contents() + multiset{top.value} == old(Contents())
      ensures old(length) > 0 ==> forall y :: y in data ==> key(top.value) <= key(y)
    {
      if length == 0 {
        return None;
      }
      PopCorrect(key, data);
      var first := data[0];
      var bottom := data[|data| - 1];
      data := data[..|data| - 1];
      length := length - 1;
      if length > 0 {
        data := data[0 := bottom];
        Down(0);
      }
      top := Some(first);
    }

    /** `peek()`: the root, without changing anything. */
    method Peek() returns (top: Option<T>)
      requires Valid()
      ensures length == 0 ==> top == None
      ensures length > 0 ==> top == Some(data[0])
      ensures length > 0 ==> forall y :: y in data ==> key(top.value) <= key(y)
    {
      if length == 0 {
        top := None;
      } else {
        top := Some(data[0]);
        forall y | y in data ensures key(data[0]) <= key(y) {
          var j :| 0 <= j < |data| && data[j] == y;
          RootIsMinimum(key, data, j);
        }
      }
    }

    /** `_up(pos)`. */
    method Up(pos: nat)
      requires pos < |data|
      modifies this`data
      ensures data == SiftUp(key, old(data), pos, old(data)[pos])
    {
      var item := data[pos];
      var p := pos;
      while p > 0
        invariant p < |data|
        invariant SiftUp(key, data, p, item) == SiftUp(key, old(data), pos, item)
        decreases p
      {
        var parent := (p - 1) / 2;
        var current := data[parent];
        if Compare(key, item, current) >= 0 {
          break;
        }
        data := data[p := current];
        p := parent;
      }
      data := data[p := item];
    }

    /** `_down(pos)`; `halfLength` is `this.length >> 1`. */
    method Down(pos: nat)
      requires pos < |data| && length == |data|
      modifies this`data
      ensures data == SiftDown(key, old(data), pos, old(data)[pos])
    {
      var halfLength := length / 2;
      var item := data[pos];
      var p := pos;
      while p < halfLength
        invariant p < |data| == length
        invariant SiftDown(key, data, p, item) == SiftDown(key, old(data), pos, item)
        decreases |data| - p
      {
        var bestChild := 2 * p + 1;
        var right := bestChild + 1;
        if right < length && Compare(key, data[right], data[bestChild]) < 0 {
          bestChild := right;
        }
        if Compare(key, data[bestChild], item) >= 0 {
          break;
        }
        data := data[p := data[bestChild]];
        p := bestChild;
      }
      data := data[p := item];
    }
  }
}
