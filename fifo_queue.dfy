/** The offset-plus-slice FIFO `Queue` (pub/graph-lib.js:810-863).

    The items still queued are `queue[offset..]`. A dequeue moves `offset`
    forward and, once the dead prefix is at least half the array, slices it
    off. The ghost history `Enqueued` and the count `Dequeued` give the FIFO
    reading: the live items are always the enqueued ones not yet dequeued,
    in order. */
module Fifo {
  import opened Values

  class Queue<T> {
    var queue: seq<T>
    var offset: nat

    /** Every item ever enqueued, in order, and how many were dequeued. */
    ghost var Enqueued: seq<T>
    ghost var Dequeued: nat

    ghost predicate Valid()
      reads this
    {
      && offset <= |queue|
      && (offset == 0 || 2 * offset < |queue|)
      && Dequeued <= |Enqueued|
      && queue[offset..] == Enqueued[Dequeued..]
    }

    /** The items in the queue, front first. */
    ghost function Contents(): seq<T>
      reads this
      requires Valid()
    {
      queue[offset..]
    }

    constructor ()
      ensures Valid() && Contents() == [] && Enqueued == [] && Dequeued == 0
    {
      queue, offset := [], 0;
      Enqueued, Dequeued := [], 0;
    }

    /** `getLength()`: the number enqueued minus the number dequeued. */
    method GetLength() returns (n: int)
      requires Valid()
      ensures n == |Contents()| == |Enqueued| - Dequeued
    {
      n := |queue| - offset;
    }

    /** `isEmpty()` reads the raw array length; the compaction rule makes it
        agree with an empty queue. */
    method IsEmpty() returns (empty: bool)
      requires Valid()
      ensures empty <==> Contents() == []
      ensures empty <==> |Enqueued| == Dequeued
    {
      empty := |queue| == 0;
    }

    method Enqueue(item: T)
      requires Valid()
      modifies this
      ensures Valid()
      ensures Contents() == old(Contents()) + [item]
      ensures Enqueued == old(Enqueued) + [item] && Dequeued == old(Dequeued)
    {
      queue := queue + [item];
      Enqueued := Enqueued + [item];
    }

    /** `dequeue()`: None plays `undefined` on an empty queue. */
    method Dequeue() returns (item: Option<T>)
      requires Valid()
      modifies this
      ensures Valid()
      ensures old(Contents()) == [] ==> item == None && Contents() == [] && Dequeued == old(Dequeued)
      ensures old(Contents()) != [] ==> item == Some(old(Contents())[0]) && Contents() == old(Contents())[1..]
      ensures old(Contents()) != [] ==> Dequeued == old(Dequeued) + 1 && item == Some(Enqueued[Dequeued - 1])
      ensures Enqueued == old(Enqueued)
    {
      if |queue| == 0 {
        return None;
      }
      var front := queue[offset];
      offset := offset + 1;
      Dequeued := Dequeued + 1;
      if offset * 2 >= |queue| {
        queue := queue[offset..];
        offset := 0;
      }
      item := Some(front);
    }

    /** `peek()`: the front item, without changing anything. */
    method Peek() returns (item: Option<T>)
      requires Valid()
      ensures Contents() == [] ==> item == None
      ensures Contents() != [] ==> item == Some(Contents()[0])
    {
      item := if |queue| > 0 then Some(queue[offset]) else None;
    }
  }
}
