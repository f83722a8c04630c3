// What a run of pushes does to a bounded drop-new FIFO when nothing is popped in
// between: each item is appended while there is room, and dropped once the queue
// is full (src/event_queue.cpp:83-94, src/action_queue.h:6).
module Fifo {

  /** The contents after pushing `items` in order onto contents `c` of a queue holding at most `cap` items. */
  function PushAll<T>(c: seq<T>, items: seq<T>, cap: nat): seq<T>
    decreases |items|
  {
    if items == [] then c
    else PushAll(if |c| < cap then c + [items[0]] else c, items[1..], cap)
  }

  /** How many of `items` a queue holding `n` of at most `cap` items accepts. */
  function Accepted(n: nat, count: nat, cap: nat): (k: nat)
    ensures k <= count
  {
    if n >= cap then 0 else if count <= cap - n then count else cap - n
  }

  /** One push appends the item when there is room and leaves the queue unchanged otherwise. */
  lemma PushOne<T>(c: seq<T>, x: T, cap: nat)
    ensures PushAll(c, [x], cap) == if |c| < cap then c + [x] else c
  {
    assert [x][1..] == [];
  }

  /** Drop-new: the pushed items that fit are appended in order, every later one is dropped. */
  lemma {:induction false} PushAllKeepsOldest<T>(c: seq<T>, items: seq<T>, cap: nat)
    ensures PushAll(c, items, cap) == c + items[..Accepted(|c|, |items|, cap)]
    decreases |items|
  {
    if items != [] {
      var c' := if |c| < cap then c + [items[0]] else c;
      PushAllKeepsOldest(c', items[1..], cap);
      if |c| < cap {
        assert items[1..][..Accepted(|c'|, |items| - 1, cap)] == items[1..Accepted(|c|, |items|, cap)];
        assert c' + items[1..Accepted(|c|, |items|, cap)] == c + items[..Accepted(|c|, |items|, cap)];
      }
    }
  }

  /** Pushing `a` then `b` is pushing `a + b`. */
  lemma {:induction false} PushAllAppend<T>(c: seq<T>, a: seq<T>, b: seq<T>, cap: nat)
    ensures PushAll(PushAll(c, a, cap), b, cap) == PushAll(c, a + b, cap)
    decreases |a|
  {
    if a != [] {
      var c' := if |c| < cap then c + [a[0]] else c;
      assert (a + b)[0] == a[0] && (a + b)[1..] == a[1..] + b;
      PushAllAppend(c', a[1..], b, cap);
    } else {
      assert a + b == b;
    }
  }

  /** A queue that held at most `cap` items still does. */
  lemma PushAllBounded<T>(c: seq<T>, items: seq<T>, cap: nat)
    requires |c| <= cap
    ensures |PushAll(c, items, cap)| <= cap
  {
    PushAllKeepsOldest(c, items, cap);
  }
}
