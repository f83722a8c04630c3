// The action queue between the controller and the executor (src/action_queue.h).
// Only its interface is part of this model: the queue is described by what the
// header promises, a FIFO of at most ActionQueueSize actions that refuses a push
// when full and counts the refusal (drop-new).
module ActionQueue {
  import opened Vocabulary
  import Fifo

  const Capacity: nat := ActionQueueSize

  /** The queue after pushing `items` in order, with nothing popped in between. */
  function PushAll(c: seq<Action>, items: seq<Action>): seq<Action> {
    Fifo.PushAll(c, items, Capacity)
  }

  class Queue {
    var items: seq<Action>
    var dropped: U16

    ghost predicate Valid()
      reads this
    {
      |items| <= Capacity
    }

    /** `actionq_init`: an empty queue. */
    constructor Init()
      ensures Valid() && items == [] && dropped == 0
    {
      items, dropped := [], 0;
    }

    /** `actionq_clear`. */
    method Clear()
      modifies this
      ensures Valid() && items == [] && dropped == 0
    {
      items, dropped := [], 0;
    }

    /** `actionq_push`: append `a` unless the queue is full; a refused push is counted. */
    method Push(a: Action) returns (ok: bool)
      requires Valid()
      modifies this
      ensures Valid()
      ensures ok <==> |old(items)| < Capacity
      ensures items == PushAll(old(items), [a])
      ensures ok ==> items == old(items) + [a] && dropped == old(dropped)
      ensures !ok ==> items == old(items) && dropped == (old(dropped) + 1) % TWO16
    {
      Fifo.PushOne(items, a, Capacity);
      if |items| < Capacity {
        items := items + [a];
        ok := true;
      } else {
        dropped := (dropped + 1) % TWO16;
        ok := false;
      }
    }

    /** `actionq_pop`: remove and return the oldest action, if there is one. */
    method Pop() returns (ok: bool, a: Action)
      requires Valid()
      modifies this
      ensures Valid()
      ensures ok <==> old(items) != []
      ensures ok ==> a == old(items)[0] && items == old(items)[1..]
      ensures !ok ==> items == old(items)
      ensures dropped == old(dropped)
    {
      if items == [] {
        return false, ActClearPending;
      }
      a := items[0];
      items := items[1..];
      ok := true;
    }

    /** `actionq_count`. */
    method Count() returns (n: nat)
      requires Valid()
      ensures n == |items| && n <= Capacity
    {
      n := |items|;
    }
  }
}
