// The event ring buffer of src/event_queue.cpp: a fixed array of 16 slots with a
// write index (head), a read index (tail) and a 16-bit drop counter. A push onto
// a full queue is refused and counted (drop-new); the oldest events are never
// overwritten. Each operation is atomic here: the interrupt masking that makes it
// so on the target is not modelled.
module EventQueue {
  import opened Vocabulary
  import Fifo

  const N: nat := EventQueueSize

  /** At most N - 1 events are stored: one slot always separates head from tail. */
  const Capacity: nat := EventQueueSize - 1

  /** `next_index`: advance a ring index, wrapping at N. */
  function NextIndex(idx: nat): (r: nat)
    requires idx < N
    ensures r < N
    ensures r == (idx + 1) % N
  {
    if idx + 1 >= N then 0 else idx + 1
  }

  /** The queue after pushing `items` in order, with nothing popped in between. */
  function PushAll(c: seq<Event>, items: seq<Event>): seq<Event> {
    Fifo.PushAll(c, items, Capacity)
  }

  /** The slots of `buf` from `tail` up to, not including, `head`, wrapping at the end. */
  ghost function Ring(buf: seq<Event>, head: nat, tail: nat): (c: seq<Event>)
    requires |buf| == N && head < N && tail < N
    ensures |c| == (head - tail) % N
    ensures |c| <= Capacity
    ensures c == [] <==> head == tail
  {
    if tail <= head then buf[tail..head] else buf[tail..] + buf[..head]
  }

  class Queue {
    const buf: array<Event>
    var head: nat
    var tail: nat
    var dropped: U16
    /** The stored events, oldest first. */
    ghost var contents: seq<Event>

    ghost predicate Valid()
      reads this, buf
    {
      buf.Length == N && head < N && tail < N && contents == Ring(buf[..], head, tail)
    }

    ghost function Contents(): (c: seq<Event>)
      reads this
    {
      contents
    }

    /** `eventq_init`: an empty queue with a zero drop count. */
    constructor Init()
      ensures Valid() && fresh(buf)
      ensures Contents() == [] && dropped == 0
    {
      buf := new Event[N](_ => EvLtcIntDeasserted);
      head, tail, dropped := 0, 0, 0;
      contents := [];
    }

    /** `eventq_clear`: forget every stored event and reset the drop count. */
    method Clear()
      requires Valid()
      modifies this
      ensures Valid() && Contents() == [] && dropped == 0
      ensures head == 0 && tail == 0
    {
      head, tail, dropped := 0, 0, 0;
      contents := [];
    }

    /** `eventq_count`: the number of stored events, (head - tail) mod N. */
    method Count() returns (n: nat)
      requires Valid()
      ensures n == |Contents()|
      ensures n == (head - tail) % N
      ensures n < N
    {
      var h, t := head, tail;
      if h >= t {
        n := h - t;
      } else {
        n := N - (t - h);
      }
    }

    /** `eventq_dropped`. */
    method Dropped() returns (d: U16)
      ensures d == dropped
    {
      d := dropped;
    }

    /** `push_core`: store `e` unless advancing head would reach tail. */
    method PushCore(e: Event) returns (ok: bool)
      requires Valid()
      modifies this, buf
      ensures Valid()
      ensures ok <==> NextIndex(old(head)) != old(tail)
      ensures ok <==> |old(Contents())| < Capacity
      ensures ok ==> Contents() == old(Contents()) + [e] && dropped == old(dropped)
      ensures !ok ==> dropped == (old(dropped) + 1) % TWO16
      ensures !ok ==> head == old(head) && buf[..] == old(buf[..]) && Contents() == old(Contents())
      ensures tail == old(tail)
    {
      var h := head;
      var n := NextIndex(h);
      if n == tail {
        dropped := (dropped + 1) % TWO16;
        ok := false;
        return;
      }
      ghost var before := buf[..];
      buf[h] := e;
      head := n;
      ok := true;
      contents := contents + [e];
      // The slot written is outside the old contents, and it follows them.
      if tail <= h && h + 1 < N {
        assert buf[tail..head] == before[tail..h] + [e];
      } else if tail <= h {
        assert head == 0 && buf[tail..] == before[tail..h] + [e];
      } else {
        assert buf[..head] == before[..h] + [e];
        assert buf[tail..] == before[tail..];
      }
    }

    /** `eventq_push_isr`: the same effect as PushCore (interrupts are already masked in an ISR). */
    method PushIsr(e: Event) returns (ok: bool)
      requires Valid()
      modifies this, buf
      ensures Valid()
      ensures ok <==> |old(Contents())| < Capacity
      ensures Contents() == PushAll(old(Contents()), [e])
      ensures ok ==> dropped == old(dropped)
      ensures !ok ==> dropped == (old(dropped) + 1) % TWO16
      ensures tail == old(tail)
    {
      ghost var before := Contents();
      ok := PushCore(e);
      Fifo.PushOne(before, e, Capacity);
    }

    /** `eventq_push`: the same effect as PushCore, run with interrupts masked. */
    method Push(e: Event) returns (ok: bool)
      requires Valid()
      modifies this, buf
      ensures Valid()
      ensures ok <==> |old(Contents())| < Capacity
      ensures Contents() == PushAll(old(Contents()), [e])
      ensures ok ==> dropped == old(dropped)
      ensures !ok ==> dropped == (old(dropped) + 1) % TWO16
      ensures tail == old(tail)
    {
      ghost var before := Contents();
      ok := PushCore(e);
      Fifo.PushOne(before, e, Capacity);
    }

    /** `eventq_pop`: remove and return the oldest event, if there is one. */
    method Pop() returns (ok: bool, e: Event)
      requires Valid()
      modifies this
      ensures Valid()
      ensures ok <==> old(Contents()) != []
      ensures ok ==> e == old(Contents())[0] && Contents() == old(Contents())[1..]
      ensures ok ==> tail == NextIndex(old(tail))
      ensures !ok ==> tail == old(tail) && Contents() == old(Contents())
      ensures head == old(head) && dropped == old(dropped)
    {
      if tail == head {
        return false, EvLtcIntDeasserted;
      }
      var t := tail;
      e := buf[t];
      tail := NextIndex(t);
      ok := true;
      contents := contents[1..];
    }

  }

  /** Push `e` onto `q`, which holds `q0` after pushing `es`; it then holds `q0` after pushing `es + [e]`. */
  method PushTracked(q: Queue, e: Event, ghost q0: seq<Event>, ghost es: seq<Event>) returns (ghost es': seq<Event>)
    requires q.Valid() && q.Contents() == PushAll(q0, es)
    modifies q, q.buf
    ensures q.Valid() && es' == es + [e] && q.Contents() == PushAll(q0, es')
  {
    var _ := q.Push(e);
    Fifo.PushAllAppend(q0, es, [e], Capacity);
    es' := es + [e];
  }
}
