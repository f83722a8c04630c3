// The polled button decoder of src/button.cpp. It reads the LTC INT# line (LOW
// while the button is held), accepts a level change only 35 ms or more after the
// last accepted one, emits a raw edge event for each accepted change, and turns
// presses into gestures: a ShortPress on release after [50, 500) ms, a LongPress
// as soon as the button has been held 500 ms ("grace" emit), or on release if the
// grace emit did not happen. The pin level read by each poll is an input.
module Button {
  import opened Vocabulary
  import opened Clock
  import EventQueue
  import Fifo

  /** The module's static press-tracking variables. */
  datatype Tracker = Tracker(
    lastLevel: Level,
    lastEdge: U32,
    pressed: bool,
    downMs: U32,
    graceEmitted: bool,
    lastPressMs: U16)

  /** `button_init`, given the pin level and the time. */
  function Initial(level: Level, now: U32): (s: Tracker)
    ensures s.pressed <==> level == LtcIntAssertLevel
    ensures s.lastLevel == level && s.lastEdge == now && !s.graceEmitted
  {
    var pressed := level == LtcIntAssertLevel;
    Tracker(level, now, pressed, if pressed then now else 0, false, 0)
  }

  /** A new tracker and the events pushed on the way to it, oldest first. */
  datatype Output = Output(st: Tracker, events: seq<Event>)

  /** The raw edge event of an accepted level change. */
  function RawEdge(level: Level): Event {
    if level == LtcIntAssertLevel then EvLtcIntAsserted else EvLtcIntDeasserted
  }

  /** The gesture a release reports for a press of `d` ms with no grace emit: none below 50 ms. */
  function ReleaseGesture(d: U16): (g: seq<Event>)
    ensures g == [] <==> d < BtnShortMinMs
    ensures g != [] ==> g == [EvBtnShortPress(d)] || g == [EvBtnLongPress(d)]
    ensures g == [EvBtnShortPress(d)] <==> BtnShortMinMs <= d < BtnGraceMs
    ensures g == [EvBtnLongPress(d)] <==> d >= BtnGraceMs
  {
    if BtnShortMinMs <= d < BtnGraceMs then [EvBtnShortPress(d)]
    else if d >= BtnGraceMs then [EvBtnLongPress(d)]
    else []
  }

  /** The edge detection and debounce part of `button_poll`. */
  function EdgeStep(s: Tracker, now: U32, level: Level): (r: Output)
    // No change, or a change within the debounce window: nothing at all happens,
    // so the change is looked at again by the next poll.
    ensures level == s.lastLevel || Elapsed(now, s.lastEdge) < BtnDebounceMs ==> r == Output(s, [])
    ensures level != s.lastLevel && Elapsed(now, s.lastEdge) >= BtnDebounceMs ==>
      && r.st.lastLevel == level && r.st.lastEdge == now
      && r.events != [] && r.events[0] == RawEdge(level)
      // A press starts the timing.
      && (level == LtcIntAssertLevel ==>
            r.events == [EvLtcIntAsserted] && r.st.pressed && r.st.downMs == now && !r.st.graceEmitted &&
            r.st.lastPressMs == s.lastPressMs)
      // A release reports the gesture unless one was already emitted, and resets the press.
      && (level != LtcIntAssertLevel ==>
            && !r.st.pressed && r.st.downMs == 0 && !r.st.graceEmitted
            && var d := ClampU16(Elapsed(now, s.downMs));
            && r.st.lastPressMs == (if s.pressed then d else s.lastPressMs)
            && r.events == [EvLtcIntDeasserted] + (if s.pressed && !s.graceEmitted then ReleaseGesture(d) else []))
  {
    if level == s.lastLevel || Elapsed(now, s.lastEdge) < BtnDebounceMs then Output(s, [])
    else
      var s1 := s.(lastEdge := now, lastLevel := level);
      if level == LtcIntAssertLevel then
        Output(s1.(pressed := true, downMs := now, graceEmitted := false), [EvLtcIntAsserted])
      else
        var d := ClampU16(Elapsed(now, s.downMs));
        var s2 := if s.pressed then s1.(lastPressMs := d) else s1;
        var g := if s.pressed && !s.graceEmitted then ReleaseGesture(d) else [];
        Output(s2.(pressed := false, downMs := 0, graceEmitted := false), [EvLtcIntDeasserted] + g)
  }

  /** The grace-hold part of `button_poll`: LongPress as soon as the button has been held 500 ms. */
  function GraceStep(s: Tracker, now: U32): (r: Output)
    ensures s.pressed && !s.graceEmitted && Elapsed(now, s.downMs) >= BtnGraceMs ==>
      r == Output(s.(graceEmitted := true), [EvBtnLongPress(ClampU16(Elapsed(now, s.downMs)))])
    ensures !(s.pressed && !s.graceEmitted && Elapsed(now, s.downMs) >= BtnGraceMs) ==> r == Output(s, [])
  {
    if s.pressed && !s.graceEmitted then
      var held := Elapsed(now, s.downMs);
      if held >= BtnGraceMs then Output(s.(graceEmitted := true), [EvBtnLongPress(ClampU16(held))])
      else Output(s, [])
    else Output(s, [])
  }

  /** `button_poll` with the pin reading `level` at time `now`. */
  function PollStep(s: Tracker, now: U32, level: Level): Output {
    var e := EdgeStep(s, now, level);
    var g := GraceStep(e.st, now);
    Output(g.st, e.events + g.events)
  }

  // ---------------------------------------------------------------------------
  // At most one gesture per press
  // ---------------------------------------------------------------------------

  predicate IsGesture(e: Event) {
    e.EvBtnShortPress? || e.EvBtnLongPress?
  }

  /** The number of gesture events in `es`. */
  function Gestures(es: seq<Event>): nat {
    if es == [] then 0 else (if IsGesture(es[0]) then 1 else 0) + Gestures(es[1..])
  }

  /** The number of press edges (EV_LTC_INT_ASSERTED) in `es`. */
  function Presses(es: seq<Event>): nat {
    if es == [] then 0 else (if es[0] == EvLtcIntAsserted then 1 else 0) + Presses(es[1..])
  }

  lemma {:induction false} CountsAppend(a: seq<Event>, b: seq<Event>)
    ensures Gestures(a + b) == Gestures(a) + Gestures(b)
    ensures Presses(a + b) == Presses(a) + Presses(b)
  {
    if a != [] {
      assert (a + b)[0] == a[0] && (a + b)[1..] == a[1..] + b;
      CountsAppend(a[1..], b);
    } else {
      assert a + b == b;
    }
  }

  /** The gesture still owed to a press in progress: one until it has been reported. */
  function Credit(s: Tracker): nat {
    if s.pressed && !s.graceEmitted then 1 else 0
  }

  /** A sequence of polls, each with its time and pin level. */
  function Run(s: Tracker, inputs: seq<(U32, Level)>): Output
    decreases |inputs|
  {
    if inputs == [] then Output(s, [])
    else
      var o := PollStep(s, inputs[0].0, inputs[0].1);
      var r := Run(o.st, inputs[1..]);
      Output(r.st, o.events + r.events)
  }

  /** One poll reports a gesture only by spending the credit of the press in progress. */
  lemma PollGestureBudget(s: Tracker, now: U32, level: Level)
    ensures var o := PollStep(s, now, level);
      Gestures(o.events) + Credit(o.st) <= Credit(s) + Presses(o.events)
  {
    var e := EdgeStep(s, now, level);
    var g := GraceStep(e.st, now);
    CountsAppend(e.events, g.events);
    if level != s.lastLevel && Elapsed(now, s.lastEdge) >= BtnDebounceMs {
      if level == LtcIntAssertLevel {
        assert Elapsed(now, now) == 0;
        assert g.events == [];
        assert Presses(e.events) == 1;
      } else {
        assert g.events == [];
        var d := ClampU16(Elapsed(now, s.downMs));
        var rest := if s.pressed && !s.graceEmitted then ReleaseGesture(d) else [];
        CountsAppend([EvLtcIntDeasserted], rest);
        assert Gestures(rest) <= Credit(s);
      }
    }
  }

  /**
   * Each press yields at most one gesture: over any run of polls, the gestures
   * reported never outnumber the press edges, plus one for a press already in
   * progress and not yet reported when the run starts.
   */
  lemma {:induction false} AtMostOneGesturePerPress(s: Tracker, inputs: seq<(U32, Level)>)
    ensures var r := Run(s, inputs);
      Gestures(r.events) + Credit(r.st) <= Credit(s) + Presses(r.events)
    decreases |inputs|
  {
    if inputs != [] {
      var o := PollStep(s, inputs[0].0, inputs[0].1);
      PollGestureBudget(s, inputs[0].0, inputs[0].1);
      AtMostOneGesturePerPress(o.st, inputs[1..]);
      CountsAppend(o.events, Run(o.st, inputs[1..]).events);
    }
  }

  /** While the button stays down after the grace emit, polls report nothing more. */
  lemma NoSecondLongPressWhileHeld(s: Tracker, now: U32)
    requires s.pressed && s.graceEmitted && s.lastLevel == LtcIntAssertLevel
    ensures PollStep(s, now, LtcIntAssertLevel) == Output(s, [])
  {
  }

  /** A bounce: a change inside the debounce window leaves the tracker as it was, and the same change is accepted once 35 ms have passed. */
  lemma BounceIsRetried(s: Tracker, t1: U32, t2: U32, level: Level)
    requires level != s.lastLevel
    requires Elapsed(t1, s.lastEdge) < BtnDebounceMs <= Elapsed(t2, s.lastEdge)
    ensures EdgeStep(s, t1, level).st == s && EdgeStep(s, t1, level).events == []
    ensures EdgeStep(EdgeStep(s, t1, level).st, t2, level).st.lastLevel == level
  {
  }

  class Decoder {
    var lastLevel: Level
    var lastEdge: U32
    var pressed: bool
    var downMs: U32
    var graceEmitted: bool
    var lastPressMs: U16

    ghost function State(): Tracker
      reads this
    {
      Tracker(lastLevel, lastEdge, pressed, downMs, graceEmitted, lastPressMs)
    }

    /** `button_init`. */
    constructor Init(level: Level, now: U32)
      ensures State() == Initial(level, now)
    {
      lastLevel := level;
      lastEdge := now;
      pressed := level == LtcIntAssertLevel;
      downMs := if level == LtcIntAssertLevel then now else 0;
      graceEmitted := false;
      lastPressMs := 0;
    }

    /** `button_poll`: events go to the event queue. */
    method Poll(now: U32, level: Level, q: EventQueue.Queue)
      requires q.Valid()
      modifies this, q, q.buf
      ensures q.Valid()
      ensures State() == PollStep(old(State()), now, level).st
      ensures q.Contents() == EventQueue.PushAll(old(q.Contents()), PollStep(old(State()), now, level).events)
    {
      ghost var e := EdgeStep(State(), now, level);
      ghost var q0 := q.Contents();
      DetectEdge(now, level, q);
      CheckGrace(now, q);
      Fifo.PushAllAppend(q0, e.events, GraceStep(e.st, now).events, EventQueue.Capacity);
    }

    /** The edge detection and debounce part of `button_poll`. */
    method DetectEdge(now: U32, level: Level, q: EventQueue.Queue)
      requires q.Valid()
      modifies this, q, q.buf
      ensures q.Valid()
      ensures State() == EdgeStep(old(State()), now, level).st
      ensures q.Contents() == EventQueue.PushAll(old(q.Contents()), EdgeStep(old(State()), now, level).events)
    {
      if level == lastLevel || Elapsed(now, lastEdge) < BtnDebounceMs {
        return;
      }
      lastEdge := now;
      lastLevel := level;
      ghost var q0 := q.Contents();
      ghost var es: seq<Event> := [];
      if level == LtcIntAssertLevel {
        es := EventQueue.PushTracked(q, EvLtcIntAsserted, q0, es);
        assert es == [EvLtcIntAsserted];
        pressed := true;
        downMs := now;
        graceEmitted := false;
      } else {
        es := EventQueue.PushTracked(q, EvLtcIntDeasserted, q0, es);
        Release(now, q, q0, es);
      }
    }

    /** The release branch: classify the press unless a gesture was already emitted, then reset. */
    method Release(now: U32, q: EventQueue.Queue, ghost q0: seq<Event>, ghost es: seq<Event>)
      requires q.Valid() && q.Contents() == EventQueue.PushAll(q0, es)
      modifies this, q, q.buf
      ensures q.Valid()
      ensures var d := ClampU16(Elapsed(now, old(downMs)));
        && State() == (if old(pressed) then old(State()).(lastPressMs := d) else old(State())).(pressed := false, downMs := 0, graceEmitted := false)
        && q.Contents() == EventQueue.PushAll(q0, es + (if old(pressed) && !old(graceEmitted) then ReleaseGesture(d) else []))
    {
      ghost var es' := es;
      if pressed {
        var d := ClampU16(Elapsed(now, downMs));
        lastPressMs := d;
        if !graceEmitted {
          if BtnShortMinMs <= d < BtnGraceMs {
            es' := EventQueue.PushTracked(q, EvBtnShortPress(d), q0, es');
          } else if d >= BtnGraceMs {
            es' := EventQueue.PushTracked(q, EvBtnLongPress(d), q0, es');
          }
        }
      }
      assert es + [] == es;
      pressed := false;
      downMs := 0;
      graceEmitted := false;
    }

    /** The grace-hold part of `button_poll`. */
    method CheckGrace(now: U32, q: EventQueue.Queue)
      requires q.Valid()
      modifies this, q, q.buf
      ensures q.Valid()
      ensures State() == GraceStep(old(State()), now).st
      ensures q.Contents() == EventQueue.PushAll(old(q.Contents()), GraceStep(old(State()), now).events)
    {
      if pressed && !graceEmitted {
        var held := Elapsed(now, downMs);
        if held >= BtnGraceMs {
          var _ := q.Push(EvBtnLongPress(ClampU16(held)));
          graceEmitted := true;
        }
      }
    }

    /** `button_is_pressed` and `button_last_press_ms`. */
    method View() returns (isPressed: bool, lastMs: U16)
      ensures isPressed == pressed && lastMs == lastPressMs
    {
      isPressed, lastMs := pressed, lastPressMs;
    }
  }
}
