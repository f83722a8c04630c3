// The interrupt-driven button decoder and kill output of src/power_mgr.cpp. The
// pin-change interrupt records each new level of the LTC INT# line with its time
// and pushes a raw edge event; the poll takes the recorded change (clearing the
// flag), accepts it only if it came 35 ms or more after the last accepted edge,
// and classifies presses as src/button.cpp does. The kill flag mirrors the last
// assert or deassert of the KILL output. Each interrupt and each poll is atomic
// here, and the pin level and the time are inputs.
module PowerMgr {
  import opened Vocabulary
  import opened Clock
  import EventQueue
  import Fifo
  import Button

  /** The module's state: the interrupt's `s_int_*` variables, then the poll's. */
  datatype Mgr = Mgr(
    intLevel: Level,
    intChanged: bool,
    intChangeMs: U32,
    lastStable: Level,
    lastEdge: U32,
    pressActive: bool,
    pressDown: U32,
    graceEmitted: bool,
    lastPressMs: U16,
    kill: bool)

  /** `power_mgr_init`, given the pin level and the time: kill released, nothing pending. */
  function Initial(level: Level, now: U32): (s: Mgr)
    ensures !s.kill && !s.intChanged && s.intLevel == level && s.lastStable == level
    ensures s.pressActive <==> level == LtcIntAssertLevel
  {
    var pressed := level == LtcIntAssertLevel;
    Mgr(level, false, now, level, now, pressed, if pressed then now else 0, false, 0, false)
  }

  /** A new state and the events pushed on the way to it, oldest first. */
  datatype Output = Output(st: Mgr, events: seq<Event>)

  /** `isr_ltc_int_change` with the pin reading `level` at time `now`. */
  function IsrStep(s: Mgr, now: U32, level: Level): (r: Output)
    ensures level == s.intLevel ==> r == Output(s, [])
    ensures level != s.intLevel ==>
      r == Output(s.(intLevel := level, intChanged := true, intChangeMs := now), [Button.RawEdge(level)])
  {
    if level == s.intLevel then Output(s, [])
    else
      var e := if level == LtcIntAssertLevel then EvLtcIntAsserted else EvLtcIntDeasserted;
      Output(s.(intLevel := level, intChanged := true, intChangeMs := now), [e])
  }

  /** An accepted edge to `level` at ISR time `t`: start a press, or end one and report its gesture. */
  function Accept(s: Mgr, level: Level, t: U32): (r: Output)
    ensures r.st.lastStable == level && r.st.lastEdge == t
    ensures r.st.pressActive <==> level == LtcIntAssertLevel
    ensures level == LtcIntAssertLevel ==> r.events == [] && r.st.pressDown == t && !r.st.graceEmitted
    ensures level != LtcIntAssertLevel ==>
      && r.st.pressDown == 0 && !r.st.graceEmitted
      && var d := ClampU16(Elapsed(t, s.pressDown));
      && r.st.lastPressMs == (if s.pressActive then d else s.lastPressMs)
      && r.events == (if s.pressActive && !s.graceEmitted then Button.ReleaseGesture(d) else [])
    ensures r.st.intLevel == s.intLevel && r.st.intChanged == s.intChanged && r.st.kill == s.kill
  {
    var s1 := s.(lastEdge := t, lastStable := level);
    if level == LtcIntAssertLevel then
      Output(s1.(pressActive := true, pressDown := t, graceEmitted := false), [])
    else
      var d := ClampU16(Elapsed(t, s.pressDown));
      var s2 := if s.pressActive then s1.(lastPressMs := d) else s1;
      var g := if s.pressActive && !s.graceEmitted then Button.ReleaseGesture(d) else [];
      Output(s2.(pressActive := false, pressDown := 0, graceEmitted := false), g)
  }

  /** Part 1 of `power_mgr_poll`: consume the recorded change and accept it if it is outside the debounce window. */
  function EdgeStep(s: Mgr): (r: Output)
    ensures !s.intChanged ==> r == Output(s, [])
    // The flag is consumed whether or not the edge is accepted.
    ensures s.intChanged ==> !r.st.intChanged
    ensures s.intChanged && Elapsed(s.intChangeMs, s.lastEdge) < BtnDebounceMs ==>
      r == Output(s.(intChanged := false), [])
    ensures s.intChanged && Elapsed(s.intChangeMs, s.lastEdge) >= BtnDebounceMs ==>
      r == Accept(s.(intChanged := false), s.intLevel, s.intChangeMs)
  {
    if !s.intChanged then Output(s, [])
    else
      var s1 := s.(intChanged := false);
      if Elapsed(s.intChangeMs, s.lastEdge) >= BtnDebounceMs then Accept(s1, s.intLevel, s.intChangeMs)
      else Output(s1, [])
  }

  /** Part 2 of `power_mgr_poll`: LongPress as soon as the press has been held 500 ms. */
  function GraceStep(s: Mgr, now: U32): (r: Output)
    ensures s.pressActive && !s.graceEmitted && Elapsed(now, s.pressDown) >= BtnGraceMs ==>
      r == Output(s.(graceEmitted := true), [EvBtnLongPress(ClampU16(Elapsed(now, s.pressDown)))])
    ensures !(s.pressActive && !s.graceEmitted && Elapsed(now, s.pressDown) >= BtnGraceMs) ==> r == Output(s, [])
  {
    if s.pressActive && !s.graceEmitted then
      var held := Elapsed(now, s.pressDown);
      if held >= BtnGraceMs then Output(s.(graceEmitted := true), [EvBtnLongPress(ClampU16(held))])
      else Output(s, [])
    else Output(s, [])
  }

  /** `power_mgr_poll`, as written. */
  function PollStep(s: Mgr, now: U32): Output {
    var e := EdgeStep(s);
    var g := GraceStep(e.st, now);
    Output(g.st, e.events + g.events)
  }

  // ---------------------------------------------------------------------------
  // At most one gesture per press
  // ---------------------------------------------------------------------------

  /** What happens to the module: a pin-change interrupt or a poll. */
  datatype Input = Isr(isrMs: U32, level: Level) | Poll(pollMs: U32)

  function Step(s: Mgr, i: Input): Output {
    match i
    case Isr(t, level) => IsrStep(s, t, level)
    case Poll(t) => PollStep(s, t)
  }

  function Run(s: Mgr, inputs: seq<Input>): Output
    decreases |inputs|
  {
    if inputs == [] then Output(s, [])
    else
      var o := Step(s, inputs[0]);
      var r := Run(o.st, inputs[1..]);
      Output(r.st, o.events + r.events)
  }

  /** The gestures still owed: one for a press in progress not yet reported, one for a press recorded by the interrupt and not yet polled. */
  function Owed(s: Mgr): nat {
    (if s.pressActive && !s.graceEmitted then 1 else 0) +
    (if s.intChanged && s.intLevel == LtcIntAssertLevel then 1 else 0)
  }

  lemma StepGestureBudget(s: Mgr, i: Input)
    ensures var o := Step(s, i);
      Button.Gestures(o.events) + Owed(o.st) <= Owed(s) + Button.Presses(o.events)
  {
    match i
    case Isr(t, level) =>
      var o := IsrStep(s, t, level);
      if level != s.intLevel {
        assert Button.Presses(o.events) == (if level == LtcIntAssertLevel then 1 else 0);
        assert Button.Gestures(o.events) == 0;
      }
    case Poll(now) =>
      var e := EdgeStep(s);
      var g := GraceStep(e.st, now);
      Button.CountsAppend(e.events, g.events);
      if s.intChanged && Elapsed(s.intChangeMs, s.lastEdge) >= BtnDebounceMs && s.intLevel != LtcIntAssertLevel {
        assert g.events == [];
      }
  }

  /** Each press yields at most one gesture: the gestures reported never outnumber the press edges the interrupt reported, plus what was owed at the start. */
  lemma {:induction false} AtMostOneGesturePerPress(s: Mgr, inputs: seq<Input>)
    ensures var r := Run(s, inputs);
      Button.Gestures(r.events) + Owed(r.st) <= Owed(s) + Button.Presses(r.events)
    decreases |inputs|
  {
    if inputs != [] {
      var o := Step(s, inputs[0]);
      StepGestureBudget(s, inputs[0]);
      AtMostOneGesturePerPress(o.st, inputs[1..]);
      Button.CountsAppend(o.events, Run(o.st, inputs[1..]).events);
    }
  }

  /** While the press stays down after the grace emit, polls report nothing more. */
  lemma NoSecondLongPressWhileHeld(s: Mgr, now: U32)
    requires s.pressActive && s.graceEmitted && !s.intChanged
    ensures PollStep(s, now) == Output(s, [])
  {
  }

  // ---------------------------------------------------------------------------
  // A tap shorter than the debounce window becomes a long press
  // ---------------------------------------------------------------------------

  /**
   * The poll consumes the change flag even when it rejects the edge, and the
   * interrupt fires only on a change, so a release that follows a press within
   * 35 ms is never seen: the press stays active with the line released, and
   * 500 ms later the grace emit reports a LongPress. Here: released at time 0,
   * pressed at 100, released at 110, polled after each and at 700.
   */
  lemma TapBecomesLongPress()
    ensures var s0 := Initial(High, 0);
      var s1 := PollStep(IsrStep(s0, 100, Low).st, 100).st;
      var s2 := PollStep(IsrStep(s1, 110, High).st, 110).st;
      var r := PollStep(s2, 700);
      && s2.intLevel == High && !s2.intChanged && s2.pressActive
      && r.events == [EvBtnLongPress(600)]
  {
    var s0 := Initial(High, 0);
    var s1 := PollStep(IsrStep(s0, 100, Low).st, 100).st;
    assert s1.pressActive && s1.pressDown == 100 && s1.lastEdge == 100 && !s1.graceEmitted by {
      assert Elapsed(100, 0) == 100;
      assert Elapsed(100, 100) == 0;
    }
    var i2 := IsrStep(s1, 110, High).st;
    assert Elapsed(110, 100) == 10;
    var s2 := PollStep(i2, 110).st;
    assert s2.pressActive && s2.pressDown == 100 && !s2.graceEmitted;
    assert Elapsed(700, 100) == 600;
  }

  /** A line that has settled agrees with the press tracking. */
  predicate Settled(s: Mgr) {
    && (s.pressActive <==> s.lastStable == LtcIntAssertLevel)
    && (!s.intChanged ==> s.intLevel == s.lastStable)
  }

  /**
   * Part 1 of the poll as intended: the recorded change stays pending until the
   * debounce window since the last accepted edge is over, and a change that
   * bounced back to the accepted level is dropped.
   */
  function SettledEdgeStep(s: Mgr, now: U32): (r: Output)
    ensures Settled(s) ==> Settled(r.st)
    ensures Settled(s) && s.intChanged && Elapsed(now, s.lastEdge) >= BtnDebounceMs ==>
      !r.st.intChanged && r.st.lastStable == s.intLevel
  {
    if !s.intChanged || Elapsed(now, s.lastEdge) < BtnDebounceMs then Output(s, [])
    else
      var s1 := s.(intChanged := false);
      if s.intLevel == s.lastStable then Output(s1, [])
      else Accept(s1, s.intLevel, s.intChangeMs)
  }

  /** `power_mgr_poll` as intended. */
  function SettledPollStep(s: Mgr, now: U32): Output {
    var e := SettledEdgeStep(s, now);
    var g := GraceStep(e.st, now);
    Output(g.st, e.events + g.events)
  }

  /** The interrupt and the intended poll keep the tracking settled, and it holds from `power_mgr_init`. */
  lemma SettledKept(s: Mgr, now: U32, level: Level)
    ensures Settled(Initial(level, now))
    ensures Settled(s) ==> Settled(IsrStep(s, now, level).st) && Settled(SettledPollStep(s, now).st)
  {
  }

  /** With the intended poll, a line that reads released and has nothing pending never reports a LongPress, and the tap above reports nothing. */
  lemma NoPhantomLongPress(s: Mgr, now: U32)
    requires Settled(s) && !s.intChanged && s.intLevel != LtcIntAssertLevel
    ensures SettledPollStep(s, now).events == []
    ensures var s0 := Initial(High, 0);
      var s1 := SettledPollStep(IsrStep(s0, 100, Low).st, 100).st;
      var s2 := SettledPollStep(IsrStep(s1, 110, High).st, 110).st;
      SettledPollStep(s2, 700).events == [] && !SettledPollStep(s2, 700).st.pressActive
  {
    var s0 := Initial(High, 0);
    var s1 := SettledPollStep(IsrStep(s0, 100, Low).st, 100).st;
    assert s1.pressActive && s1.pressDown == 100 && s1.lastEdge == 100 && !s1.graceEmitted by {
      assert Elapsed(100, 0) == 100;
      assert Elapsed(100, 100) == 0;
    }
    var i2 := IsrStep(s1, 110, High).st;
    assert Elapsed(110, 100) == 10;
    var s2 := SettledPollStep(i2, 110).st;
    assert s2 == i2;
    assert Elapsed(700, 100) == 600;
    assert ClampU16(Elapsed(110, 100)) == 10;
  }

  class Manager {
    var intLevel: Level
    var intChanged: bool
    var intChangeMs: U32
    var lastStable: Level
    var lastEdge: U32
    var pressActive: bool
    var pressDown: U32
    var graceEmitted: bool
    var lastPressMs: U16
    var kill: bool

    ghost function State(): Mgr
      reads this
    {
      Mgr(intLevel, intChanged, intChangeMs, lastStable, lastEdge, pressActive, pressDown, graceEmitted, lastPressMs, kill)
    }

    /** `power_mgr_init`. */
    constructor Init(level: Level, now: U32)
      ensures State() == Initial(level, now)
    {
      kill := false;
      lastStable := level;
      intLevel := level;
      intChanged := false;
      intChangeMs := now;
      lastEdge := now;
      pressActive := level == LtcIntAssertLevel;
      pressDown := if level == LtcIntAssertLevel then now else 0;
      graceEmitted := false;
      lastPressMs := 0;
    }

    /** `isr_ltc_int_change`, run to completion. */
    method Isr(now: U32, level: Level, q: EventQueue.Queue)
      requires q.Valid()
      modifies this, q, q.buf
      ensures q.Valid()
      ensures State() == IsrStep(old(State()), now, level).st
      ensures q.Contents() == EventQueue.PushAll(old(q.Contents()), IsrStep(old(State()), now, level).events)
    {
      if level == intLevel {
        return;
      }
      intLevel := level;
      intChanged := true;
      intChangeMs := now;
      var e := if level == LtcIntAssertLevel then EvLtcIntAsserted else EvLtcIntDeasserted;
      var _ := q.PushIsr(e);
    }

    /** `power_mgr_poll`. */
    method Poll(now: U32, q: EventQueue.Queue)
      requires q.Valid()
      modifies this, q, q.buf
      ensures q.Valid()
      ensures State() == PollStep(old(State()), now).st
      ensures q.Contents() == EventQueue.PushAll(old(q.Contents()), PollStep(old(State()), now).events)
    {
      ghost var e := EdgeStep(State());
      ghost var q0 := q.Contents();
      if intChanged {
        var level, t := intLevel, intChangeMs;
        intChanged := false;
        if Elapsed(t, lastEdge) >= BtnDebounceMs {
          AcceptEdge(level, t, q);
        }
      }
      CheckGrace(now, q);
      Fifo.PushAllAppend(q0, e.events, GraceStep(e.st, now).events, EventQueue.Capacity);
    }

    /** The accepted-edge branch of `power_mgr_poll`. */
    method AcceptEdge(level: Level, t: U32, q: EventQueue.Queue)
      requires q.Valid()
      modifies this, q, q.buf
      ensures q.Valid()
      ensures State() == Accept(old(State()), level, t).st
      ensures q.Contents() == EventQueue.PushAll(old(q.Contents()), Accept(old(State()), level, t).events)
    {
      lastEdge := t;
      lastStable := level;
      if level == LtcIntAssertLevel {
        pressActive := true;
        pressDown := t;
        graceEmitted := false;
      } else {
        ghost var q0 := q.Contents();
        ghost var es: seq<Event> := [];
        assert q0 == EventQueue.PushAll(q0, es);
        if pressActive {
          var d := ClampU16(Elapsed(t, pressDown));
          lastPressMs := d;
          if !graceEmitted {
            if BtnShortMinMs <= d < BtnGraceMs {
              es := EventQueue.PushTracked(q, EvBtnShortPress(d), q0, es);
            } else if d >= BtnGraceMs {
              es := EventQueue.PushTracked(q, EvBtnLongPress(d), q0, es);
            }
          }
        }
        assert es == Accept(old(State()), level, t).events;
        pressActive := false;
        pressDown := 0;
        graceEmitted := false;
      }
    }

    /** The grace-hold part of `power_mgr_poll`. */
    method CheckGrace(now: U32, q: EventQueue.Queue)
      requires q.Valid()
      modifies this, q, q.buf
      ensures q.Valid()
      ensures State() == GraceStep(old(State()), now).st
      ensures q.Contents() == EventQueue.PushAll(old(q.Contents()), GraceStep(old(State()), now).events)
    {
      if pressActive && !graceEmitted {
        var held := Elapsed(now, pressDown);
        if held >= BtnGraceMs {
          var _ := q.Push(EvBtnLongPress(ClampU16(held)));
          graceEmitted := true;
        }
      }
    }

    /** `power_mgr_kill_assert`. */
    method KillAssert()
      modifies this
      ensures State() == old(State()).(kill := true)
    {
      kill := true;
    }

    /** `power_mgr_kill_deassert`. */
    method KillDeassert()
      modifies this
      ensures State() == old(State()).(kill := false)
    {
      kill := false;
    }

    /** `power_mgr_kill_is_asserted`. */
    method KillIsAsserted() returns (b: bool)
      ensures b == kill
    {
      b := kill;
    }

    /** `power_mgr_int_is_asserted`, given the pin level read. */
    method IntIsAsserted(level: Level) returns (b: bool)
      ensures b <==> level == LtcIntAssertLevel
    {
      b := level == LtcIntAssertLevel;
    }

    /** `power_mgr_last_press_ms`. */
    method LastPressMs() returns (ms: U32)
      ensures ms == lastPressMs
    {
      ms := lastPressMs;
    }
  }
}
