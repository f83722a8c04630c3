// The second polled button decoder, src/dvr_button.cpp. It keeps the same
// press-tracking variables as src/button.cpp and applies the same debounce and
// gesture rules; the raw edge events are debug telemetry, emitted only when the
// build sets CFG_BUTTON_EMIT_RAW_EDGES (off by default). Here that setting is the
// `raw` parameter, and the decoder is shown to be src/button.cpp's exactly when
// it is on, and the same minus the raw edges when it is off.
module DvrButton {
  import opened Vocabulary
  import opened Clock
  import EventQueue
  import Fifo
  import Button

  /** CFG_BUTTON_EMIT_RAW_EDGES when the build does not define it. */
  const DefaultEmitRawEdges: bool := false

  type Tracker = Button.Tracker
  type Output = Button.Output

  /** `is_asserted`: the LTC INT# line is asserted LOW. */
  predicate IsAsserted(level: Level) {
    level == LtcIntAssertLevel
  }

  /** The edge detection and debounce part of `button_poll`. */
  function EdgeStep(s: Tracker, now: U32, level: Level, raw: bool): (r: Output)
    ensures level == s.lastLevel || Elapsed(now, s.lastEdge) < BtnDebounceMs ==> r == Button.Output(s, [])
    // A release that was not already reported as a long press reports its gesture; a press reports nothing.
    ensures level != s.lastLevel && Elapsed(now, s.lastEdge) >= BtnDebounceMs ==>
      && r.st.lastLevel == level && r.st.lastEdge == now
      && r.events == (if raw then [Button.RawEdge(level)] else []) +
           (if !IsAsserted(level) && s.pressed && !s.graceEmitted
            then Button.ReleaseGesture(ClampU16(Elapsed(now, s.downMs))) else [])
  {
    if level == s.lastLevel || Elapsed(now, s.lastEdge) < BtnDebounceMs then Button.Output(s, [])
    else
      var s1 := s.(lastEdge := now, lastLevel := level);
      var rawEv := if raw then [if IsAsserted(level) then EvLtcIntAsserted else EvLtcIntDeasserted] else [];
      if IsAsserted(level) then
        Button.Output(s1.(pressed := true, downMs := now, graceEmitted := false), rawEv)
      else
        var d := ClampU16(Elapsed(now, s.downMs));
        var s2 := if s.pressed then s1.(lastPressMs := d) else s1;
        var g := if s.pressed && !s.graceEmitted then Button.ReleaseGesture(d) else [];
        // The long emitted on release sets the latch, which the reset clears at once.
        var s3 := if s.pressed && !s.graceEmitted && d >= BtnGraceMs then s2.(graceEmitted := true) else s2;
        Button.Output(s3.(pressed := false, downMs := 0, graceEmitted := false), rawEv + g)
  }

  /** `button_poll` (the grace-hold part is the same code as src/button.cpp's). */
  function PollStep(s: Tracker, now: U32, level: Level, raw: bool): Output {
    var e := EdgeStep(s, now, level, raw);
    var g := Button.GraceStep(e.st, now);
    Button.Output(g.st, e.events + g.events)
  }

  /** A sequence of polls. */
  function Run(s: Tracker, inputs: seq<(U32, Level)>, raw: bool): Output
    decreases |inputs|
  {
    if inputs == [] then Button.Output(s, [])
    else
      var o := PollStep(s, inputs[0].0, inputs[0].1, raw);
      var r := Run(o.st, inputs[1..], raw);
      Button.Output(r.st, o.events + r.events)
  }

  /** With raw edges on, this decoder is src/button.cpp's. */
  lemma SameAsButtonWithRawEdges(s: Tracker, now: U32, level: Level)
    ensures PollStep(s, now, level, true) == Button.PollStep(s, now, level)
  {
  }

  /** The raw edge events are telemetry only: the tracker is the same either way, and the only events added are the edges. */
  lemma RawEdgesOnlyAddTelemetry(s: Tracker, now: U32, level: Level)
    ensures PollStep(s, now, level, false).st == PollStep(s, now, level, true).st
    ensures Button.Gestures(PollStep(s, now, level, false).events) == Button.Gestures(PollStep(s, now, level, true).events)
    ensures PollStep(s, now, level, false).events == PollStep(s, now, level, true).events ||
            PollStep(s, now, level, true).events == [Button.RawEdge(level)] + PollStep(s, now, level, false).events
    // With raw edges off (the default), every event reported is a gesture.
    ensures forall e <- PollStep(s, now, level, false).events :: Button.IsGesture(e)
  {
    var f := EdgeStep(s, now, level, false);
    var t := EdgeStep(s, now, level, true);
    var g := Button.GraceStep(f.st, now);
    if level != s.lastLevel && Elapsed(now, s.lastEdge) >= BtnDebounceMs {
      assert t.events == [Button.RawEdge(level)] + f.events;
      assert t.events + g.events == [Button.RawEdge(level)] + (f.events + g.events);
      Button.CountsAppend([Button.RawEdge(level)], f.events + g.events);
    }
  }

  /** The tracker and the gestures of a run do not depend on the raw edge setting. */
  lemma {:induction false} RunsAgree(s: Tracker, inputs: seq<(U32, Level)>)
    ensures Run(s, inputs, false).st == Button.Run(s, inputs).st
    ensures Button.Gestures(Run(s, inputs, false).events) == Button.Gestures(Button.Run(s, inputs).events)
    decreases |inputs|
  {
    if inputs != [] {
      var (now, level) := inputs[0];
      var o := PollStep(s, now, level, false);
      RawEdgesOnlyAddTelemetry(s, now, level);
      SameAsButtonWithRawEdges(s, now, level);
      RunsAgree(o.st, inputs[1..]);
      Button.CountsAppend(o.events, Run(o.st, inputs[1..], false).events);
      Button.CountsAppend(Button.PollStep(s, now, level).events, Button.Run(o.st, inputs[1..]).events);
    }
  }

  /**
   * Each press yields at most one gesture, with raw edges off: the gestures of a
   * run never outnumber the press edges the line showed (those src/button.cpp
   * would have reported), plus one for a press in progress at the start.
   */
  lemma AtMostOneGesturePerPress(s: Tracker, inputs: seq<(U32, Level)>)
    ensures var r := Run(s, inputs, false);
      Button.Gestures(r.events) + Button.Credit(r.st) <= Button.Credit(s) + Button.Presses(Button.Run(s, inputs).events)
  {
    RunsAgree(s, inputs);
    Button.AtMostOneGesturePerPress(s, inputs);
  }

  class Decoder {
    /** CFG_BUTTON_EMIT_RAW_EDGES. */
    const raw: bool
    var lastLevel: Level
    var lastEdge: U32
    var pressed: bool
    var downMs: U32
    var longEmitted: bool
    var lastPressMs: U16

    ghost function State(): Tracker
      reads this
    {
      Button.Tracker(lastLevel, lastEdge, pressed, downMs, longEmitted, lastPressMs)
    }

    /** `button_init`: pressed exactly when the line reads asserted. */
    constructor Init(level: Level, now: U32, emitRaw: bool)
      ensures State() == Button.Initial(level, now) && raw == emitRaw
    {
      raw := emitRaw;
      lastLevel := level;
      lastEdge := now;
      pressed := IsAsserted(level);
      downMs := if IsAsserted(level) then now else 0;
      longEmitted := false;
      lastPressMs := 0;
    }

    /** `button_poll`: events go to the event queue. */
    method Poll(now: U32, level: Level, q: EventQueue.Queue)
      requires q.Valid()
      modifies this, q, q.buf
      ensures q.Valid()
      ensures State() == PollStep(old(State()), now, level, raw).st
      ensures q.Contents() == EventQueue.PushAll(old(q.Contents()), PollStep(old(State()), now, level, raw).events)
    {
      ghost var e := EdgeStep(State(), now, level, raw);
      ghost var q0 := q.Contents();
      DetectEdge(now, level, q);
      CheckGrace(now, q);
      Fifo.PushAllAppend(q0, e.events, Button.GraceStep(e.st, now).events, EventQueue.Capacity);
    }

    /** The edge detection and debounce part of `button_poll`. */
    method DetectEdge(now: U32, level: Level, q: EventQueue.Queue)
      requires q.Valid()
      modifies this, q, q.buf
      ensures q.Valid()
      ensures State() == EdgeStep(old(State()), now, level, raw).st
      ensures q.Contents() == EventQueue.PushAll(old(q.Contents()), EdgeStep(old(State()), now, level, raw).events)
    {
      if level == lastLevel || Elapsed(now, lastEdge) < BtnDebounceMs {
        return;
      }
      lastEdge := now;
      lastLevel := level;
      ghost var q0 := q.Contents();
      ghost var es: seq<Event> := [];
      if raw {
        es := EventQueue.PushTracked(q, if IsAsserted(level) then EvLtcIntAsserted else EvLtcIntDeasserted, q0, es);
      }
      assert es == if raw then [if IsAsserted(level) then EvLtcIntAsserted else EvLtcIntDeasserted] else [];
      if IsAsserted(level) {
        pressed := true;
        downMs := now;
        longEmitted := false;
      } else {
        Release(now, q, q0, es);
      }
    }

    /** The release branch: classify the press unless a long press was already emitted, then reset. */
    method Release(now: U32, q: EventQueue.Queue, ghost q0: seq<Event>, ghost es: seq<Event>)
      requires q.Valid() && q.Contents() == EventQueue.PushAll(q0, es)
      modifies this, q, q.buf
      ensures q.Valid()
      ensures var d := ClampU16(Elapsed(now, old(downMs)));
        && State() == (if old(pressed) then old(State()).(lastPressMs := d) else old(State())).(pressed := false, downMs := 0, graceEmitted := false)
        && q.Contents() == EventQueue.PushAll(q0, es + (if old(pressed) && !old(longEmitted) then Button.ReleaseGesture(d) else []))
    {
      ghost var es' := es;
      if pressed {
        var d := ClampU16(Elapsed(now, downMs));
        lastPressMs := d;
        if !longEmitted {
          if BtnShortMinMs <= d < BtnGraceMs {
            es' := EventQueue.PushTracked(q, EvBtnShortPress(d), q0, es');
          } else if d >= BtnGraceMs {
            es' := EventQueue.PushTracked(q, EvBtnLongPress(d), q0, es');
            longEmitted := true;
          }
        }
      }
      assert es + [] == es;
      pressed := false;
      downMs := 0;
      longEmitted := false;
    }

    /** The grace-hold part of `button_poll`. */
    method CheckGrace(now: U32, q: EventQueue.Queue)
      requires q.Valid()
      modifies this, q, q.buf
      ensures q.Valid()
      ensures State() == Button.GraceStep(old(State()), now).st
      ensures q.Contents() == EventQueue.PushAll(old(q.Contents()), Button.GraceStep(old(State()), now).events)
    {
      if pressed && !longEmitted {
        var held := Elapsed(now, downMs);
        if held >= BtnGraceMs {
          var _ := q.Push(EvBtnLongPress(ClampU16(held)));
          longEmitted := true;
        }
      }
    }

    /** `button_is_pressed` and `button_last_press_ms`. */
    method View() returns (isPressed: bool, lastMs: U16)
      ensures isPressed == pressed && lastMs == lastPressMs
    {
      isPressed, lastMs := pressed, lastPressMs;
    }
  }
}
