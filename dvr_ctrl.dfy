// The DVR press-waveform controller of src/dvr_ctrl.cpp. A request schedules a
// gesture (a press of the DVR's button for a given hold time); `tick` plays it
// out as ASSERT (press), HOLD, RELEASE, one step per due tick. An "assumed" DVR
// state, updated when a gesture is released, makes the requests idempotent, and
// a guard window after each release delays the next real gesture. The button
// output is a callback in the source: here its effect is the `btnAsserted`
// flag, and whether the hardware accepted a press is the `btnOk` input of Tick.
// Times compare with a plain `<` on uint32, as in the source.
module DvrCtrl {
  import opened Vocabulary
  import opened Clock

  /** `dvr_ctrl_cfg_t`. */
  datatype Cfg = Cfg(pressShortMs: U16, pressLongMs: U16, bootPressMs: U16, guardMs: U16)

  /** The configuration used when `dvr_ctrl_init` is given none. */
  const DefaultCfg: Cfg := Cfg(DvrPressShortMs, DvrPressLongMs, DvrBootPressMs, DvrPressGapMs)

  datatype Option<T> = None | Some(value: T)

  /** `dvr_ctrl_assumed_state_t`. */
  datatype Assumed = AssumeOff | AssumeOnIdle | AssumeOnRecording

  /** `dvr_ctrl_step_t`. */
  datatype StepName = StepIdle | StepAssert | StepHold | StepRelease

  datatype ReqStatus = ReqAccepted | ReqBusy | ReqRejected

  /** `dvr_ctrl_req_result_t`. */
  datatype ReqResult = ReqResult(status: ReqStatus, noop: bool)

  /** The fields of `dvr_ctrl_t` that carry behaviour. */
  datatype CtrlState = CtrlState(
    cfg: Cfg,
    assumed: Assumed,
    busy: bool,
    btnAsserted: bool,
    deadline: U32,
    guardUntil: U32,
    step: StepName,
    holdMs: U16,
    pendingUpdate: bool,
    pendingNext: Assumed)

  /** `dvr_ctrl_init`. */
  function Initial(cfg: Option<Cfg>): (s: CtrlState)
    ensures cfg.None? ==> s.cfg == DefaultCfg
    ensures cfg.Some? ==> s.cfg == cfg.value
    ensures s.assumed == AssumeOff && !s.busy && !s.btnAsserted && s.step == StepIdle
    ensures s.deadline == 0 && s.guardUntil == 0 && s.holdMs == 0 && !s.pendingUpdate && s.pendingNext == AssumeOff
  {
    CtrlState(if cfg.Some? then cfg.value else DefaultCfg, AssumeOff, false, false, 0, 0, StepIdle, 0, false, AssumeOff)
  }

  /** The button is pressed exactly during HOLD and RELEASE, and the controller is busy exactly while a gesture runs. */
  predicate Good(s: CtrlState) {
    && (s.busy <==> s.step != StepIdle)
    && (s.btnAsserted <==> s.step == StepHold || s.step == StepRelease)
  }

  /** `start_gesture`: start pressing at `now` unless the guard window is still open. */
  function GestureStart(s: CtrlState, now: U32, holdMs: U16, next: Assumed): (r: CtrlState)
    ensures now < s.guardUntil ==> r == s
    ensures now >= s.guardUntil ==>
      r == s.(busy := true, step := StepAssert, holdMs := holdMs, pendingUpdate := true, pendingNext := next, deadline := now)
  {
    if now < s.guardUntil then s
    else s.(busy := true, step := StepAssert, holdMs := holdMs, pendingUpdate := true, pendingNext := next, deadline := now)
  }

  /** `dvr_ctrl_abort`: release, go idle, and guard from the last deadline. */
  function AbortStep(s: CtrlState): (r: CtrlState)
    ensures !r.busy && !r.btnAsserted && r.step == StepIdle && !r.pendingUpdate
    ensures r.assumed == s.assumed
    ensures r.guardUntil == Add32(s.deadline, s.cfg.guardMs) && r.deadline == r.guardUntil
  {
    var g := Add32(s.deadline, s.cfg.guardMs);
    s.(btnAsserted := false, busy := false, step := StepIdle, holdMs := 0, pendingUpdate := false,
       guardUntil := g, deadline := g)
  }

  /** `dvr_ctrl_tick`; `btnOk` is what the button output answers to a press. */
  function TickStep(s: CtrlState, now: U32, btnOk: bool): (r: CtrlState)
    // Nothing happens while idle or before the deadline.
    ensures !s.busy || now < s.deadline ==> r == s
    // ASSERT presses (or aborts when the press is refused) and holds for the gesture's time.
    ensures s.busy && now >= s.deadline && s.step == StepAssert ==>
      if btnOk then r == s.(btnAsserted := true, step := StepHold, deadline := Add32(now, s.holdMs))
      else r == AbortStep(s)
    ensures s.busy && now >= s.deadline && s.step == StepHold ==>
      r == s.(step := StepRelease, deadline := now)
    // RELEASE lets go, applies the pending assumed state and opens the guard window.
    ensures s.busy && now >= s.deadline && s.step == StepRelease ==>
      && !r.busy && !r.btnAsserted && r.step == StepIdle && !r.pendingUpdate
      && r.assumed == (if s.pendingUpdate then s.pendingNext else s.assumed)
      && r.guardUntil == Add32(now, s.cfg.guardMs)
    // The assumed state changes only at RELEASE.
    ensures r.assumed != s.assumed ==> s.step == StepRelease && s.pendingUpdate && r.assumed == s.pendingNext
  {
    if !s.busy || now < s.deadline then s
    else
      match s.step
      case StepAssert =>
        if !btnOk then AbortStep(s)
        else s.(btnAsserted := true, step := StepHold, deadline := Add32(now, s.holdMs))
      case StepHold => s.(step := StepRelease, deadline := now)
      case StepRelease =>
        var s1 := s.(btnAsserted := false);
        var s2 := if s1.pendingUpdate then s1.(assumed := s1.pendingNext, pendingUpdate := false) else s1;
        s2.(guardUntil := Add32(now, s.cfg.guardMs), busy := false, step := StepIdle, holdMs := 0)
      case StepIdle => AbortStep(s)
  }

  /** A request's new state and answer. */
  datatype Outcome = Outcome(st: CtrlState, res: ReqResult)

  /** The common tail of the requests: refuse inside the guard window, otherwise start the gesture. */
  function ScheduleStep(s: CtrlState, now: U32, holdMs: U16, next: Assumed): Outcome {
    if now < s.guardUntil then Outcome(s, ReqResult(ReqBusy, false))
    else
      var s1 := GestureStart(s, now, holdMs, next);
      if !s1.busy then Outcome(s1, ReqResult(ReqBusy, false)) else Outcome(s1, ReqResult(ReqAccepted, false))
  }

  /** `dvr_request_power_on`. */
  function PowerOn(s: CtrlState, now: U32): (o: Outcome)
    ensures s.busy ==> o == Outcome(s, ReqResult(ReqBusy, false))
    ensures !s.busy && (s.assumed == AssumeOnIdle || s.assumed == AssumeOnRecording) ==>
      o == Outcome(s, ReqResult(ReqAccepted, true))
    ensures !s.busy && s.assumed == AssumeOff ==> o == ScheduleStep(s, now, s.cfg.bootPressMs, AssumeOnIdle)
  {
    if s.busy then Outcome(s, ReqResult(ReqBusy, false))
    else if s.assumed == AssumeOnIdle || s.assumed == AssumeOnRecording then Outcome(s, ReqResult(ReqAccepted, true))
    else ScheduleStep(s, now, s.cfg.bootPressMs, AssumeOnIdle)
  }

  /** `dvr_request_toggle_record`. */
  function ToggleRecord(s: CtrlState, now: U32): (o: Outcome)
    ensures s.busy ==> o == Outcome(s, ReqResult(ReqBusy, false))
    ensures !s.busy && s.assumed == AssumeOff ==> o == Outcome(s, ReqResult(ReqRejected, false))
    ensures !s.busy && s.assumed != AssumeOff ==>
      o == ScheduleStep(s, now, s.cfg.pressShortMs, if s.assumed == AssumeOnRecording then AssumeOnIdle else AssumeOnRecording)
  {
    if s.busy then Outcome(s, ReqResult(ReqBusy, false))
    else if s.assumed == AssumeOff then Outcome(s, ReqResult(ReqRejected, false))
    else
      var next := if s.assumed == AssumeOnRecording then AssumeOnIdle else AssumeOnRecording;
      ScheduleStep(s, now, s.cfg.pressShortMs, next)
  }

  /** `dvr_request_power_off`. */
  function PowerOff(s: CtrlState, now: U32): (o: Outcome)
    ensures s.busy ==> o == Outcome(s, ReqResult(ReqBusy, false))
    ensures !s.busy && s.assumed == AssumeOff ==> o == Outcome(s, ReqResult(ReqAccepted, true))
    ensures !s.busy && s.assumed != AssumeOff ==> o == ScheduleStep(s, now, s.cfg.pressLongMs, AssumeOff)
  {
    if s.busy then Outcome(s, ReqResult(ReqBusy, false))
    else if s.assumed == AssumeOff then Outcome(s, ReqResult(ReqAccepted, true))
    else ScheduleStep(s, now, s.cfg.pressLongMs, AssumeOff)
  }

  // ---------------------------------------------------------------------------
  // Properties
  // ---------------------------------------------------------------------------

  /** Scheduling outside the guard window starts the gesture and is accepted; inside it, nothing changes and the answer is BUSY. */
  lemma ScheduleGuard(s: CtrlState, now: U32, holdMs: U16, next: Assumed)
    ensures var o := ScheduleStep(s, now, holdMs, next);
      && (now < s.guardUntil ==> o == Outcome(s, ReqResult(ReqBusy, false)))
      && (now >= s.guardUntil ==>
            o.res == ReqResult(ReqAccepted, false) && o.st.busy && o.st.step == StepAssert &&
            o.st.deadline == now && o.st.holdMs == holdMs && o.st.pendingUpdate && o.st.pendingNext == next &&
            o.st.assumed == s.assumed && o.st.btnAsserted == s.btnAsserted)
  {
  }

  /** Requests never change the assumed state; only a released gesture does. */
  lemma RequestsKeepAssumed(s: CtrlState, now: U32)
    ensures PowerOn(s, now).st.assumed == s.assumed
    ensures ToggleRecord(s, now).st.assumed == s.assumed
    ensures PowerOff(s, now).st.assumed == s.assumed
  {
  }

  /** Ticks, requests and aborts keep the controller Good. */
  lemma GoodKept(s: CtrlState, now: U32, btnOk: bool, a: Assumed)
    requires Good(s)
    ensures Good(TickStep(s, now, btnOk)) && Good(AbortStep(s)) && Good(s.(assumed := a))
    ensures Good(PowerOn(s, now).st) && Good(ToggleRecord(s, now).st) && Good(PowerOff(s, now).st)
  {
  }

  /**
   * An accepted gesture from an idle controller: with the press accepted, the
   * tick at `t1` presses, no tick before `t1 + hold` does anything, the tick at
   * `t2` moves to RELEASE, and the tick at `t3` lets go, sets the assumed state
   * and opens the guard window.
   */
  lemma GestureWaveform(s: CtrlState, t1: U32, early: U32, t2: U32, t3: U32)
    requires s.busy && s.step == StepAssert && s.deadline <= t1
    requires t1 + s.holdMs < TWO32 && t1 <= early < t1 + s.holdMs && t1 + s.holdMs <= t2 <= t3
    ensures var a := TickStep(s, t1, true);
      a.step == StepHold && a.btnAsserted && a.deadline == t1 + s.holdMs &&
      TickStep(a, early, true) == a &&
      var h := TickStep(a, t2, true);
      h.step == StepRelease && h.btnAsserted &&
      var r := TickStep(h, t3, true);
      !r.busy && !r.btnAsserted && r.step == StepIdle &&
      r.assumed == (if s.pendingUpdate then s.pendingNext else s.assumed) &&
      r.guardUntil == Add32(t3, s.cfg.guardMs)
  {
  }

  /** Power-on holds for boot_press_ms and ends ON_IDLE; power-off holds for press_long_ms and ends OFF; a toggle holds for press_short_ms and flips idle and recording. */
  lemma GestureTargets(s: CtrlState, now: U32)
    requires !s.busy && now >= s.guardUntil
    ensures s.assumed == AssumeOff ==>
      PowerOn(s, now).st.holdMs == s.cfg.bootPressMs && PowerOn(s, now).st.pendingNext == AssumeOnIdle
    ensures s.assumed != AssumeOff ==>
      PowerOff(s, now).st.holdMs == s.cfg.pressLongMs && PowerOff(s, now).st.pendingNext == AssumeOff
    ensures s.assumed == AssumeOnIdle ==>
      ToggleRecord(s, now).st.holdMs == s.cfg.pressShortMs && ToggleRecord(s, now).st.pendingNext == AssumeOnRecording
    ensures s.assumed == AssumeOnRecording ==>
      ToggleRecord(s, now).st.holdMs == s.cfg.pressShortMs && ToggleRecord(s, now).st.pendingNext == AssumeOnIdle
  {
  }

  // ---------------------------------------------------------------------------
  // The controller object
  // ---------------------------------------------------------------------------

  class Ctrl {
    var cfg: Cfg
    var assumed: Assumed
    var busy: bool
    var btnAsserted: bool
    var deadline: U32
    var guardUntil: U32
    var step: StepName
    var holdMs: U16
    var pendingUpdate: bool
    var pendingNext: Assumed

    ghost function State(): CtrlState
      reads this
    {
      CtrlState(cfg, assumed, busy, btnAsserted, deadline, guardUntil, step, holdMs, pendingUpdate, pendingNext)
    }

    /** `dvr_ctrl_init` (the button is released). */
    constructor Init(c: Option<Cfg>)
      ensures State() == Initial(c)
    {
      cfg := if c.Some? then c.value else DefaultCfg;
      assumed := AssumeOff;
      busy, btnAsserted := false, false;
      deadline, guardUntil := 0, 0;
      step, holdMs := StepIdle, 0;
      pendingUpdate, pendingNext := false, AssumeOff;
    }

    /** `dvr_ctrl_set_assumed_state`. */
    method SetAssumedState(a: Assumed)
      modifies this
      ensures State() == old(State()).(assumed := a)
    {
      assumed := a;
    }

    /** `dvr_ctrl_get_assumed_state`. */
    method GetAssumedState() returns (a: Assumed)
      ensures a == assumed
    {
      a := assumed;
    }

    /** `dvr_ctrl_is_busy`. */
    method IsBusy() returns (b: bool)
      ensures b == busy
    {
      b := busy;
    }

    /** `start_gesture`. */
    method StartGesture(now: U32, hold: U16, next: Assumed)
      modifies this
      ensures State() == GestureStart(old(State()), now, hold, next)
    {
      if now < guardUntil {
        return;
      }
      busy := true;
      step := StepAssert;
      holdMs := hold;
      pendingUpdate := true;
      pendingNext := next;
      deadline := now;
    }

    /** `dvr_ctrl_abort`. */
    method Abort()
      modifies this
      ensures State() == AbortStep(old(State()))
    {
      btnAsserted := false;
      busy := false;
      step := StepIdle;
      holdMs := 0;
      pendingUpdate := false;
      guardUntil := Add32(deadline, cfg.guardMs);
      deadline := guardUntil;
    }

    /** `dvr_ctrl_tick`. */
    method Tick(now: U32, btnOk: bool)
      modifies this
      ensures State() == TickStep(old(State()), now, btnOk)
    {
      if !busy {
        return;
      }
      if now < deadline {
        return;
      }
      match step {
        case StepAssert =>
          if !btnOk {
            Abort();
            return;
          }
          btnAsserted := true;
          step := StepHold;
          deadline := Add32(now, holdMs);
        case StepHold =>
          step := StepRelease;
          deadline := now;
        case StepRelease =>
          btnAsserted := false;
          if pendingUpdate {
            assumed := pendingNext;
            pendingUpdate := false;
          }
          guardUntil := Add32(now, cfg.guardMs);
          busy := false;
          step := StepIdle;
          holdMs := 0;
        case StepIdle =>
          Abort();
      }
    }

    /** The guard check and gesture start shared by the three requests. */
    method Schedule(now: U32, hold: U16, next: Assumed) returns (r: ReqResult)
      modifies this
      ensures State() == ScheduleStep(old(State()), now, hold, next).st
      ensures r == ScheduleStep(old(State()), now, hold, next).res
    {
      if now < guardUntil {
        return ReqResult(ReqBusy, false);
      }
      StartGesture(now, hold, next);
      if !busy {
        return ReqResult(ReqBusy, false);
      }
      r := ReqResult(ReqAccepted, false);
    }

    /** `dvr_request_power_on`. */
    method RequestPowerOn(now: U32) returns (r: ReqResult)
      modifies this
      ensures State() == PowerOn(old(State()), now).st && r == PowerOn(old(State()), now).res
    {
      if busy {
        return ReqResult(ReqBusy, false);
      }
      if assumed == AssumeOnIdle || assumed == AssumeOnRecording {
        return ReqResult(ReqAccepted, true);
      }
      r := Schedule(now, cfg.bootPressMs, AssumeOnIdle);
    }

    /** `dvr_request_toggle_record`. */
    method RequestToggleRecord(now: U32) returns (r: ReqResult)
      modifies this
      ensures State() == ToggleRecord(old(State()), now).st && r == ToggleRecord(old(State()), now).res
    {
      if busy {
        return ReqResult(ReqBusy, false);
      }
      if assumed == AssumeOff {
        return ReqResult(ReqRejected, false);
      }
      var next := if assumed == AssumeOnRecording then AssumeOnIdle else AssumeOnRecording;
      r := Schedule(now, cfg.pressShortMs, next);
    }

    /** `dvr_request_power_off`. */
    method RequestPowerOff(now: U32) returns (r: ReqResult)
      modifies this
      ensures State() == PowerOff(old(State()), now).st && r == PowerOff(old(State()), now).res
    {
      if busy {
        return ReqResult(ReqBusy, false);
      }
      if assumed == AssumeOff {
        return ReqResult(ReqAccepted, true);
      }
      r := Schedule(now, cfg.pressLongMs, AssumeOff);
    }
  }
}
