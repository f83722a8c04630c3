// The controller state machine of src/controller_fsm.cpp: seven states, battery
// events first (lockout dominates the buttons), DVR semantic events from the
// status interpreter, and the user's short and long presses. Each poll checks the
// boot deadline, then drains the event queue in order. State entries are
// presented through the UI policy; DVR presses go to the action queue.
module ControllerFsm {
  import opened Vocabulary
  import opened Clock
  import Fifo
  import EventQueue
  import ActionQueue
  import UiPolicy

  /** The controller's variables (src/controller_fsm.cpp:36-44) and the UI policy's. */
  datatype Fsm = Fsm(
    state: ControllerState,
    bat: BatteryState,
    lockout: bool,
    err: ErrorCode,
    bootDeadline: U32,
    ui: UiPolicy.PolicyState)

  /** `controller_fsm_init`: the entry into Off that it presents sends nothing (UiPolicy.InitThenOffIsSilent). */
  const Initial: Fsm := Fsm(StateOff, BatUnknown, false, ErrNone, 0, UiPolicy.Initial)

  /** A new controller state and the actions sent on the way to it, oldest first. */
  datatype Step = Step(fsm: Fsm, actions: seq<Action>)

  predicate IsBatteryEvent(e: Event) {
    e.EvBatStateChanged? || e.EvBatLockoutEnter? || e.EvBatLockoutExit?
  }

  predicate IsDvrEvent(e: Event) {
    e.EvDvrPoweredOnIdle? || e.EvDvrRecordStarted? || e.EvDvrRecordStopped? || e.EvDvrPoweredOff? || e.EvDvrError?
  }

  predicate IsGesture(e: Event) {
    e.EvBtnShortPress? || e.EvBtnLongPress?
  }

  // ---------------------------------------------------------------------------
  // Transitions
  // ---------------------------------------------------------------------------

  /** `set_state`: enter `next` and present it, unless it is the current state. */
  function EnterStep(f: Fsm, next: ControllerState): (r: Step)
    ensures r.fsm.state == next
    ensures next == f.state ==> r == Step(f, [])
    ensures r.fsm == f.(state := next, ui := r.fsm.ui)
    ensures next != f.state ==>
      r.fsm.ui == UiPolicy.EnterState(f.ui, next, f.bat).st && r.actions == UiPolicy.EnterState(f.ui, next, f.bat).actions
  {
    if next == f.state then Step(f, [])
    else
      var o := UiPolicy.EnterState(f.ui, next, f.bat);
      Step(f.(state := next, ui := o.st), o.actions)
  }

  /** `set_error`: record `err`, present the error, then enter `next`. */
  function ErrorStep(f: Fsm, err: ErrorCode, next: ControllerState): (r: Step)
    ensures r.fsm.err == err && r.fsm.state == next
    ensures r.fsm.bat == f.bat && r.fsm.lockout == f.lockout && r.fsm.bootDeadline == f.bootDeadline
    ensures ActBeep(BeepErrorFast) in r.actions
  {
    var o := UiPolicy.OnError(f.ui);
    var s := EnterStep(f.(err := err, ui := o.st), next);
    Step(s.fsm, o.actions + s.actions)
  }

  /** `clear_error_if`: forget the error when moving to a state other than Error or Lockout. */
  function ClearedError(f: Fsm, next: ControllerState): (r: Fsm)
    ensures r == f || r == f.(err := ErrNone)
    ensures r.err == ErrNone <==> f.err == ErrNone || (next != StateError && next != StateLockout)
  {
    if f.err != ErrNone && next != StateError && next != StateLockout then f.(err := ErrNone) else f
  }

  /** `handle_battery_event`. */
  function BatteryStep(f: Fsm, e: Event): (r: Step)
    ensures !IsBatteryEvent(e) ==> r == Step(f, [])
    // Only a state report changes the battery state; the boot deadline is never touched.
    ensures r.fsm.bat == (if e.EvBatStateChanged? then e.state else f.bat)
    ensures r.fsm.bootDeadline == f.bootDeadline
    // The lockout flag follows the lockout events and nothing else.
    ensures r.fsm.lockout == (if e.EvBatLockoutEnter? then true else if e.EvBatLockoutExit? then false else f.lockout)
    ensures r.fsm.state == f.state || r.fsm.state == StateLowBat || r.fsm.state == StateLockout || r.fsm.state == StateOff
  {
    match e
    case EvBatStateChanged(s, _) =>
      var f1 := f.(bat := s);
      if !f1.lockout && s == BatCritical then EnterStep(f1.(err := ErrBatCritical), StateLowBat)
      else Step(f1, [])
    case EvBatLockoutEnter(_, _) => EnterStep(f.(lockout := true, err := ErrBatLockout), StateLockout)
    case EvBatLockoutExit(_, _) => EnterStep(f.(lockout := false, err := ErrNone), StateOff)
    case _ => Step(f, [])
  }

  /** The power-off path shared by Idle, Recording and LowBat: a long DVR press, then Off. */
  function PowerOffStep(f: Fsm): (r: Step)
    ensures r.fsm.state == StateOff && r.fsm.err == ErrNone
    ensures r.fsm.lockout == f.lockout && r.fsm.bat == f.bat && r.fsm.bootDeadline == f.bootDeadline
    ensures |r.actions| >= 1 && r.actions[0] == ActDvrPressLong
  {
    var s := EnterStep(ClearedError(f, StateOff), StateOff);
    Step(s.fsm, [ActDvrPressLong] + s.actions)
  }

  /** `handle_button_event`. */
  function ButtonStep(f: Fsm, now: U32, e: Event): (r: Step)
    ensures !IsGesture(e) || f.lockout ==> r == Step(f, [])
    ensures r.fsm.lockout == f.lockout && r.fsm.bat == f.bat
    // A gesture boots the DVR, powers it off, or leaves the state alone.
    ensures r.fsm.state == f.state || r.fsm.state == StateBooting || r.fsm.state == StateOff
    ensures r.fsm.state == StateBooting && f.state != StateBooting ==>
      f.state == StateOff && e.EvBtnShortPress? && r.fsm.bootDeadline == Add32(now, BootTimeoutMs)
  {
    var isShort := e.EvBtnShortPress?;
    var isLong := e.EvBtnLongPress?;
    if !isShort && !isLong then Step(f, [])
    else if f.lockout then Step(f, [])
    else
      match f.state
      case StateOff =>
        if !isShort then Step(f, [])
        else
          var s := EnterStep(f.(err := ErrNone), StateBooting);
          Step(s.fsm.(bootDeadline := Add32(now, BootTimeoutMs)), [ActDvrPressLong] + s.actions)
      case StateBooting => Step(f, [])
      case StateIdle => if isShort then Step(f, [ActDvrPressShort]) else PowerOffStep(f)
      case StateRecording => if isShort then Step(f, [ActDvrPressShort]) else PowerOffStep(f)
      case StateLowBat => if isLong then PowerOffStep(f) else Step(f, [])
      case StateError =>
        if isLong then
          var s := EnterStep(f, StateOff);
          Step(s.fsm.(err := ErrNone), [ActDvrPressLong] + s.actions)
        else Step(f, [])
      case StateLockout => Step(f, [])
  }

  /** `handle_dvr_semantic_event`. */
  function DvrStep(f: Fsm, e: Event): (r: Step)
    ensures !IsDvrEvent(e) ==> r == Step(f, [])
    // Under lockout only a DVR error is acted on.
    ensures f.lockout && !e.EvDvrError? ==> r == Step(f, [])
    ensures r.fsm.lockout == f.lockout && r.fsm.bat == f.bat && r.fsm.bootDeadline == f.bootDeadline
  {
    match e
    case EvDvrPoweredOnIdle =>
      if f.state == StateBooting && !f.lockout then
        var s := EnterStep(f.(err := ErrNone), StateIdle);
        Step(s.fsm, s.actions + [ActBeep(BeepDouble)])
      else Step(f, [])
    case EvDvrPoweredOff =>
      if !f.lockout then EnterStep(f.(err := ErrNone), StateOff) else Step(f, [])
    case EvDvrRecordStarted =>
      if !f.lockout then
        var s := EnterStep(f, StateRecording);
        Step(s.fsm, s.actions + [ActBeep(BeepDouble)])
      else Step(f, [])
    case EvDvrRecordStopped =>
      if !f.lockout then
        var s := EnterStep(f, StateIdle);
        Step(s.fsm, s.actions + [ActBeep(BeepSingle)])
      else Step(f, [])
    case EvDvrError(code, _) => ErrorStep(f, code, StateError)
    case _ => Step(f, [])
  }

  /** One popped event, routed as the poll loop routes it; other events are ignored. */
  function EventStep(f: Fsm, now: U32, e: Event): (r: Step)
    ensures !IsBatteryEvent(e) && !IsDvrEvent(e) && !IsGesture(e) ==> r == Step(f, [])
    // Only the fuel gauge's events move the battery state and the lockout flag.
    ensures !IsBatteryEvent(e) ==> r.fsm.lockout == f.lockout && r.fsm.bat == f.bat
  {
    if IsBatteryEvent(e) then BatteryStep(f, e)
    else if IsDvrEvent(e) then DvrStep(f, e)
    else if IsGesture(e) then ButtonStep(f, now, e)
    else Step(f, [])
  }

  /** The boot-timeout fallback at the start of `controller_fsm_poll`. */
  function BootCheck(f: Fsm, now: U32): (r: Step)
    // The fallback fires exactly when a boot outside lockout has run past its deadline ...
    ensures r.fsm.state != f.state <==> f.state == StateBooting && !f.lockout && TimeReached(now, f.bootDeadline)
    // ... and then ends in Error with the boot-timeout code; otherwise nothing happens.
    ensures r.fsm.state != f.state ==> r.fsm.state == StateError && r.fsm.err == ErrDvrBootTimeout
    ensures r.fsm.state == f.state ==> r == Step(f, [])
    ensures r.fsm.lockout == f.lockout && r.fsm.bat == f.bat
  {
    if f.state == StateBooting && TimeReached(now, f.bootDeadline) && !f.lockout then
      ErrorStep(f, ErrDvrBootTimeout, StateError)
    else Step(f, [])
  }

  /** The events `evs` handled in order; the actions are those sent along the way. */
  function Drain(f: Fsm, now: U32, evs: seq<Event>): (r: Step)
    // A drain with no battery event keeps the battery state and the lockout flag.
    ensures (forall i | 0 <= i < |evs| :: !IsBatteryEvent(evs[i])) ==> r.fsm.lockout == f.lockout && r.fsm.bat == f.bat
    decreases |evs|
  {
    if evs == [] then Step(f, [])
    else
      var d := Drain(f, now, evs[..|evs| - 1]);
      var h := EventStep(d.fsm, now, evs[|evs| - 1]);
      Step(h.fsm, d.actions + h.actions)
  }

  lemma DrainLast(f: Fsm, now: U32, evs: seq<Event>, e: Event)
    ensures Drain(f, now, evs + [e]) ==
      var d := Drain(f, now, evs);
      var h := EventStep(d.fsm, now, e);
      Step(h.fsm, d.actions + h.actions)
  {
    assert (evs + [e])[..|evs|] == evs;
  }

  /** One more event handled by the poll loop extends the drain and the actions sent. */
  lemma DrainTurn(f: Fsm, now: U32, popped: seq<Event>, e: Event, fmid: Fsm, fnext: Fsm,
                  q1: seq<Action>, qmid: seq<Action>, qnext: seq<Action>)
    requires fmid == Drain(f, now, popped).fsm
    requires qmid == ActionQueue.PushAll(q1, Drain(f, now, popped).actions)
    requires fnext == EventStep(fmid, now, e).fsm
    requires qnext == ActionQueue.PushAll(qmid, EventStep(fmid, now, e).actions)
    ensures fnext == Drain(f, now, popped + [e]).fsm
    ensures qnext == ActionQueue.PushAll(q1, Drain(f, now, popped + [e]).actions)
  {
    DrainLast(f, now, popped, e);
    Fifo.PushAllAppend(q1, Drain(f, now, popped).actions, EventStep(fmid, now, e).actions, ActionQueue.Capacity);
  }

  /** Moving the front event of the queue to the end of what has been popped keeps the total. */
  lemma ConsumeFront(all: seq<Event>, popped: seq<Event>, e: Event, before: seq<Event>)
    requires all == popped + before && before != [] && before[0] == e
    ensures all == (popped + [e]) + before[1..]
  {
    assert before == [e] + before[1..];
  }

  /** `controller_fsm_poll`: the boot check, then every queued event in order. */
  function PollStep(f: Fsm, now: U32, evs: seq<Event>): (r: Step)
    ensures (forall i | 0 <= i < |evs| :: !IsBatteryEvent(evs[i])) ==> r.fsm.lockout == f.lockout && r.fsm.bat == f.bat
  {
    var b := BootCheck(f, now);
    var d := Drain(b.fsm, now, evs);
    Step(d.fsm, b.actions + d.actions)
  }

  // ---------------------------------------------------------------------------
  // Properties of single events
  // ---------------------------------------------------------------------------

  /** Battery lockout, from any state, locks the controller out with ERR_BAT_LOCKOUT. */
  lemma LockoutEnterDominates(f: Fsm, now: U32, s: BatteryState, adc: U16)
    ensures var r := EventStep(f, now, EvBatLockoutEnter(s, adc)).fsm;
      r.lockout && r.err == ErrBatLockout && r.state == StateLockout
  {
  }

  /** Leaving battery lockout clears the error and goes to Off. */
  lemma LockoutExitGoesOff(f: Fsm, now: U32, s: BatteryState, adc: U16)
    ensures var r := EventStep(f, now, EvBatLockoutExit(s, adc)).fsm;
      !r.lockout && r.err == ErrNone && r.state == StateOff
  {
  }

  /** While locked out, a press changes nothing and sends nothing. */
  lemma LockoutIgnoresGestures(f: Fsm, now: U32, e: Event)
    requires f.lockout && IsGesture(e)
    ensures EventStep(f, now, e) == Step(f, [])
  {
  }

  /** A critical battery without lockout means LowBat with ERR_BAT_CRITICAL, from any state. */
  lemma CriticalBatteryMeansLowBat(f: Fsm, now: U32, adc: U16)
    requires !f.lockout
    ensures var r := EventStep(f, now, EvBatStateChanged(BatCritical, adc)).fsm;
      r.state == StateLowBat && r.err == ErrBatCritical && r.bat == BatCritical
  {
  }

  /** In Off a short press powers the DVR on and starts the boot window; a long press is ignored. */
  lemma OffPresses(f: Fsm, now: U32, ms: U16)
    requires f.state == StateOff && !f.lockout
    ensures var r := EventStep(f, now, EvBtnShortPress(ms));
      r.actions != [] && r.actions[0] == ActDvrPressLong && r.fsm.state == StateBooting &&
      r.fsm.err == ErrNone && r.fsm.bootDeadline == Add32(now, BootTimeoutMs)
    ensures EventStep(f, now, EvBtnLongPress(ms)) == Step(f, [])
  {
  }

  /** Presses in the running states: ignored while booting, a short DVR press in Idle and Recording, power-off on a long press. */
  lemma RunningPresses(f: Fsm, now: U32, e: Event)
    requires !f.lockout && IsGesture(e)
    ensures f.state == StateBooting ==> EventStep(f, now, e) == Step(f, [])
    ensures (f.state == StateIdle || f.state == StateRecording) && e.EvBtnShortPress? ==>
      EventStep(f, now, e) == Step(f, [ActDvrPressShort])
    ensures f.state == StateLowBat && e.EvBtnShortPress? ==> EventStep(f, now, e) == Step(f, [])
    ensures f.state in {StateIdle, StateRecording, StateLowBat, StateError} && e.EvBtnLongPress? ==>
      var r := EventStep(f, now, e);
      r.fsm.state == StateOff && r.actions != [] && r.actions[0] == ActDvrPressLong
  {
  }

  /** The DVR's idle report completes a boot, and nothing else: only from Booting and without lockout. */
  lemma BootCompletesOnlyFromBooting(f: Fsm, now: U32)
    ensures EventStep(f, now, EvDvrPoweredOnIdle).fsm.state == StateIdle && f.state != StateIdle <==>
      f.state == StateBooting && !f.lockout
  {
  }

  /** A DVR error enters Error with its code even during lockout. */
  lemma DvrErrorAlwaysEntersError(f: Fsm, now: U32, code: ErrorCode, p: DvrPattern)
    ensures var r := EventStep(f, now, EvDvrError(code, p)).fsm;
      r.state == StateError && r.err == code && r.lockout == f.lockout
  {
  }

  /** Reaching the boot deadline while booting is a boot-timeout error. */
  lemma BootTimeoutFallsBack(f: Fsm, now: U32)
    requires f.state == StateBooting && TimeReached(now, f.bootDeadline) && !f.lockout
    ensures BootCheck(f, now).fsm.state == StateError && BootCheck(f, now).fsm.err == ErrDvrBootTimeout
  {
  }

  /** ... and a boot started by a short press does not time out before BootTimeoutMs, even across the wrap of the clock. */
  lemma BootTimeoutNotEarly(f: Fsm, t: U32, ms: U16, early: nat)
    requires f.state == StateOff && !f.lockout && early < BootTimeoutMs
    ensures var b := EventStep(f, t, EvBtnShortPress(ms)).fsm;
      BootCheck(b, Add32(t, early)) == Step(b, [])
  {
    NotReachedBeforeDelay(t, BootTimeoutMs, early);
  }

  // ---------------------------------------------------------------------------
  // The invariant every poll keeps
  // ---------------------------------------------------------------------------

  /**
   * The UI policy remembers the current state and shows its pattern; lockout
   * leaves only the Lockout and Error states, and the Lockout state is always
   * a battery lockout.
   */
  predicate Good(f: Fsm) {
    && f.ui.lastState == f.state
    && f.ui.lastLed == UiPolicy.LedFor(f.state)
    && (f.lockout ==> f.state == StateLockout || f.state == StateError)
    && (f.state == StateLockout ==> f.lockout && f.err == ErrBatLockout)
  }

  lemma InitialGood()
    ensures Good(Initial)
  {
  }

  /** With the policy in step, every real state change beeps when its state has an entry beep, and sends the LED pattern when it differs. */
  lemma StateChangeCue(f: Fsm, next: ControllerState)
    requires Good(f) && next != f.state
    ensures ActBeep(UiPolicy.EntryBeep(next, f.bat)) in EnterStep(f, next).actions <==>
      UiPolicy.EntryBeep(next, f.bat) != BeepNone
    ensures ActLedPattern(UiPolicy.LedFor(next)) in EnterStep(f, next).actions <==>
      UiPolicy.LedFor(next) != UiPolicy.LedFor(f.state)
  {
  }

  lemma ErrorStepGood(f: Fsm, err: ErrorCode)
    requires Good(f)
    ensures Good(ErrorStep(f, err, StateError).fsm)
  {
  }

  lemma EventStepGood(f: Fsm, now: U32, e: Event)
    requires Good(f)
    ensures Good(EventStep(f, now, e).fsm)
  {
    if e.EvDvrError? {
      ErrorStepGood(f, e.code);
    }
  }

  lemma {:induction false} DrainGood(f: Fsm, now: U32, evs: seq<Event>)
    requires Good(f)
    ensures Good(Drain(f, now, evs).fsm)
    decreases |evs|
  {
    if evs != [] {
      DrainGood(f, now, evs[..|evs| - 1]);
      EventStepGood(Drain(f, now, evs[..|evs| - 1]).fsm, now, evs[|evs| - 1]);
    }
  }

  /** Every poll keeps the invariant. */
  lemma PollGood(f: Fsm, now: U32, evs: seq<Event>)
    requires Good(f)
    ensures Good(PollStep(f, now, evs).fsm)
  {
    if BootCheck(f, now) != Step(f, []) {
      ErrorStepGood(f, ErrDvrBootTimeout);
    }
    DrainGood(BootCheck(f, now).fsm, now, evs);
  }

  // ---------------------------------------------------------------------------
  // The controller
  // ---------------------------------------------------------------------------

  class Controller {
    var state: ControllerState
    var bat: BatteryState
    var lockout: bool
    var err: ErrorCode
    var bootDeadline: U32
    const ui: UiPolicy.Policy

    ghost function State(): Fsm
      reads this, ui
    {
      Fsm(state, bat, lockout, err, bootDeadline, ui.State())
    }

    /** `controller_fsm_init`: reset, and present Off (which sends nothing). */
    constructor Init(aq: ActionQueue.Queue)
      requires aq.Valid()
      modifies aq
      ensures aq.Valid() && fresh(ui)
      ensures State() == Initial
      ensures aq.items == old(aq.items)
    {
      state, bat, lockout, err, bootDeadline := StateOff, BatUnknown, false, ErrNone, 0;
      ui := new UiPolicy.Policy.Init();
      new;
      UiPolicy.InitThenOffIsSilent(BatUnknown);
      ui.OnStateEnter(StateOff, BatUnknown, aq);
    }

    /** `set_state`. */
    method SetState(next: ControllerState, aq: ActionQueue.Queue)
      requires aq.Valid()
      modifies this, ui, aq
      ensures aq.Valid()
      ensures State() == EnterStep(old(State()), next).fsm
      ensures aq.items == ActionQueue.PushAll(old(aq.items), EnterStep(old(State()), next).actions)
    {
      if next == state {
        return;
      }
      state := next;
      ui.OnStateEnter(state, bat, aq);
    }

    /** `set_error`. */
    method SetError(e: ErrorCode, next: ControllerState, aq: ActionQueue.Queue)
      requires aq.Valid()
      modifies this, ui, aq
      ensures aq.Valid()
      ensures State() == ErrorStep(old(State()), e, next).fsm
      ensures aq.items == ActionQueue.PushAll(old(aq.items), ErrorStep(old(State()), e, next).actions)
    {
      ghost var f0 := State();
      ghost var q0 := aq.items;
      err := e;
      ui.OnErrorHook(aq);
      ghost var q1 := aq.items;
      ghost var f1 := State();
      SetState(next, aq);
      Fifo.PushAllAppend(q0, UiPolicy.OnError(f0.ui).actions, EnterStep(f1, next).actions, ActionQueue.Capacity);
    }

    /** `clear_error_if`. */
    method ClearErrorIf(next: ControllerState)
      modifies this
      ensures State() == ClearedError(old(State()), next)
    {
      if err != ErrNone && next != StateError && next != StateLockout {
        err := ErrNone;
      }
    }

    /** `handle_battery_event`. */
    method HandleBatteryEvent(ev: Event, aq: ActionQueue.Queue)
      requires aq.Valid()
      modifies this, ui, aq
      ensures aq.Valid()
      ensures State() == BatteryStep(old(State()), ev).fsm
      ensures aq.items == ActionQueue.PushAll(old(aq.items), BatteryStep(old(State()), ev).actions)
    {
      match ev {
        case EvBatStateChanged(s, _) =>
          bat := s;
          if !lockout && bat == BatCritical {
            err := ErrBatCritical;
            SetState(StateLowBat, aq);
          }
        case EvBatLockoutEnter(_, _) =>
          lockout := true;
          err := ErrBatLockout;
          SetState(StateLockout, aq);
        case EvBatLockoutExit(_, _) =>
          lockout := false;
          err := ErrNone;
          SetState(StateOff, aq);
        case _ =>
      }
    }

    /** A long DVR press, then Off (the power-off branches of `handle_button_event`). */
    method PowerOff(aq: ActionQueue.Queue)
      requires aq.Valid()
      modifies this, ui, aq
      ensures aq.Valid()
      ensures State() == PowerOffStep(old(State())).fsm
      ensures aq.items == ActionQueue.PushAll(old(aq.items), PowerOffStep(old(State())).actions)
    {
      ghost var q0 := aq.items;
      var _ := aq.Push(ActDvrPressLong);
      ClearErrorIf(StateOff);
      ghost var f1 := State();
      SetState(StateOff, aq);
      Fifo.PushAllAppend(q0, [ActDvrPressLong], EnterStep(f1, StateOff).actions, ActionQueue.Capacity);
    }

    /** `handle_button_event`. */
    method HandleButtonEvent(now: U32, ev: Event, aq: ActionQueue.Queue)
      requires aq.Valid()
      modifies this, ui, aq
      ensures aq.Valid()
      ensures State() == ButtonStep(old(State()), now, ev).fsm
      ensures aq.items == ActionQueue.PushAll(old(aq.items), ButtonStep(old(State()), now, ev).actions)
    {
      var isShort := ev.EvBtnShortPress?;
      var isLong := ev.EvBtnLongPress?;
      if !isShort && !isLong {
        return;
      }
      if lockout {
        return;
      }
      ghost var q0 := aq.items;
      match state {
        case StateOff =>
          if !isShort {
            return;
          }
          var _ := aq.Push(ActDvrPressLong);
          err := ErrNone;
          ghost var f1 := State();
          SetState(StateBooting, aq);
          bootDeadline := Add32(now, BootTimeoutMs);
          Fifo.PushAllAppend(q0, [ActDvrPressLong], EnterStep(f1, StateBooting).actions, ActionQueue.Capacity);
        case StateBooting =>
        case StateIdle =>
          if isShort {
            var _ := aq.Push(ActDvrPressShort);
          } else {
            PowerOff(aq);
          }
        case StateRecording =>
          if isShort {
            var _ := aq.Push(ActDvrPressShort);
          } else {
            PowerOff(aq);
          }
        case StateLowBat =>
          if isLong {
            PowerOff(aq);
          }
        case StateError =>
          if isLong {
            var _ := aq.Push(ActDvrPressLong);
            ghost var f1 := State();
            SetState(StateOff, aq);
            err := ErrNone;
            Fifo.PushAllAppend(q0, [ActDvrPressLong], EnterStep(f1, StateOff).actions, ActionQueue.Capacity);
          }
        case StateLockout =>
      }
    }

    /** A state entry followed by a confirmation beep. */
    method EnterAndBeep(next: ControllerState, b: BeepPattern, aq: ActionQueue.Queue)
      requires aq.Valid()
      modifies this, ui, aq
      ensures aq.Valid()
      ensures State() == EnterStep(old(State()), next).fsm
      ensures aq.items == ActionQueue.PushAll(old(aq.items), EnterStep(old(State()), next).actions + [ActBeep(b)])
    {
      ghost var q0 := aq.items;
      ghost var f0 := State();
      SetState(next, aq);
      if b == BeepDouble {
        ui.OnRecordConfirmed(aq);
      } else if b == BeepSingle {
        ui.OnStopConfirmed(aq);
      } else {
        ui.SendBeep(b, aq);
      }
      Fifo.PushAllAppend(q0, EnterStep(f0, next).actions, [ActBeep(b)], ActionQueue.Capacity);
    }

    /** `handle_dvr_semantic_event`. */
    method HandleDvrSemanticEvent(ev: Event, aq: ActionQueue.Queue)
      requires aq.Valid()
      modifies this, ui, aq
      ensures aq.Valid()
      ensures State() == DvrStep(old(State()), ev).fsm
      ensures aq.items == ActionQueue.PushAll(old(aq.items), DvrStep(old(State()), ev).actions)
    {
      match ev {
        case EvDvrPoweredOnIdle =>
          if state == StateBooting && !lockout {
            err := ErrNone;
            EnterAndBeep(StateIdle, BeepDouble, aq);
          }
        case EvDvrPoweredOff =>
          if !lockout {
            err := ErrNone;
            SetState(StateOff, aq);
          }
        case EvDvrRecordStarted =>
          if !lockout {
            EnterAndBeep(StateRecording, BeepDouble, aq);
          }
        case EvDvrRecordStopped =>
          if !lockout {
            EnterAndBeep(StateIdle, BeepSingle, aq);
          }
        case EvDvrError(code, _) =>
          SetError(code, StateError, aq);
        case _ =>
      }
    }

    /** The body of the poll loop: route one event to its handler. */
    method HandleEvent(now: U32, ev: Event, aq: ActionQueue.Queue)
      requires aq.Valid()
      modifies this, ui, aq
      ensures aq.Valid()
      ensures State() == EventStep(old(State()), now, ev).fsm
      ensures aq.items == ActionQueue.PushAll(old(aq.items), EventStep(old(State()), now, ev).actions)
    {
      if ev.EvBatStateChanged? || ev.EvBatLockoutEnter? || ev.EvBatLockoutExit? {
        HandleBatteryEvent(ev, aq);
      } else if ev.EvDvrPoweredOnIdle? || ev.EvDvrRecordStarted? || ev.EvDvrRecordStopped? ||
                ev.EvDvrPoweredOff? || ev.EvDvrError? {
        HandleDvrSemanticEvent(ev, aq);
      } else if ev.EvBtnShortPress? || ev.EvBtnLongPress? {
        HandleButtonEvent(now, ev, aq);
      }
    }

    /** `controller_fsm_poll`: the boot-timeout check, then drain the event queue completely, in order. */
    method Poll(now: U32, eq: EventQueue.Queue, aq: ActionQueue.Queue)
      requires eq.Valid() && aq.Valid()
      modifies this, ui, aq, eq
      ensures eq.Valid() && aq.Valid()
      ensures eq.Contents() == []
      ensures State() == PollStep(old(State()), now, old(eq.Contents())).fsm
      ensures aq.items == ActionQueue.PushAll(old(aq.items), PollStep(old(State()), now, old(eq.Contents())).actions)
    {
      ghost var f0 := State();
      ghost var q0 := aq.items;
      if state == StateBooting && TimeReached(now, bootDeadline) {
        if !lockout {
          SetError(ErrDvrBootTimeout, StateError, aq);
        }
      }
      ghost var q1 := aq.items;
      DrainEvents(now, eq, aq);
      Fifo.PushAllAppend(q0, BootCheck(f0, now).actions, Drain(BootCheck(f0, now).fsm, now, old(eq.Contents())).actions, ActionQueue.Capacity);
    }

    /** The while-pop loop of `controller_fsm_poll`. */
    method DrainEvents(now: U32, eq: EventQueue.Queue, aq: ActionQueue.Queue)
      requires eq.Valid() && aq.Valid()
      modifies this, ui, aq, eq
      ensures eq.Valid() && aq.Valid()
      ensures eq.Contents() == []
      ensures State() == Drain(old(State()), now, old(eq.Contents())).fsm
      ensures aq.items == ActionQueue.PushAll(old(aq.items), Drain(old(State()), now, old(eq.Contents())).actions)
    {
      ghost var f1 := State();
      ghost var q1 := aq.items;
      ghost var e0 := eq.Contents();
      ghost var popped: seq<Event> := [];
      while true
        invariant eq.Valid() && aq.Valid()
        invariant e0 == popped + eq.Contents()
        invariant State() == Drain(f1, now, popped).fsm
        invariant aq.items == ActionQueue.PushAll(q1, Drain(f1, now, popped).actions)
        decreases |eq.Contents()|
      {
        ghost var before := eq.Contents();
        var ok, ev := eq.Pop();
        if !ok {
          break;
        }
        ghost var qmid := aq.items;
        ghost var fmid := State();
        HandleEvent(now, ev, aq);
        DrainTurn(f1, now, popped, ev, fmid, State(), q1, qmid, aq.items);
        ConsumeFront(e0, popped, ev, before);
        popped := popped + [ev];
      }
      assert popped == e0 by {
        assert eq.Contents() == [];
        assert e0 == popped + [];
      }
    }

    /** `controller_fsm_state`. */
    method CurrentState() returns (s: ControllerState)
      ensures s == state
    {
      s := state;
    }

    /** `controller_fsm_battery_state`. */
    method BatteryLevel() returns (b: BatteryState)
      ensures b == bat
    {
      b := bat;
    }

    /** `controller_fsm_lockout_active`. */
    method LockoutActive() returns (l: bool)
      ensures l == lockout
    {
      l := lockout;
    }

    /** `controller_fsm_error`. */
    method Error() returns (e: ErrorCode)
      ensures e == err
    {
      e := err;
    }
  }
}
