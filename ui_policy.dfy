// The presentation mapper of src/ui_policy.cpp: on each controller state entry
// it sends the state's LED pattern (unless that pattern was the last one sent)
// and, on a real change of state, the state's entry beep. The confirmation
// hooks and the error hook send beeps. Every action goes to the action queue.
// The timestamp and error arguments are audit-only and are not represented.
module UiPolicy {
  import opened Vocabulary
  import Fifo
  import ActionQueue

  /** `s_last_state` and `s_last_led` (src/ui_policy.cpp:10-11). */
  datatype PolicyState = PolicyState(lastState: ControllerState, lastLed: LedPattern)

  /** `ui_policy_init`. */
  const Initial: PolicyState := PolicyState(StateOff, LedOff)

  /** A new policy state and the actions sent on the way to it, oldest first. */
  datatype Output = Output(st: PolicyState, actions: seq<Action>)

  /** The LED pattern shown in each controller state. */
  function LedFor(s: ControllerState): LedPattern {
    match s
    case StateOff => LedOff
    case StateBooting => LedFastBlink
    case StateIdle => LedSolid
    case StateRecording => LedSlowBlink
    case StateLowBat => LedSlowBlink
    case StateError => LedErrorPattern
    case StateLockout => LedLockoutPattern
  }

  /** The beep that marks entry into a state; BeepNone for the quiet states. */
  function EntryBeep(s: ControllerState, bat: BatteryState): BeepPattern {
    match s
    case StateLowBat => if bat == BatCritical then BeepErrorFast else BeepLowBat
    case StateError => BeepErrorFast
    case StateLockout => BeepSingle
    case _ => BeepNone
  }

  /** `led`: send pattern `p` unless it was the last pattern sent. */
  function Led(st: PolicyState, p: LedPattern): (r: Output)
    ensures r.st == st.(lastLed := p)
    ensures r.actions == [] <==> p == st.lastLed
    ensures r.actions == [] || r.actions == [ActLedPattern(p)]
  {
    if p == st.lastLed then Output(st, []) else Output(st.(lastLed := p), [ActLedPattern(p)])
  }

  /** `ui_policy_on_state_enter`. */
  function EnterState(st: PolicyState, s: ControllerState, bat: BatteryState): (r: Output)
    ensures r.st == PolicyState(s, LedFor(s))
    ensures |r.actions| <= 2
    // The LED action is sent exactly when the pattern differs from the last one sent ...
    ensures ActLedPattern(LedFor(s)) in r.actions <==> LedFor(s) != st.lastLed
    // ... the entry beep exactly on a change of state into a state that has one ...
    ensures ActBeep(EntryBeep(s, bat)) in r.actions <==> s != st.lastState && EntryBeep(s, bat) != BeepNone
    // ... nothing else is sent, and the LED action comes first.
    ensures forall a :: a in r.actions ==> a == ActLedPattern(LedFor(s)) || a == ActBeep(EntryBeep(s, bat))
    ensures |r.actions| == 2 ==> r.actions[0] == ActLedPattern(LedFor(s))
  {
    var l := Led(st.(lastState := s), LedFor(s));
    var b := EntryBeep(s, bat);
    Output(l.st, l.actions + (if s != st.lastState && b != BeepNone then [ActBeep(b)] else []))
  }

  /** `ui_policy_on_error`: the error pattern (deduplicated), then the fast error beep. */
  function OnError(st: PolicyState): (r: Output)
    ensures r.st == st.(lastLed := LedErrorPattern)
    ensures r.actions != [] && r.actions[|r.actions| - 1] == ActBeep(BeepErrorFast)
    ensures ActLedPattern(LedErrorPattern) in r.actions <==> st.lastLed != LedErrorPattern
    ensures |r.actions| == if st.lastLed == LedErrorPattern then 1 else 2
  {
    var l := Led(st, LedErrorPattern);
    Output(l.st, l.actions + [ActBeep(BeepErrorFast)])
  }

  /** Recording and LowBat share the slow blink; every other state shows a pattern of its own. */
  lemma LedPatternsDistinguishStates(a: ControllerState, b: ControllerState)
    requires a != b && LedFor(a) == LedFor(b)
    ensures {a, b} == {StateRecording, StateLowBat}
  {
  }

  /** The quiet states: Off, Booting, Idle and Recording never beep on entry; the others always do. */
  lemma QuietStates(s: ControllerState, bat: BatteryState)
    ensures EntryBeep(s, bat) == BeepNone <==> s in {StateOff, StateBooting, StateIdle, StateRecording}
    ensures s == StateLowBat ==> (EntryBeep(s, bat) == BeepErrorFast <==> bat == BatCritical)
  {
  }

  /** Entering the same state twice in a row sends nothing the second time. */
  lemma ReEntryIsSilent(st: PolicyState, s: ControllerState, bat: BatteryState, bat': BatteryState)
    ensures EnterState(EnterState(st, s, bat).st, s, bat').actions == []
  {
    var st' := EnterState(st, s, bat).st;
    assert ActLedPattern(LedFor(s)) !in EnterState(st', s, bat').actions;
  }

  /** After `ui_policy_init`, entering Off sends nothing. */
  lemma InitThenOffIsSilent(bat: BatteryState)
    ensures EnterState(Initial, StateOff, bat).actions == []
    ensures EnterState(Initial, StateOff, bat).st == Initial
  {
    assert ActLedPattern(LedOff) !in EnterState(Initial, StateOff, bat).actions;
  }

  class Policy {
    var lastState: ControllerState
    var lastLed: LedPattern

    ghost function State(): PolicyState
      reads this
    {
      PolicyState(lastState, lastLed)
    }

    /** `ui_policy_init`. */
    constructor Init()
      ensures State() == Initial
    {
      lastState := StateOff;
      lastLed := LedOff;
    }

    /** `led`. */
    method SendLed(p: LedPattern, aq: ActionQueue.Queue)
      requires aq.Valid()
      modifies this, aq
      ensures aq.Valid()
      ensures State() == Led(old(State()), p).st
      ensures aq.items == ActionQueue.PushAll(old(aq.items), Led(old(State()), p).actions)
    {
      if p == lastLed {
        return;
      }
      lastLed := p;
      var _ := aq.Push(ActLedPattern(p));
    }

    /** `beep`. */
    method SendBeep(b: BeepPattern, aq: ActionQueue.Queue)
      requires aq.Valid()
      modifies aq
      ensures aq.Valid()
      ensures aq.items == ActionQueue.PushAll(old(aq.items), [ActBeep(b)])
    {
      var _ := aq.Push(ActBeep(b));
    }

    /** `ui_policy_on_state_enter`. */
    method OnStateEnter(s: ControllerState, bat: BatteryState, aq: ActionQueue.Queue)
      requires aq.Valid()
      modifies this, aq
      ensures aq.Valid()
      ensures State() == EnterState(old(State()), s, bat).st
      ensures aq.items == ActionQueue.PushAll(old(aq.items), EnterState(old(State()), s, bat).actions)
    {
      ghost var q0 := aq.items;
      ghost var l := Led(old(State()).(lastState := s), LedFor(s));
      var changed := s != lastState;
      lastState := s;
      match s {
        case StateOff =>
          SendLed(LedOff, aq);
        case StateBooting =>
          SendLed(LedFastBlink, aq);
        case StateIdle =>
          SendLed(LedSolid, aq);
        case StateRecording =>
          SendLed(LedSlowBlink, aq);
        case StateLowBat =>
          SendLed(LedSlowBlink, aq);
          if changed {
            if bat == BatCritical {
              SendBeep(BeepErrorFast, aq);
            } else {
              SendBeep(BeepLowBat, aq);
            }
          }
        case StateError =>
          SendLed(LedErrorPattern, aq);
          if changed {
            SendBeep(BeepErrorFast, aq);
          }
        case StateLockout =>
          SendLed(LedLockoutPattern, aq);
          if changed {
            SendBeep(BeepSingle, aq);
          }
      }
      Fifo.PushAllAppend(q0, l.actions, if changed && EntryBeep(s, bat) != BeepNone then [ActBeep(EntryBeep(s, bat))] else [], ActionQueue.Capacity);
    }

    /** `ui_policy_on_record_confirmed`: a double beep. */
    method OnRecordConfirmed(aq: ActionQueue.Queue)
      requires aq.Valid()
      modifies aq
      ensures aq.Valid()
      ensures aq.items == ActionQueue.PushAll(old(aq.items), [ActBeep(BeepDouble)])
    {
      SendBeep(BeepDouble, aq);
    }

    /** `ui_policy_on_stop_confirmed`: a single beep. */
    method OnStopConfirmed(aq: ActionQueue.Queue)
      requires aq.Valid()
      modifies aq
      ensures aq.Valid()
      ensures aq.items == ActionQueue.PushAll(old(aq.items), [ActBeep(BeepSingle)])
    {
      SendBeep(BeepSingle, aq);
    }

    /** `ui_policy_on_error`. */
    method OnErrorHook(aq: ActionQueue.Queue)
      requires aq.Valid()
      modifies this, aq
      ensures aq.Valid()
      ensures State() == OnError(old(State())).st
      ensures aq.items == ActionQueue.PushAll(old(aq.items), OnError(old(State())).actions)
    {
      ghost var q0 := aq.items;
      ghost var l := Led(State(), LedErrorPattern);
      SendLed(LedErrorPattern, aq);
      SendBeep(BeepErrorFast, aq);
      Fifo.PushAllAppend(q0, l.actions, [ActBeep(BeepErrorFast)], ActionQueue.Capacity);
    }
  }
}
