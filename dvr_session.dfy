// The DVR session layer of src/dvr_session.cpp: requests (power on, start and
// stop recording, power off) become press actions on the action queue, guarded
// by a command hold-off, and most of them open a "task" that waits for the DVR's
// LED to confirm the change or times out. Auto-record, latched by a power-on
// request, presses once more when the DVR comes up idle. Times compare with a
// plain `>=` on uint32, as in the source.
module DvrSession {
  import opened Vocabulary
  import opened Clock
  import ActionQueue

  /** `dvr_task_t`. */
  datatype Task = TaskNone | TaskBootWait | TaskAutorecWait | TaskStartRecWait | TaskStopRecWait

  /** `dvr_session_t`. */
  datatype Session = Session(
    lastLed: DvrPattern,
    task: Task,
    taskDeadline: U32,
    guardActive: bool,
    guardFree: U32,
    lastErr: ErrorCode,
    autorec: bool)

  /** `dvr_session_init`. */
  const Initial: Session := Session(DvrUnknown, TaskNone, 0, false, 0, ErrNone, false)

  /** The hold-off after a short press and after the long presses of power-on and power-off. */
  const ShortHoldoffMs: nat := DvrPressShortMs + DvrPressGapMs
  const PowerOnHoldoffMs: nat := DvrBootPressMs + DvrAfterPwrOnMs
  const PowerOffHoldoffMs: nat := DvrPressLongMs + DvrAfterPwrOffMs

  /** A new session, what it pushes onto the action queue, and (for requests) its answer. */
  datatype Output = Output(st: Session, actions: seq<Action>)
  datatype Reply = Reply(st: Session, res: ResultCode, actions: seq<Action>)

  /** `cmd_allowed`. */
  predicate Allowed(s: Session, now: U32) {
    !s.guardActive || now >= s.guardFree
  }

  /** `dvr_session_is_busy`. */
  predicate Busy(s: Session) {
    s.task != TaskNone || s.guardActive
  }

  /** The LED pattern that confirms a task: its goal was reached. */
  predicate Confirms(t: Task, p: DvrPattern) {
    match t
    case TaskNone => false
    case TaskBootWait => p == DvrSolid || p == DvrSlowBlink
    case TaskAutorecWait => p == DvrSlowBlink
    case TaskStartRecWait => p == DvrSlowBlink
    case TaskStopRecWait => p == DvrSolid
  }

  /** `end_task_ok` / `end_task_err`. */
  function TaskEnded(s: Session, err: ErrorCode): (r: Session)
    ensures r.task == TaskNone && r.lastErr == err
    ensures r.lastLed == s.lastLed && r.autorec == s.autorec && r.guardActive == s.guardActive && r.guardFree == s.guardFree
  {
    s.(task := TaskNone, taskDeadline := 0, lastErr := err)
  }

  /** `dvr_session_on_led`. */
  function LedUpdate(s: Session, p: DvrPattern): (r: Session)
    ensures r.lastLed == p
    ensures r.autorec == s.autorec && r.guardActive == s.guardActive && r.guardFree == s.guardFree
    // The DVR's error signatures end any task, with their own error.
    ensures p == DvrFastBlink ==> r.task == TaskNone && r.lastErr == ErrDvrCardError
    ensures p == DvrAbnormalBoot ==> r.task == TaskNone && r.lastErr == ErrDvrAbnormalBoot
    // A confirming pattern ends that task successfully; any other leaves it pending.
    ensures p != DvrFastBlink && p != DvrAbnormalBoot ==>
      if Confirms(s.task, p) then r.task == TaskNone && r.lastErr == ErrNone
      else r == s.(lastLed := p)
  {
    var s1 := s.(lastLed := p);
    if p == DvrFastBlink then TaskEnded(s1, ErrDvrCardError)
    else if p == DvrAbnormalBoot then TaskEnded(s1, ErrDvrAbnormalBoot)
    else
      match s.task
      case TaskBootWait => if p == DvrSolid || p == DvrSlowBlink then TaskEnded(s1, ErrNone) else s1
      case TaskAutorecWait => if p == DvrSlowBlink then TaskEnded(s1, ErrNone) else s1
      case TaskStartRecWait => if p == DvrSlowBlink then TaskEnded(s1, ErrNone) else s1
      case TaskStopRecWait => if p == DvrSolid then TaskEnded(s1, ErrNone) else s1
      case TaskNone => s1
  }

  /** The guard release and timeout part of `dvr_session_poll`. */
  function Expire(s: Session, now: U32): (r: Session)
    ensures r.guardActive == (s.guardActive && now < s.guardFree)
    ensures r.lastLed == s.lastLed && r.autorec == s.autorec && r.guardFree == s.guardFree
    // A task past its deadline fails: a boot wait with a boot timeout, any other with an unexpected pattern.
    ensures s.task != TaskNone && now >= s.taskDeadline ==>
      r.task == TaskNone && r.lastErr == (if s.task == TaskBootWait then ErrDvrBootTimeout else ErrUnexpectedLedPattern)
    ensures s.task == TaskNone || now < s.taskDeadline ==>
      r.task == s.task && r.taskDeadline == s.taskDeadline && r.lastErr == s.lastErr
  {
    var s1 := if s.guardActive && now >= s.guardFree then s.(guardActive := false) else s;
    if s1.task != TaskNone && now >= s1.taskDeadline then
      TaskEnded(s1, if s1.task == TaskBootWait then ErrDvrBootTimeout else ErrUnexpectedLedPattern)
    else s1
  }

  /** `dvr_session_poll`: expire the guard and the pending task, then run auto-record. */
  function PollStep(s: Session, now: U32): (r: Output)
    ensures var e := Expire(s, now);
      // Auto-record fires once: idle DVR, no task, guard elapsed.
      && (e.autorec && e.task == TaskNone && e.lastLed == DvrSolid && Allowed(e, now) ==>
            r.actions == [ActDvrPressShort] && !r.st.autorec && r.st.task == TaskAutorecWait &&
            r.st.taskDeadline == Add32(now, BootTimeoutMs) &&
            r.st.guardActive && r.st.guardFree == Add32(now, ShortHoldoffMs))
      // A recording DVR only clears the intent.
      && (e.autorec && e.task == TaskNone && e.lastLed == DvrSlowBlink ==> r == Output(e.(autorec := false), []))
      // Otherwise nothing beyond the expiry happens.
      && (!(e.autorec && e.task == TaskNone && (e.lastLed == DvrSlowBlink || (e.lastLed == DvrSolid && Allowed(e, now)))) ==>
            r == Output(e, []))
  {
    var s1 := Expire(s, now);
    if s1.autorec && s1.task == TaskNone then
      if s1.lastLed == DvrSolid then
        if Allowed(s1, now) then
          Output(s1.(guardActive := true, guardFree := Add32(now, ShortHoldoffMs),
                     task := TaskAutorecWait, taskDeadline := Add32(now, BootTimeoutMs), autorec := false),
                 [ActDvrPressShort])
        else Output(s1, [])
      else if s1.lastLed == DvrSlowBlink then Output(s1.(autorec := false), [])
      else Output(s1, [])
    else Output(s1, [])
  }

  /** The common part of the effective requests: hold the guard for `holdoff` ms and clear the last error. */
  function Press(s: Session, now: U32, holdoff: nat): (r: Session)
    ensures r.guardActive && r.guardFree == Add32(now, holdoff) && r.lastErr == ErrNone
    ensures r.lastLed == s.lastLed && r.task == s.task && r.autorec == s.autorec
  {
    s.(guardActive := true, guardFree := Add32(now, holdoff), lastErr := ErrNone)
  }

  /** `dvr_session_request_power_on`. */
  function PowerOnReq(s: Session, now: U32, autoRecord: bool): (r: Reply)
    // Already on: OK, no press; auto-record is latched only when idle.
    ensures s.lastLed == DvrSolid || s.lastLed == DvrSlowBlink ==>
      r == Reply(if autoRecord && s.lastLed == DvrSolid then s.(autorec := true) else s, RetOk, [])
    ensures r.res == RetWait ==> r.st == s && r.actions == []
    ensures r.actions != [] ==>
      && r.actions == [ActDvrPressLong] && r.res == RetOk
      && r.st.task == TaskBootWait && r.st.taskDeadline == Add32(now, BootTimeoutMs)
      && r.st.guardActive && r.st.guardFree == Add32(now, PowerOnHoldoffMs)
      && r.st.autorec == autoRecord && r.st.lastErr == ErrNone
  {
    if s.lastLed == DvrSolid || s.lastLed == DvrSlowBlink then
      Reply(if autoRecord && s.lastLed == DvrSolid then s.(autorec := true) else s, RetOk, [])
    else if s.task != TaskNone then Reply(s, RetWait, [])
    else if !Allowed(s, now) then Reply(s, RetWait, [])
    else
      var p := Press(s, now, PowerOnHoldoffMs);
      Reply(p.(task := TaskBootWait, taskDeadline := Add32(now, BootTimeoutMs), autorec := autoRecord),
            RetOk, [ActDvrPressLong])
  }

  /** `dvr_session_request_start_record`. */
  function StartRecordReq(s: Session, now: U32): (r: Reply)
    ensures s.lastLed == DvrSlowBlink ==> r == Reply(s, RetOk, [])
    ensures r.res == RetWait ==> r.st == s && r.actions == []
    ensures r.actions != [] ==>
      && r.actions == [ActDvrPressShort] && r.res == RetOk
      && r.st.task == TaskStartRecWait && r.st.taskDeadline == Add32(now, BootTimeoutMs)
      && r.st.guardActive && r.st.guardFree == Add32(now, ShortHoldoffMs)
      && r.st.autorec == s.autorec && r.st.lastErr == ErrNone
  {
    if s.lastLed == DvrSlowBlink then Reply(s, RetOk, [])
    else if s.task != TaskNone then Reply(s, RetWait, [])
    else if !Allowed(s, now) then Reply(s, RetWait, [])
    else
      var p := Press(s, now, ShortHoldoffMs);
      Reply(p.(task := TaskStartRecWait, taskDeadline := Add32(now, BootTimeoutMs)), RetOk, [ActDvrPressShort])
  }

  /** `dvr_session_request_stop_record`. */
  function StopRecordReq(s: Session, now: U32): (r: Reply)
    ensures s.lastLed == DvrSolid ==> r == Reply(s, RetOk, [])
    ensures r.res == RetWait ==> r.st == s && r.actions == []
    ensures r.actions != [] ==>
      && r.actions == [ActDvrPressShort] && r.res == RetOk
      && r.st.task == TaskStopRecWait && r.st.taskDeadline == Add32(now, BootTimeoutMs)
      && r.st.guardActive && r.st.guardFree == Add32(now, ShortHoldoffMs)
      && r.st.autorec == s.autorec && r.st.lastErr == ErrNone
  {
    if s.lastLed == DvrSolid then Reply(s, RetOk, [])
    else if s.task != TaskNone then Reply(s, RetWait, [])
    else if !Allowed(s, now) then Reply(s, RetWait, [])
    else
      var p := Press(s, now, ShortHoldoffMs);
      Reply(p.(task := TaskStopRecWait, taskDeadline := Add32(now, BootTimeoutMs)), RetOk, [ActDvrPressShort])
  }

  /** `dvr_session_request_power_off`: no task is opened, since the DVR may go dark. */
  function PowerOffReq(s: Session, now: U32): (r: Reply)
    ensures s.lastLed == DvrOff ==> r == Reply(s, RetOk, [])
    ensures r.res == RetWait ==> r.st == s && r.actions == []
    ensures r.actions != [] ==>
      && r.actions == [ActDvrPressLong] && r.res == RetOk
      && r.st.task == TaskNone
      && r.st.guardActive && r.st.guardFree == Add32(now, PowerOffHoldoffMs)
      && !r.st.autorec && r.st.lastErr == ErrNone
  {
    if s.lastLed == DvrOff then Reply(s, RetOk, [])
    else if s.task != TaskNone then Reply(s, RetWait, [])
    else if !Allowed(s, now) then Reply(s, RetWait, [])
    else Reply(Press(s, now, PowerOffHoldoffMs).(autorec := false), RetOk, [ActDvrPressLong])
  }

  // ---------------------------------------------------------------------------
  // Properties
  // ---------------------------------------------------------------------------

  /** A request that is not already satisfied waits, and presses nothing, while a task is pending or the guard has not elapsed; otherwise it presses. */
  lemma RequestsWaitWhileBusy(s: Session, now: U32, autoRecord: bool)
    ensures s.lastLed != DvrSolid && s.lastLed != DvrSlowBlink ==>
      (PowerOnReq(s, now, autoRecord).res == RetWait <==> s.task != TaskNone || !Allowed(s, now)) &&
      (PowerOnReq(s, now, autoRecord).actions == [] <==> s.task != TaskNone || !Allowed(s, now))
    ensures s.lastLed != DvrSlowBlink ==>
      (StartRecordReq(s, now).res == RetWait <==> s.task != TaskNone || !Allowed(s, now)) &&
      (StartRecordReq(s, now).actions == [] <==> s.task != TaskNone || !Allowed(s, now))
    ensures s.lastLed != DvrSolid ==>
      (StopRecordReq(s, now).res == RetWait <==> s.task != TaskNone || !Allowed(s, now)) &&
      (StopRecordReq(s, now).actions == [] <==> s.task != TaskNone || !Allowed(s, now))
    ensures s.lastLed != DvrOff ==>
      (PowerOffReq(s, now).res == RetWait <==> s.task != TaskNone || !Allowed(s, now)) &&
      (PowerOffReq(s, now).actions == [] <==> s.task != TaskNone || !Allowed(s, now))
  {
  }

  /** Requests never answer anything but OK or WAIT, and never change the last LED pattern. */
  lemma RequestAnswers(s: Session, now: U32, autoRecord: bool)
    ensures PowerOnReq(s, now, autoRecord).res in {RetOk, RetWait}
    ensures StartRecordReq(s, now).res in {RetOk, RetWait}
    ensures StopRecordReq(s, now).res in {RetOk, RetWait}
    ensures PowerOffReq(s, now).res in {RetOk, RetWait}
    ensures PowerOnReq(s, now, autoRecord).st.lastLed == s.lastLed
    ensures StartRecordReq(s, now).st.lastLed == s.lastLed
    ensures StopRecordReq(s, now).st.lastLed == s.lastLed
    ensures PowerOffReq(s, now).st.lastLed == s.lastLed
  {
  }

  /** Any request made after a press and before its hold-off ends (with no wrap of the clock) presses nothing. */
  lemma NoSecondPressDuringHoldoff(s: Session, now: U32, autoRecord: bool, r: Reply, t: U32, auto2: bool)
    requires r == PowerOnReq(s, now, autoRecord) || r == StartRecordReq(s, now) ||
             r == StopRecordReq(s, now) || r == PowerOffReq(s, now)
    requires r.actions != []
    requires now <= t && now + PowerOnHoldoffMs < TWO32 && t < now + ShortHoldoffMs
    ensures PowerOnReq(r.st, t, auto2).actions == []
    ensures StartRecordReq(r.st, t).actions == []
    ensures StopRecordReq(r.st, t).actions == []
    ensures PowerOffReq(r.st, t).actions == []
  {
    assert r.st.guardActive && r.st.guardFree >= now + ShortHoldoffMs;
    assert !Allowed(r.st, t);
  }

  /** A boot wait with no confirming LED update fails with a boot timeout at the first poll at or after its deadline, and not before. */
  lemma BootTimeout(s: Session, now: U32, autoRecord: bool, t: U32)
    requires PowerOnReq(s, now, autoRecord).actions != []
    requires now + BootTimeoutMs < TWO32 && now <= t
    ensures var b := PowerOnReq(s, now, autoRecord).st;
      && (t < now + BootTimeoutMs ==> PollStep(b, t).st.task == TaskBootWait)
      && (t >= now + BootTimeoutMs ==> PollStep(b, t).st.lastErr == ErrDvrBootTimeout)
  {
    var b := PowerOnReq(s, now, autoRecord).st;
    assert b.taskDeadline == now + BootTimeoutMs;
    var e := Expire(b, t);
    if t >= now + BootTimeoutMs {
      assert e.task == TaskNone && e.lastErr == ErrDvrBootTimeout;
      assert e.lastLed != DvrSolid by { assert b.lastLed == s.lastLed; }
      assert PollStep(b, t).st.lastErr == e.lastErr;
    }
  }

  /** Power-on with auto-record, confirmed idle, then polled once the guard is over: exactly one short press and an auto-record wait. */
  lemma AutoRecordAfterBoot(s: Session, now: U32, t: U32)
    requires PowerOnReq(s, now, true).actions != []
    requires now + PowerOnHoldoffMs < TWO32 && now + PowerOnHoldoffMs <= t < now + BootTimeoutMs
    ensures var b := LedUpdate(PowerOnReq(s, now, true).st, DvrSolid);
      b.task == TaskNone && b.lastErr == ErrNone &&
      PollStep(b, t).actions == [ActDvrPressShort] && PollStep(b, t).st.task == TaskAutorecWait && !PollStep(b, t).st.autorec
  {
    var b := LedUpdate(PowerOnReq(s, now, true).st, DvrSolid);
    assert b.guardFree == now + PowerOnHoldoffMs;
    assert Allowed(Expire(b, t), t);
  }

  /** A session that is not busy accepts every request that is not already satisfied and presses once. */
  lemma IdleSessionPresses(s: Session, now: U32, autoRecord: bool)
    requires !Busy(s)
    ensures s.lastLed != DvrSolid && s.lastLed != DvrSlowBlink ==> PowerOnReq(s, now, autoRecord).actions == [ActDvrPressLong]
    ensures s.lastLed != DvrSlowBlink ==> StartRecordReq(s, now).actions == [ActDvrPressShort]
    ensures s.lastLed != DvrSolid ==> StopRecordReq(s, now).actions == [ActDvrPressShort]
    ensures s.lastLed != DvrOff ==> PowerOffReq(s, now).actions == [ActDvrPressLong]
  {
  }

  // ---------------------------------------------------------------------------
  // The session object
  // ---------------------------------------------------------------------------

  class SessionLayer {
    var lastLed: DvrPattern
    var task: Task
    var taskDeadline: U32
    var guardActive: bool
    var guardFree: U32
    var lastErr: ErrorCode
    var autorec: bool

    ghost function State(): Session
      reads this
    {
      Session(lastLed, task, taskDeadline, guardActive, guardFree, lastErr, autorec)
    }

    /** `dvr_session_init`. */
    constructor Init()
      ensures State() == Initial
    {
      lastLed := DvrUnknown;
      task, taskDeadline := TaskNone, 0;
      guardActive, guardFree := false, 0;
      lastErr, autorec := ErrNone, false;
    }

    /** `cmd_allowed`. */
    method CmdAllowed(now: U32) returns (b: bool)
      ensures b == Allowed(State(), now)
    {
      b := !guardActive || now >= guardFree;
    }

    /** `cmd_guard`. */
    method CmdGuard(now: U32, holdoff: nat)
      modifies this
      ensures State() == old(State()).(guardActive := true, guardFree := Add32(now, holdoff))
    {
      guardActive := true;
      guardFree := Add32(now, holdoff);
    }

    /** `start_task`. */
    method StartTask(t: Task, now: U32, timeout: nat)
      modifies this
      ensures State() == old(State()).(task := t, taskDeadline := Add32(now, timeout))
    {
      task := t;
      taskDeadline := Add32(now, timeout);
    }

    /** `end_task_ok` and `end_task_err`. */
    method EndTask(err: ErrorCode)
      modifies this
      ensures State() == TaskEnded(old(State()), err)
    {
      task := TaskNone;
      taskDeadline := 0;
      lastErr := err;
    }

    /** `dvr_session_on_led`. */
    method OnLed(p: DvrPattern)
      modifies this
      ensures State() == LedUpdate(old(State()), p)
    {
      lastLed := p;
      if p == DvrFastBlink {
        EndTask(ErrDvrCardError);
        return;
      }
      if p == DvrAbnormalBoot {
        EndTask(ErrDvrAbnormalBoot);
        return;
      }
      match task {
        case TaskBootWait =>
          if p == DvrSolid || p == DvrSlowBlink {
            EndTask(ErrNone);
          }
        case TaskAutorecWait =>
          if p == DvrSlowBlink {
            EndTask(ErrNone);
          }
        case TaskStartRecWait =>
          if p == DvrSlowBlink {
            EndTask(ErrNone);
          }
        case TaskStopRecWait =>
          if p == DvrSolid {
            EndTask(ErrNone);
          }
        case TaskNone =>
      }
    }

    /** `dvr_session_poll`. */
    method Poll(now: U32, aq: ActionQueue.Queue)
      requires aq.Valid()
      modifies this, aq
      ensures aq.Valid()
      ensures State() == PollStep(old(State()), now).st
      ensures aq.items == ActionQueue.PushAll(old(aq.items), PollStep(old(State()), now).actions)
    {
      if guardActive && now >= guardFree {
        guardActive := false;
      }
      if task != TaskNone && now >= taskDeadline {
        if task == TaskBootWait {
          EndTask(ErrDvrBootTimeout);
        } else {
          EndTask(ErrUnexpectedLedPattern);
        }
      }
      if autorec && task == TaskNone {
        if lastLed == DvrSolid {
          var ok := CmdAllowed(now);
          if ok {
            var _ := aq.Push(ActDvrPressShort);
            CmdGuard(now, ShortHoldoffMs);
            StartTask(TaskAutorecWait, now, BootTimeoutMs);
            autorec := false;
          }
        } else if lastLed == DvrSlowBlink {
          autorec := false;
        }
      }
    }

    /** `dvr_session_request_power_on`. */
    method RequestPowerOn(now: U32, autoRecord: bool, aq: ActionQueue.Queue) returns (res: ResultCode)
      requires aq.Valid()
      modifies this, aq
      ensures aq.Valid()
      ensures var r := PowerOnReq(old(State()), now, autoRecord);
        State() == r.st && res == r.res && aq.items == ActionQueue.PushAll(old(aq.items), r.actions)
    {
      if lastLed == DvrSolid || lastLed == DvrSlowBlink {
        if autoRecord && lastLed == DvrSolid {
          autorec := true;
        }
        return RetOk;
      }
      if task != TaskNone {
        return RetWait;
      }
      var ok := CmdAllowed(now);
      if !ok {
        return RetWait;
      }
      var _ := aq.Push(ActDvrPressLong);
      CmdGuard(now, PowerOnHoldoffMs);
      StartTask(TaskBootWait, now, BootTimeoutMs);
      autorec := autoRecord;
      lastErr := ErrNone;
      res := RetOk;
    }

    /** `dvr_session_request_start_record`. */
    method RequestStartRecord(now: U32, aq: ActionQueue.Queue) returns (res: ResultCode)
      requires aq.Valid()
      modifies this, aq
      ensures aq.Valid()
      ensures var r := StartRecordReq(old(State()), now);
        State() == r.st && res == r.res && aq.items == ActionQueue.PushAll(old(aq.items), r.actions)
    {
      if lastLed == DvrSlowBlink {
        return RetOk;
      }
      if task != TaskNone {
        return RetWait;
      }
      var ok := CmdAllowed(now);
      if !ok {
        return RetWait;
      }
      var _ := aq.Push(ActDvrPressShort);
      CmdGuard(now, ShortHoldoffMs);
      StartTask(TaskStartRecWait, now, BootTimeoutMs);
      lastErr := ErrNone;
      res := RetOk;
    }

    /** `dvr_session_request_stop_record`. */
    method RequestStopRecord(now: U32, aq: ActionQueue.Queue) returns (res: ResultCode)
      requires aq.Valid()
      modifies this, aq
      ensures aq.Valid()
      ensures var r := StopRecordReq(old(State()), now);
        State() == r.st && res == r.res && aq.items == ActionQueue.PushAll(old(aq.items), r.actions)
    {
      if lastLed == DvrSolid {
        return RetOk;
      }
      if task != TaskNone {
        return RetWait;
      }
      var ok := CmdAllowed(now);
      if !ok {
        return RetWait;
      }
      var _ := aq.Push(ActDvrPressShort);
      CmdGuard(now, ShortHoldoffMs);
      StartTask(TaskStopRecWait, now, BootTimeoutMs);
      lastErr := ErrNone;
      res := RetOk;
    }

    /** `dvr_session_request_power_off`. */
    method RequestPowerOff(now: U32, aq: ActionQueue.Queue) returns (res: ResultCode)
      requires aq.Valid()
      modifies this, aq
      ensures aq.Valid()
      ensures var r := PowerOffReq(old(State()), now);
        State() == r.st && res == r.res && aq.items == ActionQueue.PushAll(old(aq.items), r.actions)
    {
      if lastLed == DvrOff {
        return RetOk;
      }
      if task != TaskNone {
        return RetWait;
      }
      var ok := CmdAllowed(now);
      if !ok {
        return RetWait;
      }
      var _ := aq.Push(ActDvrPressLong);
      CmdGuard(now, PowerOffHoldoffMs);
      autorec := false;
      lastErr := ErrNone;
      res := RetOk;
    }

    /** `dvr_session_is_busy`. */
    method IsBusy() returns (b: bool)
      ensures b == Busy(State())
    {
      b := task != TaskNone || guardActive;
    }

    /** `dvr_session_last_led`, `dvr_session_is_recording`, `dvr_session_is_idle`, `dvr_session_is_off`. */
    method LedView() returns (p: DvrPattern, recording: bool, idle: bool, off: bool)
      ensures p == lastLed && (recording <==> p == DvrSlowBlink) && (idle <==> p == DvrSolid) && (off <==> p == DvrOff)
    {
      p := lastLed;
      recording, idle, off := p == DvrSlowBlink, p == DvrSolid, p == DvrOff;
    }

    /** `dvr_session_last_error`. */
    method LastError() returns (e: ErrorCode)
      ensures e == lastErr
    {
      e := lastErr;
    }
  }
}
