// The status interpreter of src/drv_dvr_status.cpp. It drains the event queue,
// absorbs EV_DVR_LED_PATTERN_CHANGED events (reacting only to a pattern that
// differs from the last one seen), re-queues every other event in the order it
// was popped, and turns pattern changes into semantic DVR events: record
// started/stopped, powered off / on-idle, and a card error when a fast blink
// persists for BootTimeoutMs.
module DrvDvrStatus {
  import opened Vocabulary
  import opened Clock
  import Fifo
  import EventQueue

  /** Size of the local stash that holds the events to re-queue. */
  const StashMax: nat := 16

  /** The interpreter's variables (src/drv_dvr_status.cpp:38-46). */
  datatype StatusState = StatusState(
    lastPat: DvrPattern,
    recording: bool,
    armed: bool,
    deadline: U32,
    sdErrorEmitted: bool)

  /** `drv_dvr_status_init`. */
  const Initial: StatusState := StatusState(DvrUnknown, false, false, 0, false)

  /** A new state and the events pushed on the way to it, oldest first. */
  datatype Reaction = Reaction(st: StatusState, events: seq<Event>)

  // ---------------------------------------------------------------------------
  // Event sequences
  // ---------------------------------------------------------------------------

  predicate IsLed(e: Event) {
    e.EvDvrLedPatternChanged?
  }

  predicate NoLed(es: seq<Event>) {
    forall i :: 0 <= i < |es| ==> !IsLed(es[i])
  }

  /** The patterns carried by the LED events of `es`, in order. */
  function LedPatterns(es: seq<Event>): (ps: seq<DvrPattern>)
    ensures |ps| <= |es|
    decreases |es|
  {
    if es == [] then []
    else
      var e := es[|es| - 1];
      LedPatterns(es[..|es| - 1]) + (if IsLed(e) then [e.pattern] else [])
  }

  /** The events of `es` other than LED events, in order. */
  function NonLed(es: seq<Event>): (rs: seq<Event>)
    ensures |rs| <= |es|
    decreases |es|
  {
    if es == [] then []
    else
      var e := es[|es| - 1];
      NonLed(es[..|es| - 1]) + (if IsLed(e) then [] else [e])
  }

  lemma {:induction false} SplitAppend(a: seq<Event>, b: seq<Event>)
    ensures LedPatterns(a + b) == LedPatterns(a) + LedPatterns(b)
    ensures NonLed(a + b) == NonLed(a) + NonLed(b)
    decreases |b|
  {
    if b == [] {
      assert a + b == a;
    } else {
      assert (a + b)[..|a + b| - 1] == a + b[..|b| - 1];
      SplitAppend(a, b[..|b| - 1]);
    }
  }

  /** Appending one event to a sequence adds it to exactly one of the two projections. */
  lemma SplitLast(a: seq<Event>, e: Event)
    ensures IsLed(e) ==> LedPatterns(a + [e]) == LedPatterns(a) + [e.pattern] && NonLed(a + [e]) == NonLed(a)
    ensures !IsLed(e) ==> LedPatterns(a + [e]) == LedPatterns(a) && NonLed(a + [e]) == NonLed(a) + [e]
  {
    assert (a + [e])[..|a|] == a;
    assert LedPatterns(a) + [] == LedPatterns(a);
    assert NonLed(a) + [] == NonLed(a);
  }

  /** Filtering out LED events leaves no LED event. */
  lemma {:induction false} NonLedIsClean(es: seq<Event>)
    ensures NoLed(NonLed(es))
    decreases |es|
  {
    if es != [] {
      NonLedIsClean(es[..|es| - 1]);
    }
  }

  /** A sequence without LED events is its own filtering and carries no pattern. */
  lemma {:induction false} CleanIsFixed(es: seq<Event>)
    requires NoLed(es)
    ensures NonLed(es) == es && LedPatterns(es) == []
    decreases |es|
  {
    if es != [] {
      CleanIsFixed(es[..|es| - 1]);
    }
  }

  // ---------------------------------------------------------------------------
  // Reactions to one pattern
  // ---------------------------------------------------------------------------

  /** `disarm_fast_persist`. */
  function Disarm(st: StatusState): StatusState {
    st.(armed := false, deadline := 0, sdErrorEmitted := false)
  }

  /** `arm_fast_persist`: a new fast-blink episode with its deadline BootTimeoutMs ahead. */
  function Arm(st: StatusState, now: U32): StatusState {
    st.(armed := true, deadline := Add32(now, BootTimeoutMs), sdErrorEmitted := false)
  }

  /** `on_pattern_changed`: recording latch, power hints, then the fault timer. */
  function PatternChange(st: StatusState, now: U32, pat: DvrPattern): (r: Reaction)
    ensures r.st.lastPat == st.lastPat
    // Recording latch: set exactly while the DVR slow-blinks.
    ensures r.st.recording <==> pat == DvrSlowBlink
    ensures EvDvrRecordStarted in r.events <==> pat == DvrSlowBlink && !st.recording
    ensures EvDvrRecordStopped in r.events <==> pat != DvrSlowBlink && st.recording
    // Power hints.
    ensures EvDvrPoweredOff in r.events <==> pat == DvrOff
    ensures EvDvrPoweredOnIdle in r.events <==> pat == DvrSolid
    // Fault timer: armed on entering fast blink unless already armed, disarmed otherwise.
    ensures pat == DvrFastBlink && !st.armed ==>
      r.st.armed && r.st.deadline == Add32(now, BootTimeoutMs) && !r.st.sdErrorEmitted
    ensures pat == DvrFastBlink && st.armed ==>
      r.st.armed && r.st.deadline == st.deadline && r.st.sdErrorEmitted == st.sdErrorEmitted
    ensures pat != DvrFastBlink ==> !r.st.armed && !r.st.sdErrorEmitted
    // At most a stop or start followed by a power hint, and never an LED event.
    ensures |r.events| <= 2 && NoLed(r.events)
    ensures pat == DvrSlowBlink && !st.recording ==> r.events[0] == EvDvrRecordStarted
    ensures pat != DvrSlowBlink && st.recording ==> r.events[0] == EvDvrRecordStopped
    ensures pat == DvrOff ==> r.events[|r.events| - 1] == EvDvrPoweredOff
    ensures pat == DvrSolid ==> r.events[|r.events| - 1] == EvDvrPoweredOnIdle
  {
    var s2 := st.(recording := pat == DvrSlowBlink);
    Reaction(TimerStep(s2, now, pat), LatchEvents(st.recording, pat) + HintEvents(pat))
  }

  /** The recording latch's event: a start on entering slow blink, a stop on leaving it. */
  function LatchEvents(recording: bool, pat: DvrPattern): seq<Event> {
    if pat == DvrSlowBlink then (if !recording then [EvDvrRecordStarted] else [])
    else (if recording then [EvDvrRecordStopped] else [])
  }

  /** The power hint for a pattern, if any. */
  function HintEvents(pat: DvrPattern): seq<Event> {
    if pat == DvrOff then [EvDvrPoweredOff]
    else if pat == DvrSolid then [EvDvrPoweredOnIdle]
    else []
  }

  /** The power hints' disarm, then the fault-timer rule. */
  function TimerStep(st: StatusState, now: U32, pat: DvrPattern): StatusState {
    var s1 := if pat == DvrOff || pat == DvrSolid then Disarm(st) else st;
    if pat == DvrFastBlink then (if !s1.armed then Arm(s1, now) else s1) else Disarm(s1)
  }

  /** One popped LED event: a repeat of the last pattern is absorbed. */
  function LedEvent(st: StatusState, now: U32, pat: DvrPattern): (r: Reaction)
    ensures r.st.lastPat == pat
    ensures pat == st.lastPat ==> r == Reaction(st, [])
    ensures pat != st.lastPat ==>
      r.events == PatternChange(st, now, pat).events && r.st == PatternChange(st, now, pat).st.(lastPat := pat)
    ensures NoLed(r.events)
  {
    if pat == st.lastPat then Reaction(st, [])
    else
      var c := PatternChange(st.(lastPat := pat), now, pat);
      Reaction(c.st, c.events)
  }

  /** The LED events of one drain, applied in order; the events are those emitted along the way. */
  function Interpret(st: StatusState, now: U32, pats: seq<DvrPattern>): (r: Reaction)
    ensures NoLed(r.events)
    decreases |pats|
  {
    if pats == [] then Reaction(st, [])
    else
      var r := Interpret(st, now, pats[..|pats| - 1]);
      var h := LedEvent(r.st, now, pats[|pats| - 1]);
      Reaction(h.st, r.events + h.events)
  }

  lemma InterpretLast(st: StatusState, now: U32, pats: seq<DvrPattern>, p: DvrPattern)
    ensures Interpret(st, now, pats + [p]) ==
      var r := Interpret(st, now, pats);
      var h := LedEvent(r.st, now, p);
      Reaction(h.st, r.events + h.events)
  {
    assert (pats + [p])[..|pats|] == pats;
  }

  /** Whether the persistent fast blink has outlasted its deadline and not yet been reported. */
  predicate CardErrorDue(st: StatusState, now: U32) {
    st.armed && !st.sdErrorEmitted && TimeReached(now, st.deadline)
  }

  /** The one-shot check at the end of `drv_dvr_status_poll`. */
  function CardCheck(st: StatusState, now: U32): (r: Reaction)
    ensures CardErrorDue(st, now) ==>
      r.events == [EvDvrError(ErrDvrCardError, st.lastPat)] && r.st == st.(sdErrorEmitted := true)
    ensures !CardErrorDue(st, now) ==> r == Reaction(st, [])
  {
    if CardErrorDue(st, now) then Reaction(st.(sdErrorEmitted := true), [EvDvrError(ErrDvrCardError, st.lastPat)])
    else Reaction(st, [])
  }

  // ---------------------------------------------------------------------------
  // Properties over several polls
  // ---------------------------------------------------------------------------

  /** Fast-blink events keep an armed timer's deadline and one-shot latch. */
  lemma {:induction false} FastKeepsEpisode(st: StatusState, now: U32, pats: seq<DvrPattern>)
    requires st.armed
    requires forall i :: 0 <= i < |pats| ==> pats[i] == DvrFastBlink
    ensures var r := Interpret(st, now, pats).st;
      r.armed && r.deadline == st.deadline && r.sdErrorEmitted == st.sdErrorEmitted
    decreases |pats|
  {
    if pats != [] {
      FastKeepsEpisode(st, now, pats[..|pats| - 1]);
    }
  }

  /**
   * The card error is reported at most once per fast-blink episode: after the
   * check has reported it, further fast-blink events and later checks report
   * nothing until some other pattern disarms the timer.
   */
  lemma CardErrorOnce(st: StatusState, t1: U32, pats: seq<DvrPattern>, t2: U32)
    requires CardErrorDue(st, t1)
    requires forall i :: 0 <= i < |pats| ==> pats[i] == DvrFastBlink
    ensures CardCheck(st, t1).events != []
    ensures CardCheck(Interpret(CardCheck(st, t1).st, t2, pats).st, t2).events == []
  {
    FastKeepsEpisode(CardCheck(st, t1).st, t2, pats);
  }

  /** A fast blink that starts an episode is reported no earlier than BootTimeoutMs later. */
  lemma CardErrorNotEarly(st: StatusState, now: U32, early: nat)
    requires st.lastPat != DvrFastBlink && !st.armed
    requires early < BootTimeoutMs
    ensures !CardErrorDue(LedEvent(st, now, DvrFastBlink).st, Add32(now, early))
  {
    NotReachedBeforeDelay(now, BootTimeoutMs, early);
  }

  /** A poll that drained without loss leaves the re-queued events and no LED event. */
  lemma DrainedQueueClean(popped: seq<Event>)
    ensures NoLed(EventQueue.PushAll([], NonLed(popped)))
    ensures EventQueue.PushAll([], NonLed(popped)) == NonLed(popped)[..Fifo.Accepted(0, |NonLed(popped)|, EventQueue.Capacity)]
  {
    NonLedIsClean(popped);
    Fifo.PushAllKeepsOldest([], NonLed(popped), EventQueue.Capacity);
  }

  /** When nothing was dropped, a lossless drain re-queues the old non-LED events, then the new semantic events. */
  lemma DrainOrder(old_: seq<Event>, emitted: seq<Event>)
    requires NoLed(emitted)
    ensures NonLed(old_ + emitted) == NonLed(old_) + emitted
  {
    SplitAppend(old_, emitted);
    CleanIsFixed(emitted);
  }

  // ---------------------------------------------------------------------------
  // The interpreter
  // ---------------------------------------------------------------------------

  class Interpreter {
    var lastPat: DvrPattern
    var recording: bool
    var armed: bool
    var deadline: U32
    var sdErrorEmitted: bool

    ghost function State(): StatusState
      reads this
    {
      StatusState(lastPat, recording, armed, deadline, sdErrorEmitted)
    }

    /** `drv_dvr_status_init`. */
    constructor Init()
      ensures State() == Initial
    {
      lastPat := DvrUnknown;
      recording := false;
      armed, deadline, sdErrorEmitted := false, 0, false;
    }

    /** `arm_fast_persist`. */
    method ArmFastPersist(now: U32)
      modifies this
      ensures State() == Arm(old(State()), now)
    {
      armed := true;
      deadline := Add32(now, BootTimeoutMs);
      sdErrorEmitted := false;
    }

    /** `disarm_fast_persist`. */
    method DisarmFastPersist()
      modifies this
      ensures State() == Disarm(old(State()))
    {
      armed := false;
      deadline := 0;
      sdErrorEmitted := false;
    }

    /** `on_pattern_changed`: update the latch and the timer, and push the semantic events. */
    method OnPatternChanged(now: U32, pat: DvrPattern, q: EventQueue.Queue)
      requires q.Valid()
      modifies this, q, q.buf
      ensures q.Valid()
      ensures State() == PatternChange(old(State()), now, pat).st
      ensures q.Contents() == EventQueue.PushAll(old(q.Contents()), PatternChange(old(State()), now, pat).events)
    {
      ghost var q0 := q.Contents();
      ghost var s0 := State();
      if pat == DvrSlowBlink {
        if !recording {
          recording := true;
          var _ := q.Push(EvDvrRecordStarted);
        }
      } else {
        if recording {
          recording := false;
          var _ := q.Push(EvDvrRecordStopped);
        }
      }
      assert q.Contents() == EventQueue.PushAll(q0, LatchEvents(s0.recording, pat));
      ghost var s1 := State();
      assert s1 == s0.(recording := pat == DvrSlowBlink);
      ghost var q1 := q.Contents();
      if pat == DvrOff {
        var _ := q.Push(EvDvrPoweredOff);
        DisarmFastPersist();
      } else if pat == DvrSolid {
        var _ := q.Push(EvDvrPoweredOnIdle);
        DisarmFastPersist();
      }
      assert q.Contents() == EventQueue.PushAll(q1, HintEvents(pat));
      Fifo.PushAllAppend(q0, LatchEvents(s0.recording, pat), HintEvents(pat), EventQueue.Capacity);
      if pat == DvrFastBlink {
        if !armed {
          ArmFastPersist(now);
        }
      } else if pat == DvrOff || pat == DvrSolid || pat == DvrUnknown {
        DisarmFastPersist();
      } else {
        DisarmFastPersist();
      }
    }

    /** One popped LED event (src/drv_dvr_status.cpp:164-173): react only to a new pattern. */
    method HandleLedEvent(now: U32, pat: DvrPattern, q: EventQueue.Queue)
      requires q.Valid()
      modifies this, q, q.buf
      ensures q.Valid()
      ensures State() == LedEvent(old(State()), now, pat).st
      ensures q.Contents() == EventQueue.PushAll(old(q.Contents()), LedEvent(old(State()), now, pat).events)
    {
      if pat != lastPat {
        lastPat := pat;
        OnPatternChanged(now, pat, q);
      } else {
        assert [] == LedEvent(old(State()), now, pat).events;
      }
    }

    /**
     * `poll_led_pattern_events`: drain the queue, then re-queue the stashed
     * events. `popped` is every event taken from the queue, `accepted` every
     * semantic event the queue accepted during the drain, `rest` what was left
     * queued when the drain stopped, and `lost` says whether it stopped on a
     * full stash, losing the event it had just popped.
     */
    method PollLedPatternEvents(now: U32, q: EventQueue.Queue)
      returns (ghost popped: seq<Event>, ghost accepted: seq<Event>, ghost rest: seq<Event>, ghost lost: bool)
      requires q.Valid()
      modifies this, q, q.buf
      ensures q.Valid()
      ensures old(q.Contents()) + accepted == popped + rest
      ensures State() == Interpret(old(State()), now, LedPatterns(popped)).st
      ensures |old(q.Contents())| + |Interpret(old(State()), now, LedPatterns(popped)).events| <= EventQueue.Capacity ==>
        accepted == Interpret(old(State()), now, LedPatterns(popped)).events
      ensures !lost ==> rest == [] && q.Contents() == EventQueue.PushAll([], NonLed(popped))
      ensures lost ==> |NonLed(popped)| == StashMax + 1 && q.Contents() == EventQueue.PushAll(rest, NonLed(popped)[..StashMax])
    {
      var stash, n;
      ghost var emitted;
      stash, n, popped, accepted, emitted, lost := DrainQueue(now, q);
      rest := q.Contents();
      Requeue(stash, n, q);
    }

    /**
     * The while-pop loop of `poll_led_pattern_events` (src/drv_dvr_status.cpp:157-180):
     * LED events are interpreted, the others stashed until the stash is full.
     */
    method DrainQueue(now: U32, q: EventQueue.Queue)
      returns (stash: array<Event>, n: nat, ghost popped: seq<Event>, ghost accepted: seq<Event>,
               ghost emitted: seq<Event>, ghost lost: bool)
      requires q.Valid()
      modifies this, q, q.buf
      ensures q.Valid() && fresh(stash) && stash.Length == StashMax && n <= StashMax
      ensures old(q.Contents()) + accepted == popped + q.Contents()
      ensures Interpret(old(State()), now, LedPatterns(popped)) == Reaction(State(), emitted)
      ensures accepted == emitted || |old(q.Contents())| + |emitted| > EventQueue.Capacity
      ensures !lost ==> q.Contents() == [] && stash[..n] == NonLed(popped)
      ensures lost ==> |NonLed(popped)| == StashMax + 1 && n == StashMax && stash[..n] == NonLed(popped)[..StashMax]
    {
      ghost var q0 := q.Contents();
      ghost var st0 := State();
      stash := new Event[StashMax];
      n := 0;
      emitted := [];
      popped, accepted, lost := [], [], false;
      while true
        invariant q.Valid() && stash.Length == StashMax && stash != q.buf
        invariant n <= StashMax && stash[..n] == NonLed(popped)
        invariant q0 + accepted == popped + q.Contents()
        invariant Interpret(st0, now, LedPatterns(popped)) == Reaction(State(), emitted)
        invariant accepted == emitted || |q0| + |emitted| > EventQueue.Capacity
        decreases StashMax - n, |LedPatterns(q.Contents())|
      {
        ghost var before := q.Contents();
        ghost var st := State();
        var ok, ev, full;
        ghost var es, k;
        ok, ev, n, full, es, k := DrainOne(now, q, stash, n);
        if !ok {
          break;
        }
        if IsLed(ev) {
          LedTurn(st0, now, q0, popped, accepted, emitted, st, before, ev, State(), es, k, q.Contents());
          popped := popped + [ev];
          accepted := accepted + es[..k];
          emitted := emitted + es;
        } else {
          OtherTurn(q0, accepted, popped, before, ev);
          popped := popped + [ev];
          if full {
            lost := true;
            break;
          }
        }
      }
    }

    /**
     * One turn of the drain loop: pop the oldest event; interpret an LED event,
     * stash any other one unless the stash is `full`.
     */
    method DrainOne(now: U32, q: EventQueue.Queue, stash: array<Event>, n: nat)
      returns (ok: bool, ev: Event, n': nat, full: bool, ghost es: seq<Event>, ghost k: nat)
      requires q.Valid() && stash.Length == StashMax && stash != q.buf && n <= StashMax
      modifies this, q, q.buf, stash
      ensures q.Valid() && n' <= StashMax
      ensures ok <==> old(q.Contents()) != []
      ensures !ok ==> q.Contents() == old(q.Contents()) && State() == old(State()) && n' == n && stash[..n'] == old(stash[..n])
      ensures ok ==> ev == old(q.Contents())[0]
      ensures ok && IsLed(ev) ==>
        && LedEvent(old(State()), now, ev.pattern) == Reaction(State(), es)
        && k == Fifo.Accepted(|old(q.Contents())| - 1, |es|, EventQueue.Capacity)
        && q.Contents() == EventQueue.PushAll(old(q.Contents())[1..], es)
        && n' == n && stash[..n'] == old(stash[..n]) && !full
      ensures ok && !IsLed(ev) ==>
        && State() == old(State()) && q.Contents() == old(q.Contents())[1..]
        && (full <==> n == StashMax)
        && (!full ==> n' == n + 1 && stash[..n'] == old(stash[..n]) + [ev])
        && (full ==> n' == n && stash[..n'] == old(stash[..n]))
    {
      n', full, es, k := n, false, [], 0;
      ok, ev := q.Pop();
      if !ok {
        return;
      }
      if IsLed(ev) {
        es := LedEvent(State(), now, ev.pattern).events;
        k := Fifo.Accepted(|q.Contents()|, |es|, EventQueue.Capacity);
        HandleLedEvent(now, ev.pattern, q);
      } else if n < StashMax {
        stash[n] := ev;
        n' := n + 1;
      } else {
        full := true;
      }
    }

    /** The re-push loop that ends `poll_led_pattern_events` (src/drv_dvr_status.cpp:182-183). */
    method Requeue(stash: array<Event>, n: nat, q: EventQueue.Queue)
      requires q.Valid() && n <= stash.Length && stash != q.buf
      modifies q, q.buf
      ensures q.Valid()
      ensures q.Contents() == EventQueue.PushAll(old(q.Contents()), stash[..n])
    {
      ghost var rest := q.Contents();
      var i := 0;
      while i < n
        invariant 0 <= i <= n && q.Valid()
        invariant q.Contents() == EventQueue.PushAll(rest, stash[..i])
      {
        Fifo.PushAllAppend(rest, stash[..i], [stash[i]], EventQueue.Capacity);
        assert stash[..i] + [stash[i]] == stash[..i + 1];
        var _ := q.Push(stash[i]);
        i := i + 1;
      }
    }

    /**
     * `drv_dvr_status_poll`: drain the LED events, then report a fast blink that
     * has persisted past its deadline, once. `popped`, `accepted`, `rest` and
     * `lost` are as in PollLedPatternEvents, and `drained` is what the queue
     * holds once the stashed events are back, before the card check pushes.
     */
    method Poll(now: U32, q: EventQueue.Queue)
      returns (ghost popped: seq<Event>, ghost accepted: seq<Event>, ghost rest: seq<Event>,
               ghost lost: bool, ghost drained: seq<Event>)
      requires q.Valid()
      modifies this, q, q.buf
      ensures q.Valid()
      ensures old(q.Contents()) + accepted == popped + rest
      ensures |old(q.Contents())| + |Interpret(old(State()), now, LedPatterns(popped)).events| <= EventQueue.Capacity ==>
        accepted == Interpret(old(State()), now, LedPatterns(popped)).events
      ensures !lost ==> rest == [] && drained == EventQueue.PushAll([], NonLed(popped))
      ensures lost ==> |NonLed(popped)| == StashMax + 1 && drained == EventQueue.PushAll(rest, NonLed(popped)[..StashMax])
      ensures State() == CardCheck(Interpret(old(State()), now, LedPatterns(popped)).st, now).st
      ensures q.Contents() == EventQueue.PushAll(drained, CardCheck(Interpret(old(State()), now, LedPatterns(popped)).st, now).events)
    {
      popped, accepted, rest, lost := PollLedPatternEvents(now, q);
      drained := q.Contents();
      if armed && !sdErrorEmitted && TimeReached(now, deadline) {
        var _ := q.Push(EvDvrError(ErrDvrCardError, lastPat));
        sdErrorEmitted := true;
      }
    }

    /** `drv_dvr_status_last_led_pattern`. */
    method LastLedPattern() returns (p: DvrPattern)
      ensures p == lastPat
    {
      p := lastPat;
    }

    /** `drv_dvr_status_recording_assumed`. */
    method RecordingAssumed() returns (r: bool)
      ensures r == recording
    {
      r := recording;
    }
  }

  /**
   * The drain loop's invariant survives an LED event `ev` taken from the queue
   * contents `before` and answered with the reaction `es` from state `st`.
   */
  lemma LedTurn(st0: StatusState, now: U32, q0: seq<Event>, popped: seq<Event>, accepted: seq<Event>,
                emitted: seq<Event>, st: StatusState, before: seq<Event>, ev: Event, st': StatusState,
                es: seq<Event>, k: nat, after: seq<Event>)
    requires IsLed(ev) && before != [] && ev == before[0]
    requires q0 + accepted == popped + before
    requires Interpret(st0, now, LedPatterns(popped)) == Reaction(st, emitted)
    requires accepted == emitted || |q0| + |emitted| > EventQueue.Capacity
    requires LedEvent(st, now, ev.pattern) == Reaction(st', es)
    requires k == Fifo.Accepted(|before| - 1, |es|, EventQueue.Capacity)
    requires after == EventQueue.PushAll(before[1..], es)
    ensures q0 + (accepted + es[..k]) == (popped + [ev]) + after
    ensures Interpret(st0, now, LedPatterns(popped + [ev])) == Reaction(st', emitted + es)
    ensures accepted + es[..k] == emitted + es || |q0| + |emitted + es| > EventQueue.Capacity
    ensures |LedPatterns(after)| < |LedPatterns(before)|
    ensures NonLed(popped + [ev]) == NonLed(popped)
  {
    assert before == [ev] + before[1..];
    SplitLast(popped, ev);
    InterpretLast(st0, now, LedPatterns(popped), ev.pattern);
    LedDrainStep(q0, popped, accepted, emitted, before, ev, before[1..], es, k);
  }

  /** ... and survives any other event, which moves from the queue to the popped events. */
  lemma OtherTurn(q0: seq<Event>, accepted: seq<Event>, popped: seq<Event>, before: seq<Event>, ev: Event)
    requires !IsLed(ev) && before != [] && ev == before[0]
    requires q0 + accepted == popped + before
    ensures q0 + accepted == (popped + [ev]) + before[1..]
    ensures LedPatterns(popped + [ev]) == LedPatterns(popped)
    ensures NonLed(popped + [ev]) == NonLed(popped) + [ev]
  {
    assert before == [ev] + before[1..];
    SplitLast(popped, ev);
    ConsumeFront(q0 + accepted, popped, ev, before[1..]);
  }

  /**
   * The drain's queue bookkeeping after an LED event `ev` popped from `before`,
   * leaving `mid`, to which the reaction then pushed the first `k` of its events
   * `es`: the accounting, the capacity argument and the termination measure
   * all carry over.
   */
  lemma LedDrainStep(q0: seq<Event>, popped: seq<Event>, accepted: seq<Event>, emitted: seq<Event>,
                     before: seq<Event>, ev: Event, mid: seq<Event>, es: seq<Event>, k: nat)
    requires IsLed(ev) && before == [ev] + mid && NoLed(es)
    requires q0 + accepted == popped + before
    requires accepted == emitted || |q0| + |emitted| > EventQueue.Capacity
    requires k == Fifo.Accepted(|mid|, |es|, EventQueue.Capacity)
    ensures q0 + (accepted + es[..k]) == (popped + [ev]) + EventQueue.PushAll(mid, es)
    ensures accepted + es[..k] == emitted + es || |q0| + |emitted + es| > EventQueue.Capacity
    ensures |LedPatterns(EventQueue.PushAll(mid, es))| < |LedPatterns(before)|
  {
    Fifo.PushAllKeepsOldest(mid, es, EventQueue.Capacity);
    var x := es[..k];
    assert EventQueue.PushAll(mid, es) == mid + x;
    assert popped + before == (popped + [ev]) + mid;
    assert q0 + (accepted + x) == (q0 + accepted) + x;
    assert ((popped + [ev]) + mid) + x == (popped + [ev]) + (mid + x);
    LedCountDrops(ev, mid, x);
    AcceptedAll(q0, accepted, popped, mid, emitted, es, k);
  }

  /** Moving the front event of the queue to the end of what has been popped keeps the total. */
  lemma ConsumeFront(all: seq<Event>, popped: seq<Event>, ev: Event, rest: seq<Event>)
    requires all == popped + ([ev] + rest)
    ensures all == (popped + [ev]) + rest
  {
  }

  /** Popping an LED event and pushing events without one lowers the number of queued LED events. */
  lemma LedCountDrops(ev: Event, mid: seq<Event>, x: seq<Event>)
    requires IsLed(ev) && NoLed(x)
    ensures |LedPatterns(mid + x)| < |LedPatterns([ev] + mid)|
  {
    SplitAppend([ev], mid);
    SplitAppend(mid, x);
    CleanIsFixed(x);
    assert LedPatterns([ev]) == [ev.pattern] by {
      assert [ev][..0] == [];
    }
  }

  /** A drain step keeps every emitted event unless the queue was too full for all of them. */
  lemma AcceptedAll(q0: seq<Event>, accepted: seq<Event>, popped: seq<Event>, mid: seq<Event>,
                    emitted: seq<Event>, es: seq<Event>, k: nat)
    requires |q0| + |accepted| == |popped| + 1 + |mid|
    requires accepted == emitted || |q0| + |emitted| > EventQueue.Capacity
    requires k == Fifo.Accepted(|mid|, |es|, EventQueue.Capacity)
    requires k <= |es|
    ensures accepted + es[..k] == emitted + es || |q0| + |emitted + es| > EventQueue.Capacity
  {
    if accepted == emitted && |q0| + |emitted + es| <= EventQueue.Capacity {
      assert k == |es|;
      assert es[..k] == es;
    }
  }
}
