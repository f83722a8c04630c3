// The feedback executor of src/executor.cpp. When idle it takes one action from
// the action queue per poll and starts the LED engine (ACT_LED_PATTERN) or the
// beep engine (ACT_BEEP); any other action is consumed and ignored. A running
// engine is stepped once per poll, never before its deadline, and the executor
// takes no further action until the engine returns to idle. The two output pins
// are recorded as the last level written to them.
module Executor {
  import opened Vocabulary
  import opened Clock
  import ActionQueue

  /** `exec_state_t`. */
  datatype Mode = ExIdle | ExLedRunning | ExBeepRunning

  /** The executor's variables (src/executor.cpp:17-34) and the two output levels. */
  datatype ExecState = ExecState(
    mode: Mode,
    nextMs: U32,
    ledPat: LedPattern,
    ledLevel: bool,
    beepPat: BeepPattern,
    beepRemaining: U8,
    beepPhase: U8,
    ledOut: bool,
    buzzOut: bool)

  /** `executor_init`, with the statics at their initial values. */
  const Initial: ExecState := ExecState(ExIdle, 0, LedNone, false, BeepNone, 0, 0, false, false)

  /** The beep engine's fixed timings. */
  const BeepGapMs: nat := 80
  const SeqGapMs: nat := 180

  function BeepOnMs(p: BeepPattern): nat {
    if p == BeepErrorFast then 50 else 80
  }

  /** The blinking LED patterns and their on and off times. */
  predicate IsBlink(p: LedPattern) {
    p == LedSlowBlink || p == LedFastBlink || p == LedLockoutPattern || p == LedErrorPattern
  }

  function BlinkOnMs(p: LedPattern): nat {
    if p == LedFastBlink then 100 else 300
  }

  function BlinkOffMs(p: LedPattern): nat {
    if p == LedFastBlink then 150 else 700
  }

  /** The number of beeps of each pattern (src/executor.cpp:85-93). */
  function BeepCount(p: BeepPattern): (n: U8)
    ensures n <= 4
    ensures n == 0 <==> p == BeepNone
  {
    match p
    case BeepSingle => 1
    case BeepDouble => 2
    case BeepTriple => 3
    case BeepErrorFast => 4
    case BeepLowBat => 2
    case BeepNone => 0
  }

  /** `start_led_pattern`: run the pattern from `now`. */
  function LedStart(st: ExecState, now: U32, p: LedPattern): (r: ExecState)
    ensures r.mode == ExLedRunning && r.ledPat == p && !r.ledLevel && r.nextMs == now
    ensures r.ledOut == st.ledOut && r.buzzOut == st.buzzOut
  {
    st.(ledPat := p, ledLevel := false, nextMs := now, mode := ExLedRunning)
  }

  /** `start_beep`: a sequence of BeepCount(p) beeps from `now`. */
  function BeepStart(st: ExecState, now: U32, p: BeepPattern): (r: ExecState)
    ensures r.mode == ExBeepRunning && r.beepPat == p && r.beepPhase == 0 && r.nextMs == now
    ensures r.beepRemaining == BeepCount(p)
    ensures r.ledOut == st.ledOut && r.buzzOut == st.buzzOut
  {
    st.(beepPat := p, beepPhase := 0, beepRemaining := BeepCount(p), nextMs := now, mode := ExBeepRunning)
  }

  /** `led_step`. */
  function LedTick(st: ExecState, now: U32): (r: ExecState)
    // Nothing happens before the deadline.
    ensures now < st.nextMs ==> r == st
    // Off, solid and unknown patterns set the output once and go idle.
    ensures now >= st.nextMs && !IsBlink(st.ledPat) ==>
      r == st.(mode := ExIdle, ledOut := st.ledPat == LedSolid)
    // Blink patterns toggle and stay running: on for BlinkOnMs, off for BlinkOffMs.
    ensures now >= st.nextMs && IsBlink(st.ledPat) ==>
      && r.mode == st.mode && r.ledPat == st.ledPat
      && r.ledLevel == !st.ledLevel && r.ledOut == r.ledLevel
      && r.nextMs == Add32(now, if r.ledLevel then BlinkOnMs(st.ledPat) else BlinkOffMs(st.ledPat))
    ensures r.buzzOut == st.buzzOut
  {
    if now < st.nextMs then st
    else
      match st.ledPat
      case LedOff => st.(ledOut := false, mode := ExIdle)
      case LedSolid => st.(ledOut := true, mode := ExIdle)
      case LedNone => st.(ledOut := false, mode := ExIdle)
      case _ =>
        if !st.ledLevel then st.(ledLevel := true, ledOut := true, nextMs := Add32(now, BlinkOnMs(st.ledPat)))
        else st.(ledLevel := false, ledOut := false, nextMs := Add32(now, BlinkOffMs(st.ledPat)))
  }

  /** `beep_step`. */
  function BeepTick(st: ExecState, now: U32): (r: ExecState)
    ensures now < st.nextMs ==> r == st
    ensures r.ledOut == st.ledOut && r.beepPat == st.beepPat
    // The count only goes down, by one at the end of each beep.
    ensures r.beepRemaining == st.beepRemaining || r.beepRemaining == st.beepRemaining - 1
    ensures r.beepRemaining < st.beepRemaining ==> st.beepPhase == 1 && !r.buzzOut
    // The buzzer is switched on only at the start of a beep that is still owed.
    ensures r.buzzOut && !st.buzzOut ==> st.beepRemaining > 0 && st.beepPhase == 0 && r.beepPhase == 1
  {
    if now < st.nextMs then st
    else if st.beepRemaining == 0 then st.(buzzOut := false, mode := ExIdle)
    else if st.beepPhase == 0 then
      st.(buzzOut := true, nextMs := Add32(now, BeepOnMs(st.beepPat)), beepPhase := 1)
    else if st.beepPhase == 1 then
      var rem := st.beepRemaining - 1;
      if rem == 0 then st.(buzzOut := false, beepRemaining := rem, nextMs := Add32(now, SeqGapMs), beepPhase := 2)
      else st.(buzzOut := false, beepRemaining := rem, nextMs := Add32(now, BeepGapMs), beepPhase := 0)
    else st.(mode := ExIdle)
  }

  /** The executor after one poll, and what is left in the action queue. */
  datatype Polled = Polled(st: ExecState, rest: seq<Action>)

  /** `executor_poll`. */
  function PollTick(st: ExecState, now: U32, items: seq<Action>): (r: Polled)
    // An action is taken only when idle, and at most one per poll.
    ensures st.mode != ExIdle ==> r.rest == items
    ensures st.mode == ExIdle ==> r.rest == if items == [] then [] else items[1..]
    ensures st.mode == ExIdle && items == [] ==> r.st == st
    // LED and beep actions start their engine; every other action leaves the executor idle.
    ensures st.mode == ExIdle && items != [] ==>
      && (items[0].ActLedPattern? ==> r.st == LedStart(st, now, items[0].led))
      && (items[0].ActBeep? ==> r.st == BeepStart(st, now, items[0].beep))
      && (!items[0].ActLedPattern? && !items[0].ActBeep? ==> r.st == st)
    // A running engine is stepped.
    ensures st.mode == ExLedRunning ==> r.st == LedTick(st, now)
    ensures st.mode == ExBeepRunning ==> r.st == BeepTick(st, now)
  {
    match st.mode
    case ExIdle =>
      if items == [] then Polled(st, items)
      else
        var a := items[0];
        var st' := match a
          case ActLedPattern(p) => LedStart(st, now, p)
          case ActBeep(b) => BeepStart(st, now, b)
          case _ => st;
        Polled(st', items[1..])
    case ExLedRunning => Polled(LedTick(st, now), items)
    case ExBeepRunning => Polled(BeepTick(st, now), items)
  }

  // ---------------------------------------------------------------------------
  // Beep sequences
  // ---------------------------------------------------------------------------

  /** `k` beep steps, each taken exactly at the engine's deadline. */
  function BeepSteps(st: ExecState, k: nat): ExecState
    decreases k
  {
    if k == 0 then st else BeepSteps(BeepTick(st, st.nextMs), k - 1)
  }

  lemma {:induction false} BeepStepsSplit(st: ExecState, a: nat, b: nat)
    ensures BeepSteps(st, a + b) == BeepSteps(BeepSteps(st, a), b)
    decreases a
  {
    if a > 0 {
      BeepStepsSplit(BeepTick(st, st.nextMs), a - 1, b);
    }
  }

  /** How long a sequence of `m` beeps of pattern `p` keeps the engine busy before its last step. */
  function SequenceMs(p: BeepPattern, m: nat): nat
    requires m > 0
  {
    m * BeepOnMs(p) + (m - 1) * BeepGapMs + SeqGapMs
  }

  /** One beep: two due steps switch the buzzer on, then off, and settle one beep fewer. */
  lemma BeepCycle(st: ExecState)
    requires st.mode == ExBeepRunning && st.beepPhase == 0 && st.beepRemaining > 0
    ensures BeepSteps(st, 1).buzzOut
    ensures var s := BeepSteps(st, 2);
      && !s.buzzOut && s.mode == ExBeepRunning && s.beepPat == st.beepPat
      && s.beepRemaining == st.beepRemaining - 1
      && s.beepPhase == (if st.beepRemaining == 1 then 2 else 0)
      && s.nextMs == Add32(st.nextMs, BeepOnMs(st.beepPat) + if st.beepRemaining == 1 then SeqGapMs else BeepGapMs)
  {
    var s1 := BeepTick(st, st.nextMs);
    assert BeepSteps(st, 1) == s1 by {
      assert BeepSteps(s1, 0) == s1;
    }
    assert BeepSteps(st, 2) == BeepTick(s1, s1.nextMs) by {
      assert BeepSteps(s1, 1) == BeepSteps(BeepTick(s1, s1.nextMs), 0);
    }
    Add32Add(st.nextMs, BeepOnMs(st.beepPat), if st.beepRemaining == 1 then SeqGapMs else BeepGapMs);
  }

  /** With no beep owed, the next due step returns to idle with the buzzer off. */
  lemma BeepFinish(st: ExecState)
    requires st.beepRemaining == 0
    ensures BeepSteps(st, 1).mode == ExIdle && !BeepSteps(st, 1).buzzOut
  {
    assert BeepSteps(st, 1) == BeepSteps(BeepTick(st, st.nextMs), 0);
  }

  /**
   * A beep engine at the start of a beep with `m` beeps owed performs exactly
   * `m` on-off cycles (the buzzer is on after each odd step and off after each
   * even one), then waits SeqGapMs with the buzzer off, and its next step returns
   * to idle.
   */
  lemma {:induction false} BeepSequence(st: ExecState, m: nat)
    requires st.mode == ExBeepRunning && st.beepPhase == 0 && st.beepRemaining == m > 0
    ensures forall i :: 0 <= i < m ==> BeepSteps(st, 2 * i + 1).buzzOut && !BeepSteps(st, 2 * i + 2).buzzOut
    ensures var s := BeepSteps(st, 2 * m);
      s.mode == ExBeepRunning && s.beepRemaining == 0 && s.beepPhase == 2 &&
      s.nextMs == Add32(st.nextMs, SequenceMs(st.beepPat, m))
    ensures BeepSteps(st, 2 * m + 1).mode == ExIdle && !BeepSteps(st, 2 * m + 1).buzzOut
    decreases m
  {
    BeepCycle(st);
    var s2 := BeepSteps(st, 2);
    BeepStepsSplit(st, 2, 1);
    if m == 1 {
      BeepFinish(s2);
    } else {
      BeepSequence(s2, m - 1);
      var on := BeepOnMs(st.beepPat);
      assert SequenceMs(st.beepPat, m) == on + BeepGapMs + SequenceMs(st.beepPat, m - 1) by {
        assert m * on == on + (m - 1) * on;
        assert (m - 1) * BeepGapMs == BeepGapMs + (m - 2) * BeepGapMs;
      }
      Add32Add(st.nextMs, on + BeepGapMs, SequenceMs(st.beepPat, m - 1));
      BeepStepsSplit(st, 2, 2 * (m - 1));
      BeepStepsSplit(st, 2, 2 * (m - 1) + 1);
      assert 2 * m == 2 + 2 * (m - 1);
      forall i | 0 <= i < m
        ensures BeepSteps(st, 2 * i + 1).buzzOut && !BeepSteps(st, 2 * i + 2).buzzOut
      {
        if i > 0 {
          BeepStepsSplit(st, 2, 2 * (i - 1) + 1);
          BeepStepsSplit(st, 2, 2 * (i - 1) + 2);
        }
      }
    }
  }

  /** A beep action taken by an idle executor plays BeepCount beeps and then lets the executor take the next action. */
  lemma BeepActionPlaysOut(st: ExecState, now: U32, b: BeepPattern, rest: seq<Action>)
    requires st.mode == ExIdle && b != BeepNone
    ensures var s := PollTick(st, now, [ActBeep(b)] + rest).st;
      s.beepRemaining == BeepCount(b) &&
      BeepSteps(s, 2 * BeepCount(b) + 1).mode == ExIdle
  {
    assert ([ActBeep(b)] + rest)[0] == ActBeep(b);
    BeepSequence(BeepStart(st, now, b), BeepCount(b));
  }

  // ---------------------------------------------------------------------------
  // Blink patterns
  // ---------------------------------------------------------------------------

  /** `n` polls at the times `times`, oldest first. */
  function PollRun(st: ExecState, items: seq<Action>, times: seq<U32>): Polled
    decreases |times|
  {
    if times == [] then Polled(st, items)
    else
      var p := PollTick(st, times[0], items);
      PollRun(p.st, p.rest, times[1..])
  }

  /**
   * Once a blink pattern runs, the executor never returns to idle, so it takes
   * no further action from the queue, whatever the poll times: later LED
   * patterns and beeps are never played.
   */
  lemma {:induction false} BlinkNeverYields(st: ExecState, items: seq<Action>, times: seq<U32>)
    requires st.mode == ExLedRunning && IsBlink(st.ledPat)
    ensures PollRun(st, items, times).rest == items
    ensures PollRun(st, items, times).st.mode == ExLedRunning
    decreases |times|
  {
    if times != [] {
      BlinkNeverYields(PollTick(st, times[0], items).st, items, times[1..]);
    }
  }

  /** Off and solid take effect on the first due step and free the executor. */
  lemma SteadyPatternsFinish(st: ExecState, now: U32, p: LedPattern)
    requires p == LedOff || p == LedSolid
    ensures var s := LedTick(LedStart(st, now, p), now);
      s.mode == ExIdle && (s.ledOut <==> p == LedSolid)
  {
  }

  // ---------------------------------------------------------------------------
  // The executor
  // ---------------------------------------------------------------------------

  class Executor {
    var mode: Mode
    var nextMs: U32
    var ledPat: LedPattern
    var ledLevel: bool
    var beepPat: BeepPattern
    var beepRemaining: U8
    var beepPhase: U8
    /** The last level written to the status LED and to the buzzer. */
    var ledOut: bool
    var buzzOut: bool

    ghost function State(): ExecState
      reads this
    {
      ExecState(mode, nextMs, ledPat, ledLevel, beepPat, beepRemaining, beepPhase, ledOut, buzzOut)
    }

    /** `executor_init`. */
    constructor Init()
      ensures State() == Initial
    {
      mode, nextMs := ExIdle, 0;
      ledPat, ledLevel := LedNone, false;
      beepPat, beepRemaining, beepPhase := BeepNone, 0, 0;
      ledOut, buzzOut := false, false;
    }

    /** `executor_abort_feedback`: both outputs off, idle. */
    method AbortFeedback()
      modifies this
      ensures State() == old(State()).(mode := ExIdle, ledOut := false, buzzOut := false)
    {
      ledOut := false;
      buzzOut := false;
      mode := ExIdle;
    }

    /** `executor_busy`. */
    method Busy() returns (b: bool)
      ensures b <==> mode != ExIdle
    {
      b := mode != ExIdle;
    }

    /** `start_led_pattern`. */
    method StartLedPattern(now: U32, p: LedPattern)
      modifies this
      ensures State() == LedStart(old(State()), now, p)
    {
      ledPat := p;
      ledLevel := false;
      nextMs := now;
      mode := ExLedRunning;
    }

    /** `start_beep`. */
    method StartBeep(now: U32, p: BeepPattern)
      modifies this
      ensures State() == BeepStart(old(State()), now, p)
    {
      beepPat := p;
      beepPhase := 0;
      match p {
        case BeepSingle => beepRemaining := 1;
        case BeepDouble => beepRemaining := 2;
        case BeepTriple => beepRemaining := 3;
        case BeepErrorFast => beepRemaining := 4;
        case BeepLowBat => beepRemaining := 2;
        case BeepNone => beepRemaining := 0;
      }
      nextMs := now;
      mode := ExBeepRunning;
    }

    /** `led_step`. */
    method LedStep(now: U32)
      modifies this
      ensures State() == LedTick(old(State()), now)
    {
      if now < nextMs {
        return;
      }
      match ledPat {
        case LedOff =>
          ledOut := false;
          mode := ExIdle;
        case LedSolid =>
          ledOut := true;
          mode := ExIdle;
        case LedNone =>
          ledOut := false;
          mode := ExIdle;
        case _ =>
          var onMs := if ledPat == LedFastBlink then 100 else 300;
          var offMs := if ledPat == LedFastBlink then 150 else 700;
          if !ledLevel {
            ledLevel := true;
            ledOut := true;
            nextMs := Add32(now, onMs);
          } else {
            ledLevel := false;
            ledOut := false;
            nextMs := Add32(now, offMs);
          }
      }
    }

    /** `beep_step`. */
    method BeepStep(now: U32)
      modifies this
      ensures State() == BeepTick(old(State()), now)
    {
      if now < nextMs {
        return;
      }
      if beepRemaining == 0 {
        buzzOut := false;
        mode := ExIdle;
        return;
      }
      var onMs := if beepPat == BeepErrorFast then 50 else 80;
      if beepPhase == 0 {
        buzzOut := true;
        nextMs := Add32(now, onMs);
        beepPhase := 1;
        return;
      }
      if beepPhase == 1 {
        buzzOut := false;
        beepRemaining := beepRemaining - 1;
        if beepRemaining == 0 {
          nextMs := Add32(now, SeqGapMs);
          beepPhase := 2;
        } else {
          nextMs := Add32(now, BeepGapMs);
          beepPhase := 0;
        }
        return;
      }
      mode := ExIdle;
    }

    /** `executor_poll`. */
    method Poll(now: U32, aq: ActionQueue.Queue)
      requires aq.Valid()
      modifies this, aq
      ensures aq.Valid()
      ensures State() == PollTick(old(State()), now, old(aq.items)).st
      ensures aq.items == PollTick(old(State()), now, old(aq.items)).rest
      ensures aq.dropped == old(aq.dropped)
    {
      if mode == ExIdle {
        var ok, a := aq.Pop();
        if !ok {
          return;
        }
        match a {
          case ActLedPattern(p) => StartLedPattern(now, p);
          case ActBeep(b) => StartBeep(now, b);
          case _ => mode := ExIdle;
        }
        return;
      }
      if mode == ExLedRunning {
        LedStep(now);
        return;
      }
      BeepStep(now);
    }
  }
}
