// The battery gauge of src/fuel_gauge.cpp. Every 200 ms (wrap-safe) it takes one
// ADC reading, classifies it into a battery bucket and into a lockout decision
// with hysteresis, and reports a change of either only after three consecutive
// samples agree, pushing one event per change. The ADC reading is an input.
module FuelGauge {
  import opened Vocabulary
  import opened Clock
  import EventQueue
  import Fifo

  /** `kSamplePeriodMs`. */
  const SamplePeriodMs: nat := 200

  /** `kStableSamplesReq`: consecutive agreeing samples needed to report a change. */
  const StableSamples: nat := 3

  /** `classify_battery`: the bucket of an ADC reading, ordered high to low. */
  function Classify(adc: U16): (b: BatteryState)
    ensures b != BatUnknown
    ensures b == BatFull <==> adc >= AdcFull
    ensures b == BatHalf <==> AdcHalf <= adc < AdcFull
    ensures b == BatLow <==> AdcLow <= adc < AdcHalf
    ensures b == BatCritical <==> adc < AdcLow
  {
    if adc >= AdcFull then BatFull
    else if adc >= AdcHalf then BatHalf
    else if adc >= AdcLow then BatLow
    else BatCritical
  }

  /** How charged a bucket is: Critical lowest, Full highest. */
  function Charge(b: BatteryState): nat {
    match b
    case BatUnknown => 0
    case BatCritical => 0
    case BatLow => 1
    case BatHalf => 2
    case BatFull => 3
  }

  /** A higher reading never lands in a lower bucket. */
  lemma ClassifyMonotone(a: U16, b: U16)
    requires a <= b
    ensures Charge(Classify(a)) <= Charge(Classify(b))
  {
  }

  /** `classify_lockout`: enter at or below 455; once in, stay in below 475. */
  function ClassifyLockout(current: bool, adc: U16): (r: bool)
    ensures !current ==> (r <==> adc <= AdcLockoutEnter)
    ensures current ==> (r <==> adc < AdcLockoutExit)
  {
    if !current then adc <= AdcLockoutEnter
    else !(adc >= AdcLockoutExit)
  }

  /** Hysteresis: a reading in the band between the thresholds keeps the current decision; outside it, the reading alone decides. */
  lemma LockoutHysteresis(current: bool, adc: U16)
    ensures AdcLockoutEnter < adc < AdcLockoutExit ==> ClassifyLockout(current, adc) == current
    ensures adc <= AdcLockoutEnter ==> ClassifyLockout(current, adc)
    ensures adc >= AdcLockoutExit ==> !ClassifyLockout(current, adc)
    // Locked out means critical, and leaving lockout needs at least a Low battery.
    ensures ClassifyLockout(current, adc) ==> Classify(adc) == BatCritical
    ensures current && !ClassifyLockout(current, adc) ==> Charge(Classify(adc)) >= Charge(BatLow)
  {
  }

  // ---------------------------------------------------------------------------
  // Stability counters
  // ---------------------------------------------------------------------------

  /** A candidate value and how many consecutive samples have given it (saturating at 255). */
  datatype Vote<T> = Vote(candidate: T, count: U8)

  /** One sample's update of a candidate counter. */
  function Cast<T(==)>(v: Vote<T>, x: T): (r: Vote<T>)
    ensures r.candidate == x
    ensures x != v.candidate ==> r.count == 1
    ensures x == v.candidate ==> r.count == SatInc8(v.count)
  {
    if x != v.candidate then Vote(x, 1)
    else Vote(v.candidate, if v.count < TWO8 - 1 then v.count + 1 else v.count)
  }

  /** The counter is honest about history `h`: its last `count` entries all equal the candidate. */
  ghost predicate Agrees<T>(v: Vote<T>, h: seq<T>) {
    v.count <= |h| && forall j :: |h| - v.count <= j < |h| ==> h[j] == v.candidate
  }

  lemma CastAgrees<T>(v: Vote<T>, h: seq<T>, x: T)
    requires Agrees(v, h)
    ensures Agrees(Cast(v, x), h + [x])
  {
    var r := Cast(v, x);
    forall j | |h + [x]| - r.count <= j < |h + [x]|
      ensures (h + [x])[j] == r.candidate
    {
      if j < |h| {
        assert x == v.candidate && j >= |h| - v.count;
      }
    }
  }

  // ---------------------------------------------------------------------------
  // The gauge
  // ---------------------------------------------------------------------------

  /** The module's state. */
  datatype Gauge = Gauge(
    nextSample: U32,
    lastAdc: U16,
    reported: BatteryState,
    bat: Vote<BatteryState>,
    lockout: bool,
    lock: Vote<bool>)

  /** `fuel_gauge_init`. */
  const Initial: Gauge := Gauge(0, 0, BatUnknown, Vote(BatUnknown, 0), false, Vote(false, 0))

  /** A new state and the events pushed on the way to it, oldest first. */
  datatype Output = Output(st: Gauge, events: seq<Event>)

  /** The battery-state half of a sample: report the candidate once three samples agree on a new bucket. */
  function BatteryStep(s: Gauge, adc: U16): (r: Output)
    ensures r.st.bat == Cast(s.bat, Classify(adc))
    ensures r.st.reported != s.reported ==> r.st.reported == Classify(adc) && r.st.bat.count >= StableSamples
    // ... and it is reported as soon as the count for a new bucket reaches three.
    ensures var v := Cast(s.bat, Classify(adc)); v.candidate != s.reported && v.count >= StableSamples ==> r.st.reported == v.candidate
    ensures r.st.reported != s.reported <==> r.events != []
    ensures r.events != [] ==> r.events == [EvBatStateChanged(r.st.reported, adc)]
    ensures r.st.lockout == s.lockout && r.st.lock == s.lock
  {
    var v := Cast(s.bat, Classify(adc));
    var s1 := s.(bat := v);
    if v.candidate != s.reported && v.count >= StableSamples then
      Output(s1.(reported := v.candidate), [EvBatStateChanged(v.candidate, adc)])
    else Output(s1, [])
  }

  /** The lockout half of a sample: change the flag once three decisions agree on it. */
  function LockoutStep(s: Gauge, adc: U16): (r: Output)
    ensures r.st.lock == Cast(s.lock, ClassifyLockout(s.lockout, adc))
    ensures r.st.lockout != s.lockout ==> r.st.lockout == r.st.lock.candidate && r.st.lock.count >= StableSamples
    // ... and it changes as soon as three decisions agree against the flag in force.
    ensures var v := Cast(s.lock, ClassifyLockout(s.lockout, adc)); v.candidate != s.lockout && v.count >= StableSamples ==> r.st.lockout == v.candidate
    ensures r.st.lockout != s.lockout <==> r.events != []
    ensures r.events != [] ==>
      r.events == [if r.st.lockout then EvBatLockoutEnter(s.reported, adc) else EvBatLockoutExit(s.reported, adc)]
    ensures r.st.reported == s.reported && r.st.bat == s.bat
  {
    var v := Cast(s.lock, ClassifyLockout(s.lockout, adc));
    var s1 := s.(lock := v);
    if v.count >= StableSamples && v.candidate != s.lockout then
      var e := if v.candidate then EvBatLockoutEnter(s.reported, adc) else EvBatLockoutExit(s.reported, adc);
      Output(s1.(lockout := v.candidate), [e])
    else Output(s1, [])
  }

  /** One sample: record it, update the battery state, then the lockout flag. */
  function SampleStep(s: Gauge, adc: U16): Output {
    var b := BatteryStep(s.(lastAdc := adc), adc);
    var l := LockoutStep(b.st, adc);
    Output(l.st, b.events + l.events)
  }

  /** `fuel_gauge_poll` with sample period `period`: sample only once the next-sample time is reached. */
  function PollWith(s: Gauge, now: U32, adc: U16, period: nat): (r: Output)
    ensures !TimeReached(now, s.nextSample) ==> r == Output(s, [])
    ensures TimeReached(now, s.nextSample) ==>
      r.st.nextSample == Add32(now, period) && r.st.lastAdc == adc &&
      r == SampleStep(s.(nextSample := Add32(now, period)), adc)
  {
    if !TimeReached(now, s.nextSample) then Output(s, [])
    else SampleStep(s.(nextSample := Add32(now, period)), adc)
  }

  /** `fuel_gauge_poll`. */
  function PollStep(s: Gauge, now: U32, adc: U16): Output {
    PollWith(s, now, adc, SamplePeriodMs)
  }

  /** After a sample, no poll samples again until 200 ms have passed. */
  lemma NoSampleBeforePeriod(s: Gauge, now: U32, adc: U16, early: nat, adc': U16)
    requires TimeReached(now, s.nextSample) && 0 < early < SamplePeriodMs
    ensures var r := PollStep(s, now, adc).st;
      PollStep(r, Add32(now, early), adc') == Output(r, [])
      && PollStep(r, Add32(now, SamplePeriodMs), adc').st.lastAdc == adc'
  {
    var r := PollStep(s, now, adc).st;
    assert r.nextSample == Add32(now, SamplePeriodMs);
    NotReachedBeforeDelay(now, SamplePeriodMs, early);
    ReachedAfterDelay(now, SamplePeriodMs, 0);
  }

  // ---------------------------------------------------------------------------
  // Changes are reported only after three agreeing samples
  // ---------------------------------------------------------------------------

  /** A run of samples, each taken. */
  function Samples(s: Gauge, adcs: seq<U16>): Output
    decreases |adcs|
  {
    if adcs == [] then Output(s, [])
    else
      var o := SampleStep(s, adcs[0]);
      var r := Samples(o.st, adcs[1..]);
      Output(r.st, o.events + r.events)
  }

  /** The bucket of each sample. */
  function Buckets(adcs: seq<U16>): (bs: seq<BatteryState>)
    ensures |bs| == |adcs|
    ensures forall j :: 0 <= j < |adcs| ==> bs[j] == Classify(adcs[j])
  {
    if adcs == [] then [] else [Classify(adcs[0])] + Buckets(adcs[1..])
  }

  /** The lockout decision of each sample, taken against the flag in force at that sample. */
  function Decisions(s: Gauge, adcs: seq<U16>): (ds: seq<bool>)
    ensures |ds| == |adcs|
    decreases |adcs|
  {
    if adcs == [] then []
    else [ClassifyLockout(s.lockout, adcs[0])] + Decisions(SampleStep(s, adcs[0]).st, adcs[1..])
  }

  /** The battery counter of a run stays honest about the buckets of its samples. */
  lemma {:induction false} SamplesAgreeBat(s: Gauge, hb: seq<BatteryState>, adcs: seq<U16>)
    requires Agrees(s.bat, hb)
    ensures Agrees(Samples(s, adcs).st.bat, hb + Buckets(adcs))
    decreases |adcs|
  {
    if adcs == [] {
      assert hb + Buckets(adcs) == hb;
    } else {
      var a := adcs[0];
      var st := SampleStep(s, a).st;
      SampleCounters(s, a);
      CastAgrees(s.bat, hb, Classify(a));
      SamplesAgreeBat(st, hb + [Classify(a)], adcs[1..]);
      SplitHead(hb, Buckets(adcs), Classify(a), Buckets(adcs[1..]));
    }
  }

  /** The lockout counter of a run stays honest about the decisions of its samples. */
  lemma {:induction false} SamplesAgreeLock(s: Gauge, hl: seq<bool>, adcs: seq<U16>)
    requires Agrees(s.lock, hl)
    ensures Agrees(Samples(s, adcs).st.lock, hl + Decisions(s, adcs))
    decreases |adcs|
  {
    if adcs == [] {
      assert hl + Decisions(s, adcs) == hl;
    } else {
      var a := adcs[0];
      var st := SampleStep(s, a).st;
      SampleCounters(s, a);
      CastAgrees(s.lock, hl, ClassifyLockout(s.lockout, a));
      SamplesAgreeLock(st, hl + [ClassifyLockout(s.lockout, a)], adcs[1..]);
      SplitHead(hl, Decisions(s, adcs), ClassifyLockout(s.lockout, a), Decisions(st, adcs[1..]));
    }
  }

  lemma SplitHead<T>(h: seq<T>, xs: seq<T>, x: T, rest: seq<T>)
    requires xs == [x] + rest
    ensures h + xs == (h + [x]) + rest
  {
  }

  /** A sample casts its bucket and its lockout decision into the two counters. */
  lemma SampleCounters(s: Gauge, adc: U16)
    ensures SampleStep(s, adc).st.bat == Cast(s.bat, Classify(adc))
    ensures SampleStep(s, adc).st.lock == Cast(s.lock, ClassifyLockout(s.lockout, adc))
  {
  }

  /** From `fuel_gauge_init` the counters are honest about the empty history. */
  lemma InitialAgrees()
    ensures Agrees(Initial.bat, []) && Agrees(Initial.lock, [])
  {
  }

  /**
   * With honest counters, a sample that changes the reported bucket is the third
   * (or later) of a run of samples in that bucket, and one that changes the
   * lockout flag is the third (or later) of a run of decisions for it. So a
   * single outlier never changes either.
   */
  lemma ChangesNeedThreeAgreeing(s: Gauge, hb: seq<BatteryState>, hl: seq<bool>, adc: U16)
    requires Agrees(s.bat, hb) && Agrees(s.lock, hl)
    ensures var r := SampleStep(s, adc).st;
      var hb' := hb + [Classify(adc)];
      var hl' := hl + [ClassifyLockout(s.lockout, adc)];
      && (r.reported != s.reported ==>
            |hb'| >= StableSamples && forall j :: |hb'| - StableSamples <= j < |hb'| ==> hb'[j] == r.reported)
      && (r.lockout != s.lockout ==>
            |hl'| >= StableSamples && forall j :: |hl'| - StableSamples <= j < |hl'| ==> hl'[j] == r.lockout)
  {
    CastAgrees(s.bat, hb, Classify(adc));
    CastAgrees(s.lock, hl, ClassifyLockout(s.lockout, adc));
  }

  /**
   * The converse: three consecutive samples in one bucket make it the reported
   * state by the third, whatever the gauge held before; and three readings at or
   * below 455 (at or above 475) leave the lockout flag set (cleared).
   */
  lemma ThreeAgreeingReported(s: Gauge, a1: U16, a2: U16, a3: U16)
    requires Classify(a1) == Classify(a2) == Classify(a3)
    ensures SampleStep(SampleStep(SampleStep(s, a1).st, a2).st, a3).st.reported == Classify(a1)
    ensures a1 <= AdcLockoutEnter && a2 <= AdcLockoutEnter && a3 <= AdcLockoutEnter ==>
      SampleStep(SampleStep(SampleStep(s, a1).st, a2).st, a3).st.lockout
    ensures a1 >= AdcLockoutExit && a2 >= AdcLockoutExit && a3 >= AdcLockoutExit ==>
      !SampleStep(SampleStep(SampleStep(s, a1).st, a2).st, a3).st.lockout
  {
  }

  /** What a sample pushes: at most a state change, then at most a lockout change, which carries the state just reported. */
  lemma SampleEvents(s: Gauge, adc: U16)
    ensures var o := SampleStep(s, adc);
      var b := BatteryStep(s.(lastAdc := adc), adc);
      && o.events == b.events + LockoutStep(b.st, adc).events
      && |o.events| <= 2
      && (o.st.reported != s.reported <==> EvBatStateChanged(o.st.reported, adc) in o.events)
      && (o.st.lockout && !s.lockout <==> EvBatLockoutEnter(o.st.reported, adc) in o.events)
      && (!o.st.lockout && s.lockout <==> EvBatLockoutExit(o.st.reported, adc) in o.events)
  {
  }

  class Monitor {
    var nextSample: U32
    var lastAdc: U16
    var reported: BatteryState
    var candidate: BatteryState
    var count: U8
    var lockout: bool
    var lockCandidate: bool
    var lockCount: U8

    ghost function State(): Gauge
      reads this
    {
      Gauge(nextSample, lastAdc, reported, Vote(candidate, count), lockout, Vote(lockCandidate, lockCount))
    }

    /** `fuel_gauge_init`. */
    constructor Init()
      ensures State() == Initial
    {
      nextSample, lastAdc := 0, 0;
      reported, candidate, count := BatUnknown, BatUnknown, 0;
      lockout, lockCandidate, lockCount := false, false, 0;
    }

    /** `fuel_gauge_poll` with `adc` as the reading it would take. */
    method Poll(now: U32, adc: U16, q: EventQueue.Queue)
      requires q.Valid()
      modifies this, q, q.buf
      ensures q.Valid()
      ensures State() == PollStep(old(State()), now, adc).st
      ensures q.Contents() == EventQueue.PushAll(old(q.Contents()), PollStep(old(State()), now, adc).events)
    {
      if !TimeReached(now, nextSample) {
        return;
      }
      nextSample := Add32(now, SamplePeriodMs);
      lastAdc := adc;
      ghost var s1 := State();
      ghost var q0 := q.Contents();
      UpdateBattery(now, adc, q);
      ghost var b := BatteryStep(s1, adc);
      UpdateLockout(now, adc, q);
      Fifo.PushAllAppend(q0, b.events, LockoutStep(b.st, adc).events, EventQueue.Capacity);
    }

    /** The battery classification part of `fuel_gauge_poll`. */
    method UpdateBattery(now: U32, adc: U16, q: EventQueue.Queue)
      requires q.Valid()
      modifies this, q, q.buf
      ensures q.Valid()
      ensures State() == BatteryStep(old(State()), adc).st
      ensures q.Contents() == EventQueue.PushAll(old(q.Contents()), BatteryStep(old(State()), adc).events)
    {
      var b := Classify(adc);
      if b != candidate {
        candidate := b;
        count := 1;
      } else {
        if count < 255 {
          count := count + 1;
        }
      }
      if candidate != reported && count >= StableSamples {
        reported := candidate;
        var _ := q.Push(EvBatStateChanged(reported, adc));
      }
    }

    /** The lockout hysteresis part of `fuel_gauge_poll`. */
    method UpdateLockout(now: U32, adc: U16, q: EventQueue.Queue)
      requires q.Valid()
      modifies this, q, q.buf
      ensures q.Valid()
      ensures State() == LockoutStep(old(State()), adc).st
      ensures q.Contents() == EventQueue.PushAll(old(q.Contents()), LockoutStep(old(State()), adc).events)
    {
      var decision := ClassifyLockout(lockout, adc);
      if decision != lockCandidate {
        lockCandidate := decision;
        lockCount := 1;
      } else {
        if lockCount < 255 {
          lockCount := lockCount + 1;
        }
      }
      if lockCount >= StableSamples && lockCandidate != lockout {
        lockout := lockCandidate;
        if lockout {
          var _ := q.Push(EvBatLockoutEnter(reported, adc));
        } else {
          var _ := q.Push(EvBatLockoutExit(reported, adc));
        }
      }
    }

    /** `fuel_gauge_last_adc`, `fuel_gauge_last_state`, `fuel_gauge_lockout_active`. */
    method View() returns (adc: U16, state: BatteryState, locked: bool)
      ensures adc == lastAdc && state == reported && locked == lockout
    {
      adc, state, locked := lastAdc, reported, lockout;
    }
  }
}
