// The driver-level battery gauge of src/drv_fuel_gauge.cpp. It keeps its own
// copy of the bucket and lockout classifiers and its own state, samples every
// CFG_BATTERY_SAMPLE_MS (250 ms) instead of 200 ms, and otherwise runs the
// algorithm of src/fuel_gauge.cpp step for step. The model shows both: its
// classifiers are src/fuel_gauge.cpp's, and its poll is FuelGauge.PollWith at
// 250 ms, so every property proved there of a sample holds here too.
module DrvFuelGauge {
  import opened Vocabulary
  import opened Clock
  import EventQueue
  import Fifo
  import FuelGauge

  /** `kSamplePeriodMs`, taken from CFG_BATTERY_SAMPLE_MS. */
  const SamplePeriodMs: nat := BatterySampleMs

  /** `kStableSamplesReq`. */
  const StableSamples: nat := 3

  /** `classify_battery`: ordered high to low. */
  function Classify(adc: U16): (b: BatteryState)
    ensures b != BatUnknown
    ensures b == BatFull <==> adc >= AdcFull
    ensures b == BatCritical <==> adc < AdcLow
  {
    if adc >= AdcFull then BatFull
    else if adc >= AdcHalf then BatHalf
    else if adc >= AdcLow then BatLow
    else BatCritical
  }

  /** `lockout_should_be_active`: enter at or below the enter threshold, leave at or above the exit threshold. */
  function LockoutShouldBeActive(current: bool, adc: U16): (r: bool)
    ensures !current ==> (r <==> adc <= AdcLockoutEnter)
    ensures current ==> (r <==> adc < AdcLockoutExit)
  {
    if !current then adc <= AdcLockoutEnter
    else if adc < AdcLockoutExit then true else false
  }

  /** The two copies of the classifiers agree on every reading. */
  lemma SameClassifiers(current: bool, adc: U16)
    ensures Classify(adc) == FuelGauge.Classify(adc)
    ensures LockoutShouldBeActive(current, adc) == FuelGauge.ClassifyLockout(current, adc)
  {
  }

  /** `drv_fuel_gauge_poll`: src/fuel_gauge.cpp's poll at this module's sample period. */
  function PollStep(s: FuelGauge.Gauge, now: U32, adc: U16): FuelGauge.Output {
    FuelGauge.PollWith(s, now, adc, SamplePeriodMs)
  }

  /** After a sample, no poll samples again until 250 ms have passed; at 250 ms one does. */
  lemma NoSampleBeforePeriod(s: FuelGauge.Gauge, now: U32, adc: U16, early: nat, adc': U16)
    requires TimeReached(now, s.nextSample) && 0 < early < SamplePeriodMs
    ensures var r := PollStep(s, now, adc).st;
      PollStep(r, Add32(now, early), adc') == FuelGauge.Output(r, [])
      && PollStep(r, Add32(now, SamplePeriodMs), adc').st.lastAdc == adc'
  {
    var r := PollStep(s, now, adc).st;
    assert r.nextSample == Add32(now, SamplePeriodMs);
    NotReachedBeforeDelay(now, SamplePeriodMs, early);
    ReachedAfterDelay(now, SamplePeriodMs, 0);
  }

  /** A sample taken here changes what is reported exactly as `FuelGauge.BatteryStep` and `FuelGauge.LockoutStep` would: only after three agreeing samples. */
  lemma ChangesNeedThreeAgreeing(s: FuelGauge.Gauge, hb: seq<BatteryState>, hl: seq<bool>, now: U32, adc: U16)
    requires FuelGauge.Agrees(s.bat, hb) && FuelGauge.Agrees(s.lock, hl)
    ensures var r := PollStep(s, now, adc).st;
      var hb' := hb + [Classify(adc)];
      var hl' := hl + [LockoutShouldBeActive(s.lockout, adc)];
      && (r.reported != s.reported ==>
            |hb'| >= StableSamples && forall j :: |hb'| - StableSamples <= j < |hb'| ==> hb'[j] == r.reported)
      && (r.lockout != s.lockout ==>
            |hl'| >= StableSamples && forall j :: |hl'| - StableSamples <= j < |hl'| ==> hl'[j] == r.lockout)
  {
    SameClassifiers(s.lockout, adc);
    if TimeReached(now, s.nextSample) {
      var s1 := s.(nextSample := Add32(now, SamplePeriodMs));
      FuelGauge.ChangesNeedThreeAgreeing(s1, hb, hl, adc);
    }
  }

  class Monitor {
    var nextSample: U32
    var lastAdc: U16
    var reported: BatteryState
    var candidate: BatteryState
    var count: U8
    var lockout: bool
    var lockCandidate: bool
    var lockCount: U8

    ghost function State(): FuelGauge.Gauge
      reads this
    {
      FuelGauge.Gauge(nextSample, lastAdc, reported, FuelGauge.Vote(candidate, count), lockout, FuelGauge.Vote(lockCandidate, lockCount))
    }

    /** `drv_fuel_gauge_init`. */
    constructor Init()
      ensures State() == FuelGauge.Initial
    {
      nextSample, lastAdc := 0, 0;
      reported, candidate, count := BatUnknown, BatUnknown, 0;
      lockout, lockCandidate, lockCount := false, false, 0;
    }

    /** `drv_fuel_gauge_poll` with `adc` as the reading it would take. */
    method Poll(now: U32, adc: U16, q: EventQueue.Queue)
      requires q.Valid()
      modifies this, q, q.buf
      ensures q.Valid()
      ensures State() == PollStep(old(State()), now, adc).st
      ensures q.Contents() == EventQueue.PushAll(old(q.Contents()), PollStep(old(State()), now, adc).events)
    {
      if !TimeReached(now, nextSample) {
        return;
      }
      nextSample := Add32(now, SamplePeriodMs);
      lastAdc := adc;
      ghost var s1 := State();
      ghost var q0 := q.Contents();
      UpdateBattery(adc, q);
      ghost var b := FuelGauge.BatteryStep(s1, adc);
      UpdateLockout(adc, q);
      Fifo.PushAllAppend(q0, b.events, FuelGauge.LockoutStep(b.st, adc).events, EventQueue.Capacity);
    }

    /** Battery state classification with the stability requirement. */
    method UpdateBattery(adc: U16, q: EventQueue.Queue)
      requires q.Valid()
      modifies this, q, q.buf
      ensures q.Valid()
      ensures State() == FuelGauge.BatteryStep(old(State()), adc).st
      ensures q.Contents() == EventQueue.PushAll(old(q.Contents()), FuelGauge.BatteryStep(old(State()), adc).events)
    {
      var b := Classify(adc);
      SameClassifiers(lockout, adc);
      if b != candidate {
        candidate := b;
        count := 1;
      } else {
        if count < 255 {
          count := count + 1;
        }
      }
      if candidate != reported && count >= StableSamples {
        reported := candidate;
        var _ := q.Push(EvBatStateChanged(reported, adc));
      }
    }

    /** Lockout hysteresis with the stability requirement; the event carries the state reported at that moment. */
    method UpdateLockout(adc: U16, q: EventQueue.Queue)
      requires q.Valid()
      modifies this, q, q.buf
      ensures q.Valid()
      ensures State() == FuelGauge.LockoutStep(old(State()), adc).st
      ensures q.Contents() == EventQueue.PushAll(old(q.Contents()), FuelGauge.LockoutStep(old(State()), adc).events)
    {
      var decision := LockoutShouldBeActive(lockout, adc);
      SameClassifiers(lockout, adc);
      if decision != lockCandidate {
        lockCandidate := decision;
        lockCount := 1;
      } else {
        if lockCount < 255 {
          lockCount := lockCount + 1;
        }
      }
      if lockCount >= StableSamples && lockCandidate != lockout {
        lockout := lockCandidate;
        if lockout {
          var _ := q.Push(EvBatLockoutEnter(reported, adc));
        } else {
          var _ := q.Push(EvBatLockoutExit(reported, adc));
        }
      }
    }

    /** `drv_fuel_gauge_last_adc`, `drv_fuel_gauge_last_state`, `drv_fuel_gauge_lockout_active`. */
    method View() returns (adc: U16, state: BatteryState, locked: bool)
      ensures adc == lastAdc && state == reported && locked == lockout
    {
      adc, state, locked := lastAdc, reported, lockout;
    }
  }
}
