// The DVR status-LED classifier of src/dvr_led.cpp. An interrupt marks the
// sniffer input dirty; each poll samples the level, turns an accepted edge into
// an on- or off-duration, classifies a full on+off cycle by period bands, and
// falls back to Solid or Off when the input has been quiet for SolidMs.
module DvrLed {
  import opened Vocabulary
  import opened Clock

  /** Edges closer than this to the previous accepted one are rejected as glitches. */
  const GlitchMs: nat := 5

  predicate InBand(x: int, lo: int, hi: int) {
    lo <= x <= hi
  }

  /** A cycle shaped like the DVR's fast blink (error / card fault). */
  predicate FastShape(period: U16, on: U16, off: U16) {
    InBand(period, FastMinMs, FastMaxMs) && InBand(on, FastEdgeMinMs, FastEdgeMaxMs) && InBand(off, FastEdgeMinMs, FastEdgeMaxMs)
  }

  /** A cycle shaped like the DVR's slow blink (recording). */
  predicate SlowShape(period: U16, on: U16, off: U16) {
    InBand(period, SlowMinMs, SlowMaxMs) && InBand(on, SlowEdgeMinMs, SlowEdgeMaxMs) && InBand(off, SlowEdgeMinMs, SlowEdgeMaxMs)
  }

  /** `classify_period`: the fast band is tried first, then the slow band. */
  function ClassifyPeriod(period: U16, on: U16, off: U16): (p: DvrPattern)
    ensures p == DvrFastBlink <==> FastShape(period, on, off)
    ensures p == DvrSlowBlink <==> SlowShape(period, on, off)
    ensures p == DvrUnknown <==> !FastShape(period, on, off) && !SlowShape(period, on, off)
    ensures p in {DvrFastBlink, DvrSlowBlink, DvrUnknown}
  {
    if FastShape(period, on, off) then DvrFastBlink
    else if SlowShape(period, on, off) then DvrSlowBlink
    else DvrUnknown
  }

  /** The bands cannot overlap: a fast period is at most 450 ms, a slow one at least 700 ms. */
  lemma BandsDisjoint(period: U16, on: U16, off: U16)
    ensures !(FastShape(period, on, off) && SlowShape(period, on, off))
  {
  }

  /** The classifier's variables (src/dvr_led.cpp:21-34), the ISR flag excluded. */
  datatype LedState = LedState(
    pat: DvrPattern,
    level: Level,
    lastEdgeMs: U32,
    lastChangeMs: U32,
    onMs: U16,
    offMs: U16,
    periodMs: U16)

  /** The patterns the classifier can publish: never AbnormalBoot. */
  predicate Publishable(p: DvrPattern) {
    p != DvrAbnormalBoot
  }

  /** `dvr_led_init`: Unknown, the sampled level, both timestamps at `now`, no durations. */
  function Initial(now: U32, level: Level): (s: LedState)
    ensures s.pat == DvrUnknown && s.level == level
    ensures s.onMs == 0 && s.offMs == 0 && s.periodMs == 0
  {
    LedState(DvrUnknown, level, now, now, 0, 0, 0)
  }

  /** Whether a poll with this dirty flag and sampled level accepts an edge. */
  predicate EdgeAccepted(s: LedState, now: U32, level: Level, dirty: bool) {
    dirty && level != s.level && Elapsed(now, s.lastChangeMs) >= GlitchMs
  }

  /** The edge-processing half of `dvr_led_poll`. */
  function EdgeStep(s: LedState, now: U32, level: Level, dirty: bool): (r: LedState)
    // No edge, a spurious wake-up or a glitch: nothing changes.
    ensures !EdgeAccepted(s, now, level, dirty) ==> r == s
    // An accepted edge ends the previous level: its duration, clamped to 16 bits,
    // becomes the on-duration (LED on = Low) or the off-duration.
    ensures EdgeAccepted(s, now, level, dirty) ==>
      r.level == level && r.lastChangeMs == now && r.lastEdgeMs == now &&
      (s.level == DvrLedOnLevel ==> r.onMs == ClampU16(Elapsed(now, s.lastChangeMs)) && r.offMs == s.offMs) &&
      (s.level != DvrLedOnLevel ==> r.offMs == ClampU16(Elapsed(now, s.lastChangeMs)) && r.onMs == s.onMs)
    // The period and the pattern move only once both durations are known.
    ensures (r.periodMs != s.periodMs || r.pat != s.pat) ==> r.onMs != 0 && r.offMs != 0
    ensures r.periodMs != s.periodMs ==> r.periodMs == ClampU16(r.onMs + r.offMs)
    // Once both are known, an accepted edge sets the period to their clamped sum and
    // publishes the classification, unless the cycle fits neither band.
    ensures EdgeAccepted(s, now, level, dirty) && r.onMs != 0 && r.offMs != 0 ==>
      r.periodMs == ClampU16(r.onMs + r.offMs) &&
      (ClassifyPeriod(r.periodMs, r.onMs, r.offMs) != DvrUnknown ==> r.pat == ClassifyPeriod(r.periodMs, r.onMs, r.offMs)) &&
      (ClassifyPeriod(r.periodMs, r.onMs, r.offMs) == DvrUnknown ==> r.pat == s.pat)
    // An Unknown classification never replaces the published pattern.
    ensures r.pat == s.pat || (r.pat == ClassifyPeriod(r.periodMs, r.onMs, r.offMs) && r.pat != DvrUnknown)
  {
    if !EdgeAccepted(s, now, level, dirty) then s
    else
      var dt := Elapsed(now, s.lastChangeMs);
      var on := if s.level == DvrLedOnLevel then ClampU16(dt) else s.onMs;
      var off := if s.level == DvrLedOnLevel then s.offMs else ClampU16(dt);
      var period := if on != 0 && off != 0 then ClampU16(on + off) else s.periodMs;
      var perPat := ClassifyPeriod(period, on, off);
      var pat := if on != 0 && off != 0 && perPat != DvrUnknown then perPat else s.pat;
      LedState(pat, level, now, now, on, off, period)
  }

  /** Whether the input has been free of accepted edges for SolidMs. */
  predicate Quiet(s: LedState, now: U32) {
    Elapsed(now, s.lastEdgeMs) >= SolidMs
  }

  /** The quiet-time half of `dvr_led_poll`. */
  function QuietStep(s: LedState, now: U32, level: Level): (r: LedState)
    ensures Quiet(s, now) && level == DvrLedOnLevel ==> r.pat == DvrSolid
    ensures Quiet(s, now) && level != DvrLedOnLevel ==> r.pat == DvrOff
    ensures r.(pat := s.pat) == s
    ensures !Quiet(s, now) ==> r == s
  {
    if Quiet(s, now) then s.(pat := if level == DvrLedOnLevel then DvrSolid else DvrOff) else s
  }

  /** One `dvr_led_poll`: edge processing, then the quiet-time rule on the same sample. */
  function PollStep(s: LedState, now: U32, level: Level, dirty: bool): LedState {
    QuietStep(EdgeStep(s, now, level, dirty), now, level)
  }

  /** One poll's inputs: the time, the sampled level and whether the ISR fired since the last poll. */
  datatype Sample = Sample(now: U32, level: Level, dirty: bool)

  function Run(s: LedState, samples: seq<Sample>): LedState
    decreases |samples|
  {
    if samples == [] then s
    else Run(PollStep(s, samples[0].now, samples[0].level, samples[0].dirty), samples[1..])
  }

  /** A poll never publishes AbnormalBoot; the signature for it is not implemented. */
  lemma PollPublishable(s: LedState, now: U32, level: Level, dirty: bool)
    requires Publishable(s.pat)
    ensures Publishable(PollStep(s, now, level, dirty).pat)
  {
  }

  /** From `dvr_led_init` on, no sequence of polls ever publishes AbnormalBoot. */
  lemma {:induction false} NeverAbnormalBoot(t0: U32, level0: Level, samples: seq<Sample>)
    ensures Publishable(Run(Initial(t0, level0), samples).pat)
  {
    RunPublishable(Initial(t0, level0), samples);
  }

  lemma {:induction false} RunPublishable(s: LedState, samples: seq<Sample>)
    requires Publishable(s.pat)
    ensures Publishable(Run(s, samples).pat)
    decreases |samples|
  {
    if samples != [] {
      var x := samples[0];
      PollPublishable(s, x.now, x.level, x.dirty);
      RunPublishable(PollStep(s, x.now, x.level, x.dirty), samples[1..]);
    }
  }

  /**
   * A full blink cycle is measured: starting with the LED on, an edge that ends
   * an on-phase of `on` ms followed by an edge that ends an off-phase of `off` ms
   * leaves both durations and their clamped sum, and publishes the cycle's class
   * whenever it fits a band, whatever was published before.
   */
  lemma CycleClassified(s: LedState, on: nat, off: nat)
    requires s.level == DvrLedOnLevel
    requires GlitchMs <= on < TWO16 && GlitchMs <= off < TWO16
    ensures
      var s2 := PollStep(PollStep(s, Add32(s.lastChangeMs, on), High, true), Add32(Add32(s.lastChangeMs, on), off), Low, true);
      s2.onMs == on && s2.offMs == off && s2.periodMs == ClampU16(on + off) &&
      (ClassifyPeriod(s2.periodMs, on, off) != DvrUnknown ==> s2.pat == ClassifyPeriod(s2.periodMs, on, off))
  {
    var t1 := Add32(s.lastChangeMs, on);
    var t2 := Add32(t1, off);
    ElapsedAfter(s.lastChangeMs, on);
    var s1 := PollStep(s, t1, High, true);
    assert s1.onMs == on && s1.lastChangeMs == t1 && s1.lastEdgeMs == t1 && s1.level == High;
    ElapsedAfter(t1, off);
    assert !Quiet(EdgeStep(s1, t2, Low, true), t2);
  }

  /** A cycle in the slow bands publishes SlowBlink, the DVR's recording signal. */
  lemma SlowCycleRecognised(s: LedState, on: nat, off: nat)
    requires s.level == DvrLedOnLevel
    requires InBand(on, SlowEdgeMinMs, SlowEdgeMaxMs) && InBand(off, SlowEdgeMinMs, SlowEdgeMaxMs)
    requires InBand(on + off, SlowMinMs, SlowMaxMs)
    ensures
      var s2 := PollStep(PollStep(s, Add32(s.lastChangeMs, on), High, true), Add32(Add32(s.lastChangeMs, on), off), Low, true);
      s2.pat == DvrSlowBlink && s2.onMs == on && s2.offMs == off && s2.periodMs == on + off
  {
    CycleClassified(s, on, off);
  }

  /** A cycle in the fast bands publishes FastBlink, the DVR's error signal. */
  lemma FastCycleRecognised(s: LedState, on: nat, off: nat)
    requires s.level == DvrLedOnLevel
    requires InBand(on, FastEdgeMinMs, FastEdgeMaxMs) && InBand(off, FastEdgeMinMs, FastEdgeMaxMs)
    requires InBand(on + off, FastMinMs, FastMaxMs)
    ensures
      var s2 := PollStep(PollStep(s, Add32(s.lastChangeMs, on), High, true), Add32(Add32(s.lastChangeMs, on), off), Low, true);
      s2.pat == DvrFastBlink && s2.onMs == on && s2.offMs == off && s2.periodMs == on + off
  {
    CycleClassified(s, on, off);
  }

  /** Elapsed time from `t` to `t + d` is `d`, for any `d` below 2^32. */
  lemma ElapsedAfter(t: U32, d: nat)
    requires d < TWO32
    ensures Elapsed(Add32(t, d), t) == d
  {
    ElapsedOfOffsets(t, 0, d);
  }

  /** The classifier's file-static state, updated in place by `dvr_led_poll`. */
  class Classifier {
    var dirty: bool
    var pat: DvrPattern
    var level: Level
    var lastEdgeMs: U32
    var lastChangeMs: U32
    var onMs: U16
    var offMs: U16
    var periodMs: U16

    ghost function State(): LedState
      reads this
    {
      LedState(pat, level, lastEdgeMs, lastChangeMs, onMs, offMs, periodMs)
    }

    /** `dvr_led_init`, given the level sampled at `now`. */
    constructor Init(now: U32, sampled: Level)
      ensures State() == Initial(now, sampled) && !dirty
    {
      dirty := false;
      pat := DvrUnknown;
      level := sampled;
      lastEdgeMs, lastChangeMs := now, now;
      onMs, offMs, periodMs := 0, 0, 0;
    }

    /** The pin-change interrupt: mark that the input changed at least once. */
    method OnPinChange()
      modifies this`dirty
      ensures dirty
    {
      dirty := true;
    }

    /** `dvr_led_poll(now)` with the level read from the sniffer pin. */
    method Poll(now: U32, sampled: Level)
      modifies this
      ensures !dirty
      ensures State() == PollStep(old(State()), now, sampled, old(dirty))
    {
      if dirty {
        dirty := false;
        if sampled != level {
          var dt := Elapsed(now, lastChangeMs);
          if dt >= GlitchMs {
            if level == DvrLedOnLevel {
              onMs := ClampU16(dt);
            } else {
              offMs := ClampU16(dt);
            }
            if onMs != 0 && offMs != 0 {
              periodMs := ClampU16(onMs + offMs);
              var perPat := ClassifyPeriod(periodMs, onMs, offMs);
              if perPat != DvrUnknown {
                pat := perPat;
              }
            }
            level := sampled;
            lastChangeMs := now;
            lastEdgeMs := now;
          }
        }
      }
      var quietMs := Elapsed(now, lastEdgeMs);
      if quietMs >= SolidMs {
        if sampled == DvrLedOnLevel {
          pat := DvrSolid;
        } else {
          pat := DvrOff;
        }
      }
    }

    /** `dvr_led_get_pattern`. */
    method GetPattern() returns (p: DvrPattern)
      ensures p == pat
    {
      p := pat;
    }
  }
}
