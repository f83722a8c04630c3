// The bridge of src/drv_dvr_led.cpp between the LED classifier and the event
// queue. It publishes EV_DVR_LED_PATTERN_CHANGED only for a classified pattern
// that has been seen on two consecutive polls, differs from the last one
// published, and comes at least 30 ms after the previous publication.
module DrvDvrLed {
  import opened Vocabulary
  import opened Clock
  import EventQueue
  import DvrLed

  const MinEmitSpacingMs: nat := 30
  const StableReq: nat := 2

  /** The bridge's variables (src/drv_dvr_led.cpp:31-36). */
  datatype BridgeState = BridgeState(
    reported: DvrPattern,
    candidate: DvrPattern,
    count: U8,
    lastEmitMs: U32,
    lastChangeMs: U32)

  /** `drv_dvr_led_init`: nothing reported, no candidate, time zero. */
  const Initial: BridgeState := BridgeState(DvrUnknown, DvrUnknown, 0, 0, 0)

  /** Whether a poll that reads pattern `p` publishes it. */
  predicate Emits(s: BridgeState, now: U32, p: DvrPattern) {
    p == s.candidate && SatInc8(s.count) >= StableReq && p != s.reported &&
    TimeReached(now, Add32(s.lastEmitMs, MinEmitSpacingMs))
  }

  /** The filter of `drv_dvr_led_poll`, given the pattern the classifier now reports. */
  function FilterStep(s: BridgeState, now: U32, p: DvrPattern): (r: BridgeState)
    // A new pattern restarts the count and is never published on that poll.
    ensures p != s.candidate ==> r == s.(candidate := p, count := 1) && !Emits(s, now, p)
    ensures p == s.candidate ==> r.candidate == p && r.count == SatInc8(s.count)
    // Publishing records the pattern and the time; otherwise neither moves.
    ensures Emits(s, now, p) ==> r.reported == p && r.lastEmitMs == now && r.lastChangeMs == now
    ensures !Emits(s, now, p) ==>
      r.reported == s.reported && r.lastEmitMs == s.lastEmitMs && r.lastChangeMs == s.lastChangeMs
  {
    if p != s.candidate then s.(candidate := p, count := 1)
    else
      var s1 := s.(count := SatInc8(s.count));
      if Emits(s, now, p) then s1.(reported := p, lastEmitMs := now, lastChangeMs := now) else s1
  }

  /** The events a poll pushes: one pattern-changed event, or none. */
  function Emitted(s: BridgeState, now: U32, p: DvrPattern): (es: seq<Event>)
    ensures |es| <= 1
    ensures es != [] <==> Emits(s, now, p)
    ensures es != [] ==> es[0] == EvDvrLedPatternChanged(p)
  {
    if Emits(s, now, p) then [EvDvrLedPatternChanged(p)] else []
  }

  /**
   * The filter's count agrees with the patterns read so far: the last `count`
   * readings all equal the candidate.
   */
  ghost predicate Agrees(s: BridgeState, seen: seq<DvrPattern>) {
    s.count <= |seen| && forall k :: |seen| - s.count <= k < |seen| ==> seen[k] == s.candidate
  }

  /** Every poll keeps the count in agreement with the readings. */
  lemma FilterKeepsAgreement(s: BridgeState, seen: seq<DvrPattern>, now: U32, p: DvrPattern)
    requires Agrees(s, seen)
    ensures Agrees(FilterStep(s, now, p), seen + [p])
  {
    var r := FilterStep(s, now, p);
    var seen' := seen + [p];
    forall k | |seen'| - r.count <= k < |seen'|
      ensures seen'[k] == r.candidate
    {
      if k < |seen| {
        assert seen'[k] == seen[k];
      }
    }
  }

  /** A pattern is published only after it was also read on the poll before. */
  lemma EmitNeedsTwoPolls(s: BridgeState, seen: seq<DvrPattern>, now: U32, p: DvrPattern)
    requires Agrees(s, seen)
    requires Emits(s, now, p)
    ensures |seen| >= 1 && seen[|seen| - 1] == p
  {
    assert s.count >= 1;
    assert seen[|seen| - 1] == s.candidate;
  }

  /** Right after a publication the next poll cannot publish: the candidate equals what was just reported. */
  lemma NoBackToBackEmit(s: BridgeState, now: U32, p: DvrPattern, later: U32, q: DvrPattern)
    requires Emits(s, now, p)
    ensures !Emits(FilterStep(s, now, p), later, q)
  {
  }

  /** One poll's input to the filter. */
  datatype Reading = Reading(now: U32, pattern: DvrPattern)

  /** The filter state after a run of polls, the last reading applied last. */
  function RunFilter(s: BridgeState, rs: seq<Reading>): BridgeState
    decreases |rs|
  {
    if rs == [] then s
    else
      var last := rs[|rs| - 1];
      FilterStep(RunFilter(s, rs[..|rs| - 1]), last.now, last.pattern)
  }

  /** Whether no poll of the run publishes. */
  predicate Silent(s: BridgeState, rs: seq<Reading>) {
    forall i :: 0 <= i < |rs| ==> !Emits(RunFilter(s, rs[..i]), rs[i].now, rs[i].pattern)
  }

  /** Polls that publish nothing leave the reported pattern and the last publication time alone. */
  lemma {:induction false} SilentRunKeepsReport(s: BridgeState, rs: seq<Reading>)
    requires Silent(s, rs)
    ensures RunFilter(s, rs).reported == s.reported
    ensures RunFilter(s, rs).lastEmitMs == s.lastEmitMs
    decreases |rs|
  {
    if rs != [] {
      var init := rs[..|rs| - 1];
      forall i | 0 <= i < |init|
        ensures !Emits(RunFilter(s, init[..i]), init[i].now, init[i].pattern)
      {
        assert init[..i] == rs[..i];
        assert init[i] == rs[i];
      }
      SilentRunKeepsReport(s, init);
      assert rs[..|rs| - 1] == init;
    }
  }

  /**
   * Rate limit: after a publication at `now`, whatever polls follow without
   * publishing, the next publication is at least 30 ms later on the wrapping clock.
   */
  lemma EmissionsSpaced(s: BridgeState, now: U32, p: DvrPattern, rs: seq<Reading>, later: U32, q: DvrPattern)
    requires Emits(s, now, p)
    requires Silent(FilterStep(s, now, p), rs)
    requires Emits(RunFilter(FilterStep(s, now, p), rs), later, q)
    ensures TimeReached(later, Add32(now, MinEmitSpacingMs))
  {
    SilentRunKeepsReport(FilterStep(s, now, p), rs);
  }

  /** The bridge, which owns the classifier and keeps it polled. */
  class Bridge {
    const led: DvrLed.Classifier
    var reported: DvrPattern
    var candidate: DvrPattern
    var count: U8
    var lastEmitMs: U32
    var lastChangeMs: U32
    /** The patterns read from the classifier, one per poll. */
    ghost var seen: seq<DvrPattern>

    ghost function State(): BridgeState
      reads this
    {
      BridgeState(reported, candidate, count, lastEmitMs, lastChangeMs)
    }

    ghost predicate Valid()
      reads this
    {
      Agrees(State(), seen)
    }

    /** `drv_dvr_led_init`, with the sniffer level read at `now`. */
    constructor Init(now: U32, sampled: Level)
      ensures Valid() && State() == Initial && seen == []
      ensures fresh(led) && led.State() == DvrLed.Initial(now, sampled) && !led.dirty
    {
      led := new DvrLed.Classifier.Init(now, sampled);
      reported, candidate, count := DvrUnknown, DvrUnknown, 0;
      lastEmitMs, lastChangeMs := 0, 0;
      seen := [];
    }

    /** The stability and rate-limit filter, given the pattern the classifier reports. */
    method Filter(now: U32, p: DvrPattern, q: EventQueue.Queue)
      requires Valid() && q.Valid()
      modifies this, q, q.buf
      ensures Valid() && q.Valid()
      ensures State() == FilterStep(old(State()), now, p)
      ensures seen == old(seen) + [p]
      ensures q.Contents() == EventQueue.PushAll(old(q.Contents()), Emitted(old(State()), now, p))
      ensures Emits(old(State()), now, p) ==> |old(seen)| >= 1 && old(seen)[|old(seen)| - 1] == p
    {
      ghost var s0 := State();
      FilterKeepsAgreement(s0, seen, now, p);
      if Emits(s0, now, p) {
        EmitNeedsTwoPolls(s0, seen, now, p);
      }
      seen := seen + [p];
      if p != candidate {
        candidate := p;
        count := 1;
        return;
      }
      if count < 255 {
        count := count + 1;
      }
      if count < StableReq {
        return;
      }
      if candidate == reported {
        return;
      }
      if !TimeReached(now, Add32(lastEmitMs, MinEmitSpacingMs)) {
        return;
      }
      reported := candidate;
      lastEmitMs := now;
      lastChangeMs := now;
      var _ := q.Push(EvDvrLedPatternChanged(reported));
    }

    /** `drv_dvr_led_poll`: poll the classifier, then filter the pattern it reports. */
    method Poll(now: U32, sampled: Level, q: EventQueue.Queue)
      requires Valid() && q.Valid()
      modifies this, led, q, q.buf
      ensures Valid() && q.Valid()
      ensures led.State() == DvrLed.PollStep(old(led.State()), now, sampled, old(led.dirty))
      ensures State() == FilterStep(old(State()), now, led.pat)
      ensures q.Contents() == EventQueue.PushAll(old(q.Contents()), Emitted(old(State()), now, led.pat))
    {
      led.Poll(now, sampled);
      var p := led.GetPattern();
      Filter(now, p, q);
    }

    /** `drv_dvr_led_last_pattern`. */
    method LastPattern() returns (p: DvrPattern)
      ensures p == reported
    {
      p := reported;
    }

    /** `drv_dvr_led_last_change_ms`. */
    method LastChangeMs() returns (t: U32)
      ensures t == lastChangeMs
    {
      t := lastChangeMs;
    }
  }
}
