// Millisecond time as the firmware keeps it: an unsigned 32-bit counter that
// wraps around, and the helpers the modules build on it.
module Clock {
  import opened Vocabulary

  /** `a + b` in uint32_t arithmetic. */
  function Add32(a: U32, b: nat): (r: U32)
    ensures (r - a - b) % TWO32 == 0
  {
    (a + b) % TWO32
  }

  /** `(uint32_t)(now - since)`: the time elapsed since `since`, modulo 2^32. */
  function Elapsed(now: U32, since: U32): (d: U32)
    ensures Add32(since, d) == now
  {
    (now - since) % TWO32
  }

  /**
   * The wrap-safe deadline test `(int32_t)(now - deadline) >= 0` of
   * src/controller_fsm.cpp, src/drv_dvr_status.cpp and src/drv_dvr_led.cpp:
   * the signed 32-bit difference is non-negative exactly when the unsigned
   * difference is below 2^31.
   */
  predicate TimeReached(now: U32, deadline: U32) {
    Elapsed(now, deadline) < TWO31
  }

  /** `(v > 0xFFFF) ? 0xFFFF : v`: saturate a duration to 16 bits. */
  function ClampU16(v: nat): (r: U16)
    ensures r <= v
    ensures r == v || r == TWO16 - 1
  {
    if v > TWO16 - 1 then TWO16 - 1 else v
  }

  /** An 8-bit counter that saturates at 255. */
  function SatInc8(c: U8): (r: U8)
    ensures c < TWO8 - 1 ==> r == c + 1
    ensures c == TWO8 - 1 ==> r == c
  {
    if c < TWO8 - 1 then c + 1 else c
  }

  /** A deadline set `delay` ms after `t` is reached `delay` ms after `t`, and for 2^31 - delay ms more. */
  lemma ReachedAfterDelay(t: U32, delay: nat, extra: nat)
    requires delay + extra < TWO31
    ensures TimeReached(Add32(t, delay + extra), Add32(t, delay))
  {
    var now, deadline := Add32(t, delay + extra), Add32(t, delay);
    ElapsedOfOffsets(t, delay, delay + extra);
  }

  /** ... and it is not reached at any earlier time after `t`, even across the wrap of the counter. */
  lemma NotReachedBeforeDelay(t: U32, delay: nat, early: nat)
    requires early < delay <= TWO31
    ensures !TimeReached(Add32(t, early), Add32(t, delay))
  {
    ElapsedOfOffsets(t, delay, early);
  }

  /** The elapsed time between two offsets from the same origin is their difference modulo 2^32. */
  lemma ElapsedOfOffsets(t: U32, a: nat, b: nat)
    requires a < TWO32 && b < TWO32
    ensures Elapsed(Add32(t, b), Add32(t, a)) == (b - a) % TWO32
  {
    var x, y := (t + b) % TWO32, (t + a) % TWO32;
    assert (t + b) - x == TWO32 * ((t + b) / TWO32);
    assert (t + a) - y == TWO32 * ((t + a) / TWO32);
    ModShift(x - y, b - a, (t + b) / TWO32 - (t + a) / TWO32);
  }

  /** Two successive offsets add up. */
  lemma Add32Add(a: U32, b: nat, c: nat)
    ensures Add32(Add32(a, b), c) == Add32(a, b + c)
  {
    var x := (a + b) % TWO32;
    assert (a + b) - x == TWO32 * ((a + b) / TWO32);
    ModShift(x + c, a + b + c, (a + b) / TWO32);
  }

  lemma ModShift(u: int, v: int, k: int)
    requires u == v - TWO32 * k
    ensures u % TWO32 == v % TWO32
  {
  }
}
