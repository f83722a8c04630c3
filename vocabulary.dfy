// The controller's shared vocabulary: the enumerations of include/enums.h and
// src/enums.h, the timing constants of include/timings.h, the ADC cut-points of
// include/thresholds.h and the queue sizes of include/config.h.
//
// Events and actions are modelled as tagged unions: the payload that the firmware
// packs into arg0/arg1 travels inside the variant, and the audit-only fields
// (timestamp, source, reason) are not represented.
module Vocabulary {

  // ---------------------------------------------------------------------------
  // Fixed-width integers
  // ---------------------------------------------------------------------------

  const TWO8: int := 0x100
  const TWO16: int := 0x1_0000
  const TWO31: int := 0x8000_0000
  const TWO32: int := 0x1_0000_0000

  type U8 = x: int | 0 <= x < TWO8
  type U16 = x: int | 0 <= x < TWO16
  type U32 = x: int | 0 <= x < TWO32

  // ---------------------------------------------------------------------------
  // Electrical polarity (src/pins.h, src/dvr_led.cpp)
  // ---------------------------------------------------------------------------

  /** A sampled digital input level. */
  datatype Level = Low | High

  /** The LTC2954 INT# line is active-low: a pressed button reads Low. */
  const LtcIntAssertLevel: Level := Low

  /** The DVR status mirror input reads Low while the DVR's LED is on (src/dvr_led.cpp:11-12). */
  const DvrLedOnLevel: Level := Low

  // ---------------------------------------------------------------------------
  // Enumerations (include/enums.h, src/enums.h)
  // ---------------------------------------------------------------------------

  /** The LED classifier's interpretation of the DVR status LED. */
  datatype DvrPattern =
    | DvrUnknown
    | DvrOff
    | DvrSolid
    | DvrSlowBlink
    | DvrFastBlink
    | DvrAbnormalBoot

  datatype BatteryState = BatUnknown | BatFull | BatHalf | BatLow | BatCritical

  datatype ControllerState =
    | StateOff
    | StateBooting
    | StateIdle
    | StateRecording
    | StateLowBat
    | StateError
    | StateLockout

  datatype ErrorCode =
    | ErrNone
    | ErrDvrBootTimeout
    | ErrDvrAbnormalBoot
    | ErrDvrCardError
    | ErrBatCritical
    | ErrBatLockout
    | ErrIllegalState
    | ErrUnexpectedEvent
    | ErrUnexpectedLedPattern

  datatype BeepPattern = BeepNone | BeepSingle | BeepDouble | BeepTriple | BeepErrorFast | BeepLowBat

  /** The controller's own status-LED patterns (src/enums.h numbering, LED_NONE included). */
  datatype LedPattern = LedNone | LedOff | LedSolid | LedSlowBlink | LedFastBlink | LedLockoutPattern | LedErrorPattern

  datatype ResultCode = RetOk | RetWait | RetRetry | RetFail

  /** An entry of the event queue (event ids of include/enums.h). */
  datatype Event =
    | EvLtcIntAsserted
    | EvLtcIntDeasserted
    | EvBtnShortPress(pressMs: U16)
    | EvBtnLongPress(pressMs: U16)
    | EvDvrLedPatternChanged(pattern: DvrPattern)
    | EvDvrLedEdgeOn
    | EvDvrLedEdgeOff
    | EvBatStateChanged(state: BatteryState, adc: U16)
    | EvBatLockoutEnter(state: BatteryState, adc: U16)
    | EvBatLockoutExit(state: BatteryState, adc: U16)
    | EvDvrPoweredOnIdle
    | EvDvrRecordStarted
    | EvDvrRecordStopped
    | EvDvrPoweredOff
    | EvDvrError(code: ErrorCode, lastPattern: DvrPattern)

  /** An entry of the action queue. */
  datatype Action =
    | ActBeep(beep: BeepPattern)
    | ActLedPattern(led: LedPattern)
    | ActDvrPressShort
    | ActDvrPressLong
    | ActLtcKillAssert
    | ActLtcKillDeassert
    | ActClearPending
    | ActEnterLockout
    | ActExitLockout

  // ---------------------------------------------------------------------------
  // Sizes (include/config.h)
  // ---------------------------------------------------------------------------

  const EventQueueSize: nat := 16
  const ActionQueueSize: nat := 8
  const BatterySampleMs: nat := 250

  // ---------------------------------------------------------------------------
  // Timings (include/timings.h)
  // ---------------------------------------------------------------------------

  const BtnDebounceMs: nat := 35
  const BtnShortMinMs: nat := 50
  const BtnGraceMs: nat := 500

  const BootTimeoutMs: nat := 8000

  const DvrPressShortMs: nat := 500
  const DvrPressLongMs: nat := 3000
  const DvrPressGapMs: nat := 500
  const DvrAfterPwrOnMs: nat := 2500
  const DvrAfterPwrOffMs: nat := 2500
  const DvrBootPressMs: nat := 3000

  const SolidMs: nat := 1500

  const SlowMinMs: nat := 700
  const SlowMaxMs: nat := 1800
  const SlowEdgeMinMs: nat := 150
  const SlowEdgeMaxMs: nat := 1200

  const FastMinMs: nat := 80
  const FastMaxMs: nat := 450
  const FastEdgeMinMs: nat := 20
  const FastEdgeMaxMs: nat := 250

  // ---------------------------------------------------------------------------
  // Battery ADC cut-points, raw counts (include/thresholds.h)
  // ---------------------------------------------------------------------------

  const AdcFull: nat := 548
  const AdcHalf: nat := 495
  const AdcLow: nat := 475
  const AdcLockoutEnter: nat := 455
  const AdcLockoutExit: nat := 475
}
