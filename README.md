# DVR controller firmware: a Dafny model

This project models the control core of an Arduino firmware that runs a dash
camera (DVR). The DVR has a single push button and a status LED. The firmware
sits beside the camera and does five things:

- decodes the user's button (a short tap or a long press) from the power
  controller's INT# line;
- watches the battery through an ADC and reports battery states with
  hysteresis, including a lockout;
- reads the DVR's own status LED by timing its edges, and turns the blink
  patterns into semantic events (powered on, recording started or stopped,
  card error);
- runs a controller state machine (Off, Booting, Idle, Recording, LowBat,
  Error, Lockout) fed by those events;
- drives a status LED and a buzzer through an action executor, and presses
  the DVR's button through a timed press stepper.

Everything flows through two bounded drop-new queues: an event queue of 16
slots holding at most 15 events, and an action queue of 8.

Each source file of the core is one module:

- `vocabulary.dfy`: events, actions, enums, thresholds and timings.
- `clock.dfy`: 32-bit millisecond arithmetic, including the wrap-safe
  deadline test.
- `fifo.dfy`: the drop-new push rule shared by both queues.

The imperative files are classes whose fields are the file's static
variables. Each class method is proved against a pure step function, and the
properties are proved as lemmas about those functions. For example, the
state after `Poll` is `PollStep` of the state before, and the queue holds the
old contents with `PollStep`'s events pushed drop-new. The hardware reads a
poll would make (pin levels, ADC samples, `millis()`) are parameters.

## Model

| member | source | states |
|---|---|---|
| Clock.Add32 | src/controller_fsm.cpp:334-338 | the 32-bit sum: congruent to a + b modulo 2^32 |
| Clock.Elapsed | src/button.cpp:71-77 | `now - since` in uint32_t: the unique 32-bit d with since + d wrapping to now |
| Clock.TimeReached | src/controller_fsm.cpp:49-52 | the signed-difference deadline test, shared with src/drv_dvr_status.cpp:51-54 and src/drv_dvr_led.cpp:41-44: through ReachedAfterDelay and NotReachedBeforeDelay, a deadline `d` ms after `t` is reached from `t + d` for 2^31 - d ms and not before, across the wrap |
| Clock.ClampU16 | src/button.cpp:43-46 | saturation to 16 bits: never more than the input, and either the input or 0xFFFF |
| Clock.SatInc8 | src/drv_dvr_led.cpp:101-102 | an 8-bit counter that increments below 255 and sticks at 255 |
| Clock.ReachedAfterDelay | src/controller_fsm.cpp:49-52 | the wrap-safe test reports a deadline t + delay reached at t + delay and for 2^31 - delay ms after |
| Clock.NotReachedBeforeDelay | src/controller_fsm.cpp:49-52 | the wrap-safe test never reports t + delay reached at an earlier t + early, even across the wrap of the counter |
| Clock.ElapsedOfOffsets | src/button.cpp:71-77 | the time elapsed between two offsets from one origin is their difference modulo 2^32 |
| Clock.Add32Add | src/controller_fsm.cpp:334-338 | successive uint32 additions compose |
| Fifo.Accepted | src/action_queue.h:6 | how many of a batch a drop-new queue accepts: never more than the batch |
| Fifo.PushOne | src/event_queue.cpp:84-100 | one push appends when there is room and leaves the queue unchanged when it is full |
| Fifo.PushAllKeepsOldest | src/action_queue.h:6 | drop-new: the pushed items that fit are appended in order, and every later one is dropped |
| Fifo.PushAllAppend | src/event_queue.cpp:108-120 | pushing a batch then another is pushing their concatenation |
| Fifo.PushAllBounded | src/event_queue.cpp:90-94 | pushes never take a queue past its capacity |
| EventQueue.NextIndex | src/event_queue.cpp:16-21 | the ring index advances by one and wraps at 16 |
| EventQueue.Ring | src/event_queue.cpp:66-81 | the stored events between tail and head: (head - tail) mod 16 of them, at most 15, none exactly when head equals tail |
| EventQueue.Queue.Init | src/event_queue.cpp:23-37 | an empty queue with a zero drop count |
| EventQueue.Queue.Clear | src/event_queue.cpp:39-53 | the queue is empty, both indices are 0 and the drop count is reset |
| EventQueue.Queue.Count | src/event_queue.cpp:66-81 | the number of stored events, equal to (head - tail) mod 16 and below 16 |
| EventQueue.Queue.Dropped | src/event_queue.cpp:55-64 | the drop counter |
| EventQueue.Queue.PushCore | src/event_queue.cpp:84-100 | succeeds exactly when advancing head would not reach tail, that is, when fewer than 15 events are stored; on success the event is appended, otherwise the contents and buffer are unchanged and the uint16 drop count wraps up by one |
| EventQueue.Queue.PushIsr | src/event_queue.cpp:102-106 | the same effect as push_core: the contents become the drop-new push of the event |
| EventQueue.Queue.Push | src/event_queue.cpp:108-120 | the same effect as push_core, with interrupts masked |
| EventQueue.Queue.Pop | src/event_queue.cpp:122-148 | succeeds exactly when the queue is non-empty, returns the oldest event and removes only it; head and the drop count are unchanged |
| ActionQueue.Queue.Init | src/action_queue.h:25 | an empty queue with a zero drop count |
| ActionQueue.Queue.Clear | src/action_queue.h:34 | the queue is emptied and the drop count reset |
| ActionQueue.Queue.Push | src/action_queue.h:6 | accepts exactly when fewer than 8 actions are queued, appending the action; a refusal leaves the queue and counts one more drop |
| ActionQueue.Queue.Pop | src/action_queue.h:30 | succeeds exactly when non-empty, returning the oldest action and removing only it |
| ActionQueue.Queue.Count | src/action_queue.h:32 | the number of queued actions, at most 8 |
| DvrLed.ClassifyPeriod | src/dvr_led.cpp:46-63 | fast blink exactly for a fast-shaped cycle, slow blink exactly for a slow-shaped one, Unknown otherwise |
| DvrLed.BandsDisjoint | src/dvr_led.cpp:46-63 | no cycle is both fast-shaped and slow-shaped, so the order of the two tests does not matter |
| DvrLed.Initial | src/dvr_led.cpp:65-85 | Unknown, the sampled level, and no measured durations |
| DvrLed.EdgeStep | src/dvr_led.cpp:97-141 | an edge is taken only when the interrupt flagged a change, the level differs and the glitch filter passes; the ended level's duration, clamped to 16 bits, becomes the on- or off-time; once both are known, the period is set to their clamped sum and the classification is published unless it is Unknown, which leaves the pattern as it was |
| DvrLed.QuietStep | src/dvr_led.cpp:153-167 | after 1500 ms with no edge, the LED is Solid when the line reads low and Off when it reads high; only the pattern changes |
| DvrLed.PollStep | src/dvr_led.cpp:87-175 | one poll is the edge step, then the quiet-time rule on the same sample; PollPublishable, CycleClassified, SlowCycleRecognised and FastCycleRecognised state its effect |
| DvrLed.PollPublishable | src/dvr_led.cpp:87-175 | a poll never moves to AbnormalBoot |
| DvrLed.NeverAbnormalBoot | src/dvr_led.cpp:65-175 | from init, no sequence of polls ever reports AbnormalBoot |
| DvrLed.RunPublishable | src/dvr_led.cpp:87-175 | any run of polls keeps the pattern publishable |
| DvrLed.SlowCycleRecognised | src/dvr_led.cpp:97-141 | an on-phase edge and an off-phase edge with durations in the slow band make the classifier report slow blink |
| DvrLed.CycleClassified | src/dvr_led.cpp:97-135 | an on-phase then an off-phase, each ended by an accepted edge, leaves both durations and their clamped sum, and publishes the cycle's class whenever it fits a band, whatever was published before |
| DvrLed.FastCycleRecognised | src/dvr_led.cpp:46-63 | an on/off pair in the fast bands publishes FastBlink, the pattern that arms the card-error timer |
| DvrLed.Classifier.Init | src/dvr_led.cpp:65-85 | the initial state, with no pending change |
| DvrLed.Classifier.OnPinChange | src/dvr_led.cpp:41-44 | the interrupt marks a pending change |
| DvrLed.Classifier.Poll | src/dvr_led.cpp:87-175 | the new state is the poll step of the old one with the consumed flag; the flag is cleared |
| DvrLed.Classifier.GetPattern | src/dvr_led.cpp:177-180 | the current pattern |
| DrvDvrLed.FilterStep | src/drv_dvr_led.cpp:86-120 | a new pattern restarts the candidate count at 1 and is never published on that poll; a repeat saturates the count; a publication sets the reported pattern and both timestamps; otherwise nothing reported changes |
| DrvDvrLed.Emitted | src/drv_dvr_led.cpp:57-68 | at most one pattern-changed event, carrying the pattern, exactly when the filter publishes |
| DrvDvrLed.FilterKeepsAgreement | src/drv_dvr_led.cpp:94-105 | the filter's count stays truthful: the last count readings all equal the candidate |
| DrvDvrLed.EmitNeedsTwoPolls | src/drv_dvr_led.cpp:104-109 | a published pattern was also read on the poll before |
| DrvDvrLed.NoBackToBackEmit | src/drv_dvr_led.cpp:108-119 | the poll right after a publication cannot publish |
| DrvDvrLed.SilentRunKeepsReport | src/drv_dvr_led.cpp:108-119 | polls that publish nothing keep the reported pattern and the last publication time |
| DrvDvrLed.EmissionsSpaced | src/drv_dvr_led.cpp:112-113 | after a publication, the next one is at least 30 ms later on the wrapping clock |
| DrvDvrLed.Bridge.Init | src/drv_dvr_led.cpp:74-84 | the classifier initialised at the sampled level, the filter at Unknown |
| DrvDvrLed.Bridge.Filter | src/drv_dvr_led.cpp:94-119 | the filter step of the old state, the reading appended to the history, the event (if any) pushed, and a publication only of the previous reading |
| DrvDvrLed.Bridge.Poll | src/drv_dvr_led.cpp:86-120 | the classifier polled, then its pattern filtered and the event pushed |
| DrvDvrLed.Bridge.LastPattern | src/drv_dvr_led.cpp:122-125 | the reported pattern |
| DrvDvrLed.Bridge.LastChangeMs | src/drv_dvr_led.cpp:127-130 | the time of the last publication |
| DrvDvrStatus.LedPatterns | src/drv_dvr_status.cpp:161-175 | the patterns of the LED events of a sequence, in order |
| DrvDvrStatus.NonLed | src/drv_dvr_status.cpp:176-179 | the other events of a sequence, in order |
| DrvDvrStatus.NonLedIsClean | src/drv_dvr_status.cpp:176-183 | the stashed events contain no LED event |
| DrvDvrStatus.Disarm | src/drv_dvr_status.cpp:86-91 | `disarm_fast_persist`; through PatternChange: every pattern other than a fast blink leaves the timer disarmed with the latch clear |
| DrvDvrStatus.Arm | src/drv_dvr_status.cpp:79-84 | `arm_fast_persist`; through PatternChange: entering a fast blink unarmed sets the deadline 8000 ms ahead with the latch clear |
| DrvDvrStatus.TimerStep | src/drv_dvr_status.cpp:126-151 | the fault-timer rule; through PatternChange and FastKeepsEpisode: a new fast-blink episode arms, a continuing one keeps its deadline and latch, anything else disarms |
| DrvDvrStatus.CleanIsFixed | src/drv_dvr_status.cpp:176-183 | a sequence without LED events is stashed whole and carries no pattern |
| DrvDvrStatus.PatternChange | src/drv_dvr_status.cpp:93-151 | the recording flag follows slow blink; RecordStarted exactly on entering it and RecordStopped exactly on leaving it; PoweredOff exactly for Off; PoweredOnIdle exactly for Solid; a fast blink arms the fault timer or keeps an armed one; any other pattern disarms it; at most two events, none an LED event |
| DrvDvrStatus.LedEvent | src/drv_dvr_status.cpp:164-173 | a repeat of the last pattern is absorbed; a new one runs the pattern-change reaction and becomes the last pattern |
| DrvDvrStatus.Interpret | src/drv_dvr_status.cpp:161-180 | the LED events of a drain, applied in order, emit no LED event |
| DrvDvrStatus.InterpretLast | src/drv_dvr_status.cpp:161-180 | interpreting one more pattern extends the drain by that pattern's reaction |
| DrvDvrStatus.CardCheck | src/drv_dvr_status.cpp:203-216 | once an armed, unreported fast blink reaches its deadline, one card error with the last pattern is reported and latched; otherwise nothing happens |
| DrvDvrStatus.FastKeepsEpisode | src/drv_dvr_status.cpp:137-151 | repeated fast-blink events keep the armed deadline and the one-shot latch |
| DrvDvrStatus.CardErrorOnce | src/drv_dvr_status.cpp:203-216 | the card error is reported once per fast-blink episode, however many fast-blink events and checks follow |
| DrvDvrStatus.CardErrorNotEarly | src/drv_dvr_status.cpp:74-84 | a fast blink that starts an episode is not reported before 8000 ms have passed |
| DrvDvrStatus.DrainedQueueClean | src/drv_dvr_status.cpp:182-183 | after a lossless drain the queue holds only the re-queued non-LED events |
| DrvDvrStatus.DrainOrder | src/drv_dvr_status.cpp:161-183 | the old non-LED events are re-queued first and the new semantic events after them |
| DrvDvrStatus.Interpreter.Init | src/drv_dvr_status.cpp:189-196 | the initial interpreter: Unknown pattern, not recording, timer disarmed |
| DrvDvrStatus.Interpreter.ArmFastPersist | src/drv_dvr_status.cpp:79-84 | arms the fault timer 8000 ms ahead and clears the one-shot latch |
| DrvDvrStatus.Interpreter.DisarmFastPersist | src/drv_dvr_status.cpp:86-91 | disarms the fault timer |
| DrvDvrStatus.Interpreter.OnPatternChanged | src/drv_dvr_status.cpp:93-151 | the pattern-change reaction applied, its events pushed drop-new |
| DrvDvrStatus.Interpreter.HandleLedEvent | src/drv_dvr_status.cpp:164-173 | the LED-event reaction applied, its events pushed |
| DrvDvrStatus.Interpreter.PollLedPatternEvents | src/drv_dvr_status.cpp:154-184 | every popped LED event is interpreted in order; with nothing lost, the queue ends holding the popped non-LED events in order; if the stash overflows, only its first 16 are re-queued |
| DrvDvrStatus.Interpreter.DrainQueue | src/drv_dvr_status.cpp:161-180 | the queue is emptied; what was popped, interpreted in order, gives the new state; the stash holds the popped non-LED events in order, or its first 16 when one more arrived |
| DrvDvrStatus.SplitAppend | src/drv_dvr_status.cpp:161-180 | splitting a drain into LED patterns and stashed events distributes over concatenation |
| DrvDvrStatus.Interpreter.DrainOne | src/drv_dvr_status.cpp:161-180 | pops the oldest event; an LED event is interpreted and its reaction pushed, any other is stashed unless the stash is full |
| DrvDvrStatus.Interpreter.Requeue | src/drv_dvr_status.cpp:182-183 | the stashed events are pushed back in order |
| DrvDvrStatus.Interpreter.Poll | src/drv_dvr_status.cpp:198-217 | every event taken from the queue is accounted for; the popped LED events are interpreted in order; the queue holds the popped non-LED events re-queued in order (only the first 16 when the stash overflowed), then the card error if the one-shot check reports it, pushed drop-new |
| DrvDvrStatus.Interpreter.LastLedPattern | src/drv_dvr_status.cpp:219-222 | the last interpreted pattern |
| DrvDvrStatus.Interpreter.RecordingAssumed | src/drv_dvr_status.cpp:224-227 | the recording latch |
| ControllerFsm.EnterStep | src/controller_fsm.cpp:73-80 | enters the new state; re-entering the current state does nothing; otherwise only the state and the UI memory change |
| ControllerFsm.ErrorStep | src/controller_fsm.cpp:82-87 | records the error and enters the state, keeping battery, lockout and boot deadline, and sends the fast error beep |
| ControllerFsm.ClearedError | src/controller_fsm.cpp:90-95 | the error is cleared exactly when moving to a state other than Error or Lockout, and is otherwise kept |
| ControllerFsm.BatteryStep | src/controller_fsm.cpp:100-137 | only a state report changes the battery state and only the lockout events change the lockout flag; the state moves only to LowBat, Lockout or Off; non-battery events change nothing |
| ControllerFsm.PowerOffStep | src/controller_fsm.cpp:188-192 | ends in Off with no error, a long DVR press sent first; battery, lockout and boot deadline kept |
| ControllerFsm.ButtonStep | src/controller_fsm.cpp:143-243 | non-gestures and gestures under lockout change nothing; a gesture boots, powers off or leaves the state; Booting is entered only by a short press in Off, with the 8000 ms deadline |
| ControllerFsm.DvrStep | src/controller_fsm.cpp:249-312 | non-DVR events change nothing; under lockout only a DVR error is acted on; battery, lockout and boot deadline kept |
| ControllerFsm.EventStep | src/controller_fsm.cpp:341-368 | events no handler takes change nothing; only battery events move the battery state or the lockout flag |
| ControllerFsm.BootCheck | src/controller_fsm.cpp:332-338 | the state changes exactly when a boot outside lockout has reached its deadline, and then to Error with the boot-timeout code; otherwise nothing happens |
| ControllerFsm.Drain | src/controller_fsm.cpp:341-368 | a drain without battery events keeps the battery state and the lockout flag; DrainGood and DrainTurn relate it to the poll loop |
| ControllerFsm.PollStep | src/controller_fsm.cpp:330-371 | a poll without battery events keeps the battery state and the lockout flag; PollGood shows it keeps the controller consistent |
| ControllerFsm.LockoutEnterDominates | src/controller_fsm.cpp:117-122 | battery lockout, from any state, enters Lockout with the lockout error |
| ControllerFsm.LockoutExitGoesOff | src/controller_fsm.cpp:125-132 | leaving lockout clears the flag and the error and enters Off |
| ControllerFsm.LockoutIgnoresGestures | src/controller_fsm.cpp:152-153 | during lockout a button gesture changes nothing and sends nothing |
| ControllerFsm.CriticalBatteryMeansLowBat | src/controller_fsm.cpp:104-114 | a critical battery outside lockout enters LowBat with the critical-battery error, from any state |
| ControllerFsm.OffPresses | src/controller_fsm.cpp:157-168 | in Off a short press powers the DVR on and enters Booting with the deadline 8000 ms ahead; a long press does nothing |
| ControllerFsm.RunningPresses | src/controller_fsm.cpp:171-237 | Booting ignores presses; a short press in Idle or Recording presses the DVR briefly; LowBat ignores a short press; a long press in Idle, Recording, LowBat or Error powers off |
| ControllerFsm.BootCompletesOnlyFromBooting | src/controller_fsm.cpp:253-265 | the DVR's idle report moves to Idle from another state exactly when booting and not locked out |
| ControllerFsm.DvrErrorAlwaysEntersError | src/controller_fsm.cpp:300-307 | a DVR error enters Error with its code, even during lockout |
| ControllerFsm.BootTimeoutFallsBack | src/controller_fsm.cpp:334-338 | a boot that reaches its deadline becomes the boot-timeout error |
| ControllerFsm.BootTimeoutNotEarly | src/controller_fsm.cpp:157-168 | a boot started by a short press does not time out within 8000 ms, even across the wrap of the clock |
| ControllerFsm.InitialGood | src/controller_fsm.cpp:318-328 | the state after init is consistent with the UI policy |
| ControllerFsm.StateChangeCue | src/controller_fsm.cpp:73-80 | a real state change beeps exactly when the new state has an entry beep, and sends the LED pattern exactly when it differs from the one shown |
| ControllerFsm.ErrorStepGood | src/controller_fsm.cpp:82-87 | entering Error keeps the controller consistent |
| ControllerFsm.EventStepGood | src/controller_fsm.cpp:341-368 | handling any event keeps the UI memory in step and lockout confined to the Lockout and Error states |
| ControllerFsm.DrainGood | src/controller_fsm.cpp:341-368 | draining any events keeps that invariant |
| ControllerFsm.PollGood | src/controller_fsm.cpp:330-371 | every poll keeps that invariant |
| ControllerFsm.Controller.Init | src/controller_fsm.cpp:318-328 | the initial controller, Off, with nothing sent |
| ControllerFsm.Controller.SetState | src/controller_fsm.cpp:73-80 | the entry step applied, its actions pushed |
| ControllerFsm.Controller.SetError | src/controller_fsm.cpp:82-87 | the error step applied, its actions pushed |
| ControllerFsm.Controller.ClearErrorIf | src/controller_fsm.cpp:90-95 | the cleared-error rule applied |
| ControllerFsm.Controller.HandleBatteryEvent | src/controller_fsm.cpp:100-137 | the battery handler applied, its actions pushed |
| ControllerFsm.Controller.PowerOff | src/controller_fsm.cpp:188-192 | a long DVR press, then Off |
| ControllerFsm.Controller.HandleButtonEvent | src/controller_fsm.cpp:143-243 | the button handler applied, its actions pushed |
| ControllerFsm.Controller.EnterAndBeep | src/controller_fsm.cpp:278-297 | a state entry followed by a confirmation beep |
| ControllerFsm.Controller.HandleDvrSemanticEvent | src/controller_fsm.cpp:249-312 | the DVR handler applied, its actions pushed |
| ControllerFsm.Controller.HandleEvent | src/controller_fsm.cpp:341-368 | one event routed to its handler |
| ControllerFsm.Controller.Poll | src/controller_fsm.cpp:330-371 | the boot check, then every queued event handled in order; the event queue ends empty |
| ControllerFsm.Controller.DrainEvents | src/controller_fsm.cpp:341-368 | every queued event handled in order; the event queue ends empty |
| ControllerFsm.Controller.CurrentState | src/controller_fsm.cpp:374-377 | the current state |
| ControllerFsm.Controller.BatteryLevel | src/controller_fsm.cpp:379-382 | the last battery state |
| ControllerFsm.Controller.LockoutActive | src/controller_fsm.cpp:384-387 | the lockout flag |
| ControllerFsm.Controller.Error | src/controller_fsm.cpp:389-392 | the current error |
| UiPolicy.Led | src/ui_policy.cpp:26-34 | remembers the pattern and sends it exactly when it differs from the last one sent |
| UiPolicy.LedFor | src/ui_policy.cpp:58-101 | the LED pattern of each state; through LedPatternsDistinguishStates, only Recording and LowBat share one |
| UiPolicy.EntryBeep | src/ui_policy.cpp:81-101 | the entry beep of each state; through QuietStates, Off, Booting, Idle and Recording enter silently and the others beep |
| UiPolicy.EnterState | src/ui_policy.cpp:50-108 | remembers the state and its pattern; sends the pattern exactly when it is new, and the entry beep exactly when the state is new and has one, the LED first; nothing else |
| UiPolicy.OnError | src/ui_policy.cpp:120-125 | the error pattern (deduplicated), then always the fast error beep |
| UiPolicy.LedPatternsDistinguishStates | src/ui_policy.cpp:58-107 | only Recording and LowBat share a pattern |
| UiPolicy.QuietStates | src/ui_policy.cpp:58-107 | Off, Booting, Idle and Recording never beep on entry, the others always do; LowBat beeps the error pattern exactly on a critical battery |
| UiPolicy.ReEntryIsSilent | src/ui_policy.cpp:55-56 | entering the same state twice sends nothing the second time |
| UiPolicy.InitThenOffIsSilent | src/ui_policy.cpp:44-48 | after init, entering Off sends nothing |
| UiPolicy.Policy.Init | src/ui_policy.cpp:44-48 | the initial policy memory |
| UiPolicy.Policy.SendLed | src/ui_policy.cpp:26-34 | the deduplicated pattern pushed |
| UiPolicy.Policy.SendBeep | src/ui_policy.cpp:36-39 | the beep pushed |
| UiPolicy.Policy.OnStateEnter | src/ui_policy.cpp:50-108 | the entry reaction applied, its actions pushed |
| UiPolicy.Policy.OnRecordConfirmed | src/ui_policy.cpp:110-113 | a double beep pushed |
| UiPolicy.Policy.OnStopConfirmed | src/ui_policy.cpp:115-118 | a single beep pushed |
| UiPolicy.Policy.OnErrorHook | src/ui_policy.cpp:120-125 | the error reaction applied, its actions pushed |
| Executor.BeepCount | src/executor.cpp:85-93 | at most four beeps, and none exactly for BeepNone |
| Executor.LedStart | src/executor.cpp:69-76 | runs the pattern from now with the LED level low, outputs untouched |
| Executor.BeepStart | src/executor.cpp:79-97 | runs a sequence of BeepCount beeps from now, outputs untouched |
| Executor.LedTick | src/executor.cpp:100-146 | nothing before the deadline; off and solid set the output and go idle; a blink toggles the output and reschedules; the buzzer is untouched |
| Executor.BeepTick | src/executor.cpp:149-195 | nothing before the deadline; the beep count drops by at most one and only as a beep ends with the buzzer off; the buzzer turns on only at the start of an owed beep; the LED is untouched |
| Executor.PollTick | src/executor.cpp:198-242 | an idle executor takes the oldest action (or none) and starts it; a busy one takes nothing and steps its engine |
| Executor.BeepCycle | src/executor.cpp:149-195 | two due steps play one beep: the buzzer is on, then off, with one beep fewer owed |
| Executor.BeepFinish | src/executor.cpp:153-157 | with no beep owed, the next due step returns to idle with the buzzer off |
| Executor.BeepSequence | src/executor.cpp:79-195 | a sequence of m beeps plays exactly m on-off cycles, then returns to idle with the buzzer off |
| Executor.BeepActionPlaysOut | src/executor.cpp:201-224 | a beep action taken by an idle executor plays BeepCount beeps and then frees it for the next action |
| Executor.BlinkNeverYields | src/executor.cpp:116-139 | once a blink runs, the executor never goes idle again and takes no further action, whatever the poll times |
| Executor.SteadyPatternsFinish | src/executor.cpp:106-114 | off and solid take effect on the first due step and free the executor |
| Executor.Executor.Init | src/executor.cpp:58-64 | the idle executor, outputs off |
| Executor.Executor.AbortFeedback | src/executor.cpp:46-51 | both outputs off and idle |
| Executor.Executor.Busy | src/executor.cpp:53-56 | busy exactly when not idle |
| Executor.Executor.StartLedPattern | src/executor.cpp:69-76 | the LED start applied |
| Executor.Executor.StartBeep | src/executor.cpp:79-97 | the beep start applied |
| Executor.Executor.LedStep | src/executor.cpp:100-146 | the LED tick applied |
| Executor.Executor.BeepStep | src/executor.cpp:149-195 | the beep tick applied |
| Executor.Executor.Poll | src/executor.cpp:198-242 | the poll tick applied: the action queue loses exactly the action taken, and its drop count is unchanged |
| DvrCtrl.Initial | src/dvr_ctrl.cpp:58-92 | the given configuration, or the defaults when there is none; the DVR assumed off, idle, button released, deadline and guard at 0, no pending update |
| DvrCtrl.GestureStart | src/dvr_ctrl.cpp:33-56 | inside the guard window nothing changes; otherwise a gesture starts at the ASSERT step, busy, with the requested hold and target |
| DvrCtrl.ScheduleStep | src/dvr_ctrl.cpp:209-219 | through ScheduleGuard: refused as BUSY inside the guard window, otherwise the ASSERT step of the gesture starts with its hold and target and the request is accepted |
| DvrCtrl.AbortStep | src/dvr_ctrl.cpp:110-129 | releases the button, goes idle, drops the pending update, keeps the assumed state, and guards from the last deadline |
| DvrCtrl.TickStep | src/dvr_ctrl.cpp:131-194 | nothing when idle or before the deadline; ASSERT presses if the button accepts it and aborts otherwise; HOLD releases after the hold; RELEASE finishes, guards, and only then updates the assumed state |
| DvrCtrl.PowerOn | src/dvr_ctrl.cpp:196-220 | BUSY while a gesture runs; a no-op when already on; otherwise a boot press towards ON_IDLE |
| DvrCtrl.ToggleRecord | src/dvr_ctrl.cpp:222-248 | BUSY while a gesture runs; rejected when off; otherwise a short press towards the other of idle and recording |
| DvrCtrl.PowerOff | src/dvr_ctrl.cpp:250-271 | BUSY while a gesture runs; a no-op when off; otherwise a long press towards OFF |
| DvrCtrl.ScheduleGuard | src/dvr_ctrl.cpp:33-56 | outside the guard window the gesture starts and the request is accepted; inside it nothing changes and the answer is BUSY |
| DvrCtrl.RequestsKeepAssumed | src/dvr_ctrl.cpp:196-271 | no request changes the assumed state |
| DvrCtrl.GoodKept | src/dvr_ctrl.cpp:110-271 | ticks, requests, aborts and resets of the assumed state keep the button pressed exactly during HOLD and RELEASE and the controller busy exactly while a gesture runs |
| DvrCtrl.GestureWaveform | src/dvr_ctrl.cpp:131-186 | an accepted gesture presses at its first tick, holds for hold_ms, releases, and reports its target state only after the release gap |
| DvrCtrl.GestureTargets | src/dvr_ctrl.cpp:196-271 | power-on holds for the boot press and ends ON_IDLE, power-off holds long and ends OFF, a toggle holds short and flips idle and recording |
| DvrCtrl.Ctrl.Init | src/dvr_ctrl.cpp:58-92 | the initial controller |
| DvrCtrl.Ctrl.SetAssumedState | src/dvr_ctrl.cpp:94-98 | only the assumed state changes |
| DvrCtrl.Ctrl.GetAssumedState | src/dvr_ctrl.cpp:100-103 | the assumed state |
| DvrCtrl.Ctrl.IsBusy | src/dvr_ctrl.cpp:105-108 | whether a gesture runs |
| DvrCtrl.Ctrl.StartGesture | src/dvr_ctrl.cpp:33-56 | the gesture start applied |
| DvrCtrl.Ctrl.Abort | src/dvr_ctrl.cpp:110-129 | the abort applied |
| DvrCtrl.Ctrl.Tick | src/dvr_ctrl.cpp:131-194 | the tick applied |
| DvrCtrl.Ctrl.Schedule | src/dvr_ctrl.cpp:210-214 | the guard check and gesture start, with its answer |
| DvrCtrl.Ctrl.RequestPowerOn | src/dvr_ctrl.cpp:196-220 | the power-on request applied, with its answer |
| DvrCtrl.Ctrl.RequestToggleRecord | src/dvr_ctrl.cpp:222-248 | the toggle request applied, with its answer |
| DvrCtrl.Ctrl.RequestPowerOff | src/dvr_ctrl.cpp:250-271 | the power-off request applied, with its answer |
| DvrSession.TaskEnded | src/dvr_session.cpp:79-91 | the pending task is closed with the given error; nothing else changes |
| DvrSession.Allowed | src/dvr_session.cpp:48-51 | `cmd_allowed`; through NoSecondPressDuringHoldoff, no request presses before the guard expires |
| DvrSession.Busy | src/dvr_session.cpp:295-298 | `dvr_session_is_busy`; through RequestsWaitWhileBusy, an unsatisfied request answers WAIT exactly while busy |
| DvrSession.Confirms | src/dvr_session.cpp:126-153 | the LED pattern that completes each task (boot: Solid or SlowBlink; record: SlowBlink; stop: Solid); LedUpdate states that such a pattern ends the task |
| DvrSession.LedUpdate | src/dvr_session.cpp:110-155 | remembers the pattern; a fast blink or abnormal boot ends any task with the matching error; any other pattern completes a task it confirms |
| DvrSession.Expire | src/dvr_session.cpp:157-178 | the guard is released once its time is over; a pending task past its deadline ends with the timeout error |
| DvrSession.PollStep | src/dvr_session.cpp:157-200 | expiry, then auto-record: a short press once the DVR is idle, the guard is over and auto-record is pending |
| DvrSession.Press | src/dvr_session.cpp:53-57 | holds the guard for the hold-off and clears the last error |
| DvrSession.PowerOnReq | src/dvr_session.cpp:202-228 | OK without a press when already on, latching auto-record only when idle; WAIT changes nothing; a press is one long press with the guard, a boot-wait task 8000 ms long, the auto-record choice and a cleared error |
| DvrSession.StartRecordReq | src/dvr_session.cpp:230-247 | OK without a press when already recording; WAIT changes nothing; a press is one short press with the guard and a start-record task |
| DvrSession.StopRecordReq | src/dvr_session.cpp:249-266 | OK without a press when already idle; WAIT changes nothing; a press is one short press with the guard and a stop-record task |
| DvrSession.PowerOffReq | src/dvr_session.cpp:268-287 | OK without a press when already off; WAIT changes nothing; a press is one long press with the guard and no task |
| DvrSession.RequestsWaitWhileBusy | src/dvr_session.cpp:48-57 | a request not already satisfied waits exactly while a task is pending or the guard is held, and presses otherwise |
| DvrSession.RequestAnswers | src/dvr_session.cpp:202-287 | requests answer only OK or WAIT and never change the last LED pattern |
| DvrSession.NoSecondPressDuringHoldoff | src/dvr_session.cpp:53-57 | no request presses again before the hold-off of the previous press ends |
| DvrSession.BootTimeout | src/dvr_session.cpp:166-178 | a boot wait without a confirming LED fails with the boot timeout at the first poll at or after its deadline, and not before |
| DvrSession.AutoRecordAfterBoot | src/dvr_session.cpp:181-199 | power-on with auto-record, confirmed idle and polled after the guard, presses once and waits for recording |
| DvrSession.IdleSessionPresses | src/dvr_session.cpp:202-287 | a session that is not busy presses once for every request that is not already satisfied |
| DvrSession.SessionLayer.Init | src/dvr_session.cpp:96-108 | the initial session |
| DvrSession.SessionLayer.CmdAllowed | src/dvr_session.cpp:48-51 | whether a command may press now |
| DvrSession.SessionLayer.CmdGuard | src/dvr_session.cpp:53-57 | the guard set for the hold-off |
| DvrSession.SessionLayer.StartTask | src/dvr_session.cpp:73-77 | the session task and its deadline set |
| DvrSession.SessionLayer.EndTask | src/dvr_session.cpp:79-91 | the pending task ended with the error |
| DvrSession.SessionLayer.OnLed | src/dvr_session.cpp:110-155 | the LED update applied |
| DvrSession.SessionLayer.Poll | src/dvr_session.cpp:157-200 | the poll step applied, its press pushed |
| DvrSession.SessionLayer.RequestPowerOn | src/dvr_session.cpp:202-228 | the power-on request applied, its press pushed, its answer returned |
| DvrSession.SessionLayer.RequestStartRecord | src/dvr_session.cpp:230-247 | the start request applied, its press pushed, its answer returned |
| DvrSession.SessionLayer.RequestStopRecord | src/dvr_session.cpp:249-266 | the stop request applied, its press pushed, its answer returned |
| DvrSession.SessionLayer.RequestPowerOff | src/dvr_session.cpp:268-287 | the power-off request applied, its press pushed, its answer returned |
| DvrSession.SessionLayer.IsBusy | src/dvr_session.cpp:295-298 | busy exactly while a task is pending or the guard is held |
| DvrSession.SessionLayer.LedView | src/dvr_session.cpp:289-293 | the last pattern, and recording, idle and off exactly for slow blink, solid and off |
| DvrSession.SessionLayer.LastError | src/dvr_session.cpp:300 | the last error |
| Button.Initial | src/button.cpp:51-62 | pressed exactly when the line reads asserted; nothing emitted yet |
| Button.ReleaseGesture | src/button.cpp:99-125 | nothing below 50 ms; ShortPress from 50 up to 500 ms; LongPress from 500 ms on |
| Button.EdgeStep | src/button.cpp:71-125 | a repeated level or a change inside the 35 ms window changes nothing; an accepted edge records level and time, reports the raw edge, and on release the press's gesture unless already reported |
| Button.GraceStep | src/button.cpp:133-143 | a LongPress as soon as an unreported press has been held 500 ms, and nothing otherwise |
| Button.PollStep | src/button.cpp:64-144 | one poll is the edge step, then the grace check; through PollGestureBudget and AtMostOneGesturePerPress, at most one gesture per press |
| Button.PollGestureBudget | src/button.cpp:64-144 | a poll reports a gesture only by spending the credit of a press |
| Button.AtMostOneGesturePerPress | src/button.cpp:64-144 | over any run of polls, the gestures never outnumber the press edges plus one for a press in progress at the start |
| Button.NoSecondLongPressWhileHeld | src/button.cpp:133-143 | after the grace emit, polls with the button held report nothing |
| Button.BounceIsRetried | src/button.cpp:71-77 | a change inside the debounce window leaves the tracker as it was, and the same change is accepted once 35 ms have passed |
| Button.Decoder.Init | src/button.cpp:51-62 | the initial tracker |
| Button.Decoder.Poll | src/button.cpp:64-144 | the poll step applied, its events pushed |
| Button.Decoder.DetectEdge | src/button.cpp:71-125 | the edge step applied, its events pushed |
| Button.Decoder.Release | src/button.cpp:99-125 | the press length recorded, its gesture pushed unless reported, the press reset |
| Button.Decoder.CheckGrace | src/button.cpp:133-143 | the grace step applied, its event pushed |
| Button.Decoder.View | src/button.cpp:146-154 | the pressed flag and the last press length |
| DvrButton.EdgeStep | src/dvr_button.cpp:95-151 | as in src/button.cpp, except that the raw edge is reported only when enabled |
| DvrButton.PollStep | src/dvr_button.cpp:88-171 | one poll is the edge step, then the grace check; through SameAsButtonWithRawEdges and RawEdgesOnlyAddTelemetry, it is src/button.cpp's poll plus optional raw edges |
| DvrButton.SameAsButtonWithRawEdges | src/dvr_button.cpp:88-171 | with raw edges enabled, a poll is exactly src/button.cpp's poll |
| DvrButton.RawEdgesOnlyAddTelemetry | src/dvr_button.cpp:102-108 | the setting changes neither the tracker nor the gestures, only adds the raw edge, and with it off every event is a gesture |
| DvrButton.RunsAgree | src/dvr_button.cpp:88-171 | over any run, with raw edges off, the tracker and the gesture count equal src/button.cpp's |
| DvrButton.AtMostOneGesturePerPress | src/dvr_button.cpp:88-171 | with raw edges off, the gestures never outnumber the presses plus one for a press in progress |
| DvrButton.Decoder.Init | src/dvr_button.cpp:73-86 | the initial tracker and the raw-edge setting |
| DvrButton.Decoder.Poll | src/dvr_button.cpp:88-171 | the poll step applied, its events pushed |
| DvrButton.Decoder.DetectEdge | src/dvr_button.cpp:95-151 | the edge step applied, its events pushed |
| DvrButton.Decoder.Release | src/dvr_button.cpp:121-151 | the press length recorded, its gesture pushed unless a long press was reported, the press reset |
| DvrButton.Decoder.CheckGrace | src/dvr_button.cpp:159-167 | the grace step applied, its event pushed |
| DvrButton.Decoder.View | src/dvr_button.cpp:173-181 | the pressed flag and the last press length |
| PowerMgr.Initial | src/power_mgr.cpp:86-105 | kill released, nothing pending; a press is in progress exactly when the line reads asserted |
| PowerMgr.IsrStep | src/power_mgr.cpp:58-81 | a repeated level does nothing; a change is recorded with its time and reported as a raw edge |
| PowerMgr.Accept | src/power_mgr.cpp:138-175 | an accepted edge starts a press or ends one and reports its gesture, keeping the interrupt's record |
| PowerMgr.EdgeStep | src/power_mgr.cpp:112-136 | consumes the recorded change; a change within 35 ms of the last accepted edge is dropped, any other is accepted |
| PowerMgr.GraceStep | src/power_mgr.cpp:185-198 | a LongPress as soon as an unreported press has been held 500 ms |
| PowerMgr.PollStep | src/power_mgr.cpp:107-199 | the poll as written; through StepGestureBudget and TapBecomesLongPress, gestures stay within the budget, but a quick tap can become a LongPress |
| PowerMgr.StepGestureBudget | src/power_mgr.cpp:58-198 | an interrupt or a poll reports a gesture only by spending what is owed |
| PowerMgr.AtMostOneGesturePerPress | src/power_mgr.cpp:58-198 | over any run, the gestures never outnumber the press edges the interrupt reported plus what was owed |
| PowerMgr.NoSecondLongPressWhileHeld | src/power_mgr.cpp:185-198 | after the grace emit, polls with no change pending report nothing |
| PowerMgr.TapBecomesLongPress | src/power_mgr.cpp:112-136 | a tap released within 35 ms is lost, and a later poll reports a LongPress although the line reads released |
| PowerMgr.SettledEdgeStep | src/power_mgr.cpp:112-136 | the intended edge step keeps the tracking settled and accepts a pending change once the window is over |
| PowerMgr.SettledPollStep | src/power_mgr.cpp:112-136 | the intended poll, which re-examines the level after a rejected bounce; through SettledKept and NoPhantomLongPress, it never reports a phantom LongPress |
| PowerMgr.SettledKept | src/power_mgr.cpp:58-105 | init, the interrupt and the intended poll keep the tracking settled |
| PowerMgr.NoPhantomLongPress | src/power_mgr.cpp:112-198 | with the intended poll, a released line with nothing pending never reports a LongPress, and the tap above reports nothing |
| PowerMgr.Manager.Init | src/power_mgr.cpp:86-105 | the initial manager |
| PowerMgr.Manager.Isr | src/power_mgr.cpp:58-81 | the interrupt step applied, its event pushed |
| PowerMgr.Manager.Poll | src/power_mgr.cpp:107-199 | the poll as written applied, its events pushed |
| PowerMgr.Manager.AcceptEdge | src/power_mgr.cpp:138-175 | the accepted edge applied, its events pushed |
| PowerMgr.Manager.CheckGrace | src/power_mgr.cpp:185-198 | the grace step applied, its event pushed |
| PowerMgr.Manager.KillAssert | src/power_mgr.cpp:201-205 | only the kill output is set |
| PowerMgr.Manager.KillDeassert | src/power_mgr.cpp:207-211 | only the kill output is cleared |
| PowerMgr.Manager.KillIsAsserted | src/power_mgr.cpp:213-216 | the kill output |
| PowerMgr.Manager.IntIsAsserted | src/power_mgr.cpp:218-222 | whether the line reads asserted |
| PowerMgr.Manager.LastPressMs | src/power_mgr.cpp:224-227 | the last press length |
| FuelGauge.Classify | src/fuel_gauge.cpp:51-59 | Full from 548, Half from 495, Low from 475, Critical below; never Unknown |
| FuelGauge.ClassifyMonotone | src/fuel_gauge.cpp:51-59 | a higher reading never lands in a lower bucket |
| FuelGauge.ClassifyLockout | src/fuel_gauge.cpp:61-76 | outside lockout, enter at or below 455; inside, stay below 475 |
| FuelGauge.LockoutHysteresis | src/fuel_gauge.cpp:61-76 | between the thresholds the decision is kept; outside them the reading alone decides; lockout implies a critical bucket, and leaving it a bucket of at least Low |
| FuelGauge.Cast | src/fuel_gauge.cpp:115-123 | the sample becomes the candidate; a new one counts 1, a repeat saturates the count |
| FuelGauge.CastAgrees | src/fuel_gauge.cpp:115-123 | a counter truthful about a history stays truthful when a sample is added |
| FuelGauge.BatteryStep | src/fuel_gauge.cpp:113-130 | the reported state changes only to the sample's bucket once 3 samples agree, and it does change as soon as the count for a new bucket reaches 3; exactly one state event with it is pushed then; lockout is untouched |
| FuelGauge.LockoutStep | src/fuel_gauge.cpp:135-161 | the flag changes only to the candidate once 3 decisions agree, and it does change as soon as 3 decisions agree against it; exactly one enter or exit event is pushed then; the battery state is untouched |
| FuelGauge.SampleStep | src/fuel_gauge.cpp:107-161 | one sample recorded, then the battery and lockout votes; through SampleCounters, SampleEvents and ChangesNeedThreeAgreeing |
| FuelGauge.PollStep | src/fuel_gauge.cpp:99-162 | PollWith at 200 ms; through NoSampleBeforePeriod, no second sample within 200 ms and one at 200 ms |
| FuelGauge.PollWith | src/fuel_gauge.cpp:99-162 | no sample before the next-sample time; at or after it, the next time moves one period ahead and a sample is taken |
| FuelGauge.NoSampleBeforePeriod | src/fuel_gauge.cpp:101-104 | after a sample, no poll samples again until 200 ms have passed, and the poll at 200 ms does |
| FuelGauge.Buckets | src/fuel_gauge.cpp:113 | the bucket of each sample of a run |
| FuelGauge.Decisions | src/fuel_gauge.cpp:135 | one lockout decision per sample of a run |
| FuelGauge.SamplesAgreeBat | src/fuel_gauge.cpp:115-123 | over a run, the battery counter stays truthful about the samples' buckets |
| FuelGauge.SamplesAgreeLock | src/fuel_gauge.cpp:137-145 | over a run, the lockout counter stays truthful about the decisions |
| FuelGauge.SampleCounters | src/fuel_gauge.cpp:113-145 | a sample casts its bucket and its lockout decision into the two counters |
| FuelGauge.InitialAgrees | src/fuel_gauge.cpp:81-97 | after init both counters are truthful about the empty history |
| FuelGauge.ChangesNeedThreeAgreeing | src/fuel_gauge.cpp:125-130 | a sample that changes the reported bucket is the third or later of a run in that bucket; likewise for the lockout flag and its decisions |
| FuelGauge.ThreeAgreeingReported | src/fuel_gauge.cpp:113-161 | three consecutive samples in one bucket make it the reported state by the third, whatever came before; three readings at or below 455 set the lockout flag and three at or above 475 clear it (the same step serves src/drv_fuel_gauge.cpp) |
| FuelGauge.SampleEvents | src/fuel_gauge.cpp:125-161 | a sample pushes at most a state change then at most a lockout change, which carries the state just reported |
| FuelGauge.Monitor.Init | src/fuel_gauge.cpp:81-97 | the initial gauge |
| FuelGauge.Monitor.Poll | src/fuel_gauge.cpp:99-162 | the poll step applied, its events pushed |
| FuelGauge.Monitor.UpdateBattery | src/fuel_gauge.cpp:113-130 | the battery step applied, its event pushed |
| FuelGauge.Monitor.UpdateLockout | src/fuel_gauge.cpp:135-161 | the lockout step applied, its event pushed |
| FuelGauge.Monitor.View | src/fuel_gauge.cpp:164-177 | the last reading, the reported state and the lockout flag |
| DrvFuelGauge.Classify | src/drv_fuel_gauge.cpp:73-80 | Full exactly from 548, Critical exactly below 475, never Unknown |
| DrvFuelGauge.LockoutShouldBeActive | src/drv_fuel_gauge.cpp:82-99 | outside lockout, enter at or below 455; inside, stay below 475 |
| DrvFuelGauge.PollStep | src/drv_fuel_gauge.cpp:120-184 | PollWith at 250 ms; through NoSampleBeforePeriod and ChangesNeedThreeAgreeing |
| DrvFuelGauge.SameClassifiers | src/drv_fuel_gauge.cpp:73-99 | both classifiers agree with src/fuel_gauge.cpp's on every reading |
| DrvFuelGauge.NoSampleBeforePeriod | src/drv_fuel_gauge.cpp:120-125 | after a sample, no poll samples again until 250 ms have passed, and the poll at 250 ms does |
| DrvFuelGauge.ChangesNeedThreeAgreeing | src/drv_fuel_gauge.cpp:134-183 | a change of the reported bucket or of the lockout flag needs three agreeing samples |
| DrvFuelGauge.Monitor.Init | src/drv_fuel_gauge.cpp:104-118 | the initial gauge |
| DrvFuelGauge.Monitor.Poll | src/drv_fuel_gauge.cpp:120-184 | src/fuel_gauge.cpp's poll step at 250 ms applied, its events pushed |
| DrvFuelGauge.Monitor.UpdateBattery | src/drv_fuel_gauge.cpp:134-156 | the battery step applied, its event pushed |
| DrvFuelGauge.Monitor.UpdateLockout | src/drv_fuel_gauge.cpp:161-183 | the lockout step applied, its event pushed |
| DrvFuelGauge.Monitor.View | src/drv_fuel_gauge.cpp:186-199 | the last reading, the reported state and the lockout flag |

## Left out

- Pins, `analogRead`, `digitalRead`, `digitalWrite` and `millis()` are not modelled as I/O. A pin level, an ADC sample or the time becomes a parameter of the operation that would read it. A written output becomes a field (the executor's LED and buzzer levels, the kill line).
- Interrupt masking (`ATOMIC_BLOCK`, `noInterrupts`) is not modelled. Each operation runs to completion, and an interrupt handler is a separate method called between them.
- The body of the action queue is not among the source files. It is modelled as a bounded drop-new FIFO of 8, which is the policy stated at src/action_queue.h:6. `actionq_push_isr` and `actionq_dropped` have no separate members.
- Events and actions are typed datatypes whose payload sits in the variant. The audit fields `t_ms`, `src`, `reason`, `arg1` and the enqueue timestamp of an action are left out. So are the `uint16_t` casts of `arg0`.
- The executor's latched `s_cur` and `s_led_phase` are not modelled: nothing reads them after they are set. `s_buzz_level` is the `buzzOut` field.
- The `!self` and null checks are left out. Objects here are never null.
- `dvr_ctrl`'s `on_done` callbacks and gesture-name strings are not modelled.
- The button output `btn_set` is modelled as the boolean parameter `btnOk`: whether it accepted the press.
- CFG_BUTTON_EMIT_RAW_EDGES is the constructor parameter `emitRaw` of `DvrButton.Decoder`. The build default, off, is `DvrButton.DefaultEmitRawEdges`.
- The `T_ABN_*` timings (the AbnormalBoot signature, which is not implemented) and ADC_CRITICAL (never read) are not modelled. `DvrLed.NeverAbnormalBoot` proves the pattern is never produced.
- `s_boot_start_ms` in src/dvr_led.cpp (set at :84, otherwise only voided at :174) is written but never read, and is not modelled.
- The `dvr_led` pin-change interrupt is `DvrLed.Classifier.OnPinChange`. It only sets the flag that `Poll` consumes.
- The action timestamps that `dvr_session` takes from `millis()` are left out along with the other audit fields.
- `src/main.cpp`, the WIP sketches and the hardware headers are not part of this model.
- Executor.LedTick, Executor.BeepTick and Executor.PollTick follow the code's plain `now < s_next_ms` comparison, which is not wrap-safe. The model does not claim correct behaviour across the wrap of `millis()`. DvrCtrl.TickStep and DvrSession.Expire compare with `<` and `>=` in the same way.
- Behaviours the model keeps exactly as coded, where a comment in the firmware or a natural reading suggests otherwise:
  - in Off a short press powers the DVR on (src/controller_fsm.cpp:157-168), although include/timings.h:10 calls for a longer press to wake;
  - a long press in Idle or Recording sends one long DVR press and enters Off at once (src/controller_fsm.cpp:188-192); the controller keeps no latch for the "stop recording, then power off" of include/timings.h:13 and leaves that to the DVR's own handling of the press;
  - the status interpreter emits RecordStopped on every exit from slow blink, not only on entering Solid or Off (src/drv_dvr_status.cpp:96-111);
  - the LED classifier switches pattern on a single classified period (src/dvr_led.cpp:129-135), with no confirmation over several periods;
  - the Lockout and Error LED patterns blink alike (src/executor.cpp:118-119);
  - the event queue's drop counter is a `uint16_t` that wraps rather than saturates (src/event_queue.cpp:92);
  - a blink pattern keeps the executor busy forever (src/executor.cpp:116-139, `Executor.BlinkNeverYields`), so no action queued after it is ever taken.

## Findings

| source | as written | input that shows it | evidently intended | confidence | as-written member | corrected member |
|---|---|---|---|---|---|---|
| src/power_mgr.cpp:112-136 | the poll clears the change flag before its debounce test, so a change rejected as a bounce is forgotten; the interrupt fires only on a new change, so the real release that followed is lost | init with the line released at 0; press (ISR Low at 100), poll at 100; release (ISR High at 110), poll at 110; poll at 700: a LongPress is reported although the line reads released | keep the change pending until the debounce window is over, so a release inside it is accepted at the first poll after the window | not executed | PowerMgr.TapBecomesLongPress | PowerMgr.NoPhantomLongPress |
