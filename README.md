# useless-box in Dafny

A model of the MicroPython code that drives a "useless box". When someone flips the
toggle switch on, a lid opens and an arm pushes the switch back off. The model covers
five layers:

- **The SG90 servo driver** (`sg90.dfy`, module `Sg90`):
  - duty clamping;
  - the rounded no-op guard on instant moves;
  - smooth moves as `steps + 1` interpolated duty writes;
  - the forced reset.
- **The lid and switch arms** (`arm_lid.dfy`, `arm_switch.dfy`): percentage-to-angle maps over two calibrated endpoint angles, and the lid's `is_open` threshold.
- **The sensor and the indicator**:
  - the proximity classifier (`proximity.dfy`);
  - the inverted-pin LED (`led.dfy`, module `Indicator`).
- **A gesture facade** (`useless_box.dfy`, module `BoxFacade`). It is a `Box` class that owns both arms and keeps a trace of every command, sensor read and pause it issues. Its invariant `Box.Valid` states that each servo's angle and duty log are what replaying that trace produces. The replay functions (`LidRun`, `LidLog`, `ArmRun`, `ArmLog`) are in `commands.dfy`, module `Commands`.
- **The controllers**:
  - the main tick state machine (`controller.dfy`, module `Controller`): switch rising edge, the three-attempt defeat loop, the probabilistic proximity branches, the inactivity timeout and the weighted delay buckets;
  - the behaviour library (`useless.py` → `behaviours.dfy`), its ten behaviours as command traces;
  - the countdown loop of `tests/simple.py` (`simple_loop.dfy`);
  - the older servo driver `servo.py` (`legacy_servo.dfy`), whose smooth move is a `while` loop.

Readings, random draws and clock values are parameters. Sleep durations appear only as
`Wait`/`SleepMs` entries in the traces. Angles and percentages are exact
reals. Python's `int()` on a float is `Numerics.Trunc` (truncation toward zero), and
`round(x, 2)` is `Numerics.Round2`.

The lid is closed by `close(percentage)`, which targets the angle of `open(100 - percentage)`
(`arm_lid.py:35`). So `close(0, …)` sends the lid to the fully open angle. The sequences in
`useless_box.py` and `useless.py` end with `close_lid(0, …)` and therefore leave the lid
open. `useless.py:47` documents `close_lid` the other way round ("0 = fully closed"). The
model follows the arm's code, and `Behaviours.BehaviourLeavesLidOpen` and
`BoxFacade.Box.PlayPeekaboo` state the consequence.

## Model

| member | source | states |
|---|---|---|
| Numerics.Trunc | src/useless-box/sg90.py:34 | `int()` on a float: truncation toward zero |
| Numerics.TruncMonotone | src/useless-box/sg90.py:34 | truncation never reverses the order of two values |
| Numerics.Round2 | src/useless-box/sg90.py:42 | `round(x, 2)` lies within half a hundredth of `x` |
| Numerics.Round2OfInt | src/useless-box/sg90.py:42 | rounding leaves whole-degree angles unchanged |
| Numerics.Round2Idempotent | src/useless-box/sg90.py:42 | rounding twice equals rounding once |
| Numerics.PercentOfSpan | src/useless-box/arm_lid.py:18 | a percentage in [0,100] of a span lies between 0 and the span |
| Sg90.AngleToDuty | src/useless-box/sg90.py:21-34 | the duty is always in [26,123]: angle <= 0 gives 26, angle >= 180 gives 123 |
| Sg90.AngleToDutyMonotone | src/useless-box/sg90.py:28-34 | a larger angle never gives a smaller duty |
| Sg90.SmoothWrites | src/useless-box/sg90.py:74-77 | a smooth move writes exactly `steps + 1` duties |
| Sg90.SmoothPrefixAt | src/useless-box/sg90.py:74-77 | write `i` is interpolation step `i` followed by the common delay |
| Sg90.Interp | src/useless-box/sg90.py:72-75 | the exact interpolated duty `start + i * (end - start) / steps` of step `i`, before `int()` |
| Sg90.SmoothDuty | src/useless-box/sg90.py:75 | the duty written at step `i`: `int()` of the interpolated duty |
| Sg90.SmoothPrefix | src/useless-box/sg90.py:74-77 | the first `k` writes of the loop, in issue order, one per step |
| Sg90.SmoothWritesEnds | src/useless-box/sg90.py:68-76 | the first write is the start duty and the last is exactly the end duty |
| Sg90.SmoothDutyRising | src/useless-box/sg90.py:72-75 | rising moves: the duties climb monotonically from the start duty to the end duty |
| Sg90.SmoothDutyFalling | src/useless-box/sg90.py:72-75 | falling moves: the duties descend monotonically from the start duty to the end duty |
| Sg90.SmoothDutyMonotone | src/useless-box/sg90.py:72-75 | the interpolated duties are monotone in either direction and stay between the start and end duties |
| Sg90.SmoothWritesMonotone | src/useless-box/sg90.py:72-77 | the written duty sequence is monotone and bounded by the start and end duties |
| Sg90.SmoothMove | src/useless-box/sg90.py:62-77 | a move between two angles writes `steps + 1` duties |
| Sg90.StepDelayProportional | src/useless-box/sg90.py:62-71 | the per-step delay is 0 for a zero-distance move, non-decreasing in the distance, and the distance-proportional duration split over the steps up to truncation: `delay <= duration / steps < delay + 1` |
| Sg90.DurationOrdered | src/useless-box/sg90.py:66 | the move duration is proportional to the distance: 0 at distance 0, the full-range duration at 180 degrees, additive over distances, and monotone |
| Sg90.MoveDuration | src/useless-box/sg90.py:66 | the share of the full-range duration that a move of the given distance takes |
| Sg90.StepDelay | src/useless-box/sg90.py:71 | `int(duration / steps)`: the pause after each step |
| Sg90.Servo.constructor | src/useless-box/sg90.py:9-19 | the current angle is the (rounded) default; when the default is already rounded, its own guarded move writes nothing |
| Sg90.Servo.MoveToAngle | src/useless-box/sg90.py:36-51 | unforced with a rounded target equal to the current angle: nothing changes; otherwise one duty write and the angle becomes the rounded target |
| Sg90.Servo.MoveSmoothly | src/useless-box/sg90.py:53-79 | appends the smooth-move writes of the distance travelled and leaves the angle at the exact, unrounded target |
| Sg90.Servo.WriteInterpolated | src/useless-box/sg90.py:74-77 | the `for` loop appends exactly the interpolated writes |
| Sg90.Servo.Reset | src/useless-box/sg90.py:81-86 | a forced move to the default: one write, angle at the default |
| ArmLid.LidAngle | src/useless-box/arm_lid.py:17-18 | 0 percent gives the closed angle, 100 percent the open angle |
| ArmLid.LidAngleBetween | src/useless-box/arm_lid.py:18 | for p in [0,100] the angle lies between the open and closed angles |
| ArmLid.LidAngleDecreasing | src/useless-box/arm_lid.py:18 | with the closed angle above the open angle, the angle strictly decreases in p |
| ArmLid.LidArm.constructor | src/useless-box/arm_lid.py:5-15 | the servo starts and is reset at the closed angle with a single reset write; `is_open()` is then false exactly when the closed angle is at least 50 (so false with the defaults) |
| ArmLid.LidArm.Open | src/useless-box/arm_lid.py:20-27 | a 50-step smooth move to the angle for `percentage` |
| ArmLid.LidArm.Close | src/useless-box/arm_lid.py:29-36 | a 50-step smooth move to the angle for `100 - percentage` |
| ArmLid.LidArm.Reset | src/useless-box/arm_lid.py:41-46 | a forced move back to the closed angle; `is_open()` is then false exactly when the closed angle is at least 50 |
| ArmLid.LidArm.IsOpen | src/useless-box/arm_lid.py:38-39 | the lid reads open while its servo is below 50 degrees; the constructor and `Reset` state that it reads closed exactly when the closed angle is at least 50 |
| ArmLid.DefaultLidOpenness | src/useless-box/arm_lid.py:38-39 | with the default 90/30 angles, the fixed 50-degree threshold means "open" exactly above two thirds open |
| ArmSwitch.SwitchAngle | src/useless-box/arm_switch.py:17-18 | 0 percent gives the retracted angle, 100 percent the extended angle |
| ArmSwitch.SwitchAngleBetween | src/useless-box/arm_switch.py:18 | for p in [0,100] the angle lies between the two endpoint angles |
| ArmSwitch.SwitchAngleIncreasing | src/useless-box/arm_switch.py:18 | with the extended angle above the retracted angle, the angle strictly increases in p |
| ArmSwitch.SwitchArm.constructor | src/useless-box/arm_switch.py:5-15 | the servo starts and is reset at the retracted angle |
| ArmSwitch.SwitchArm.Extend | src/useless-box/arm_switch.py:20-27 | a 100-step smooth move to the angle for `percentage` |
| ArmSwitch.SwitchArm.Retract | src/useless-box/arm_switch.py:29-36 | a 100-step smooth move to the angle for `100 - percentage` |
| ArmSwitch.SwitchArm.Reset | src/useless-box/arm_switch.py:38-43 | a forced move back to the retracted angle |
| ArmSwitch.ExtendThenRetract | src/useless-box/arm_switch.py:26-35 | a corollary of the angle map: `retract(100)` reaches the retracted angle and a partial retraction stops short of it |
| Proximity.Classify | src/useless-box/proximity.py:37-44 | the classification: each tier holds exactly when its threshold condition does |
| Proximity.ClassifyMonotone | src/useless-box/proximity.py:37-44 | a larger reading never yields a farther tier |
| Proximity.ThresholdsInclusive | src/useless-box/proximity.py:37-41 | a reading equal to a threshold gets the nearer tier |
| Proximity.DefaultBands | src/useless-box/proximity.py:13-44 | the default bands: >= 200, [100,200), [50,100), < 50 |
| Indicator.PinLevel | src/useless-box/led.py:16-24 | the inverted wiring: pin 0 exactly when the logical state is on |
| Indicator.Led.constructor | src/useless-box/led.py:4-10 | starts logically off and writes no pin value |
| Indicator.Led.On | src/useless-box/led.py:12-18 | state on, writes 0 |
| Indicator.Led.Off | src/useless-box/led.py:20-26 | state off, writes 1 |
| Indicator.Led.Toggle | src/useless-box/led.py:28-35 | negates the state and writes the new state's level |
| Commands.LidTargetEnds | src/useless-box/arm_lid.py:26-35 | `close(100)` targets the closed angle, `open(100)` and `close(0)` the open angle |
| Commands.ArmTargetEnds | src/useless-box/arm_switch.py:26-35 | `retract(100)` targets the retracted angle, `extend(100)` and `retract(0)` the extended angle |
| Commands.LidTarget | src/useless-box/arm_lid.py:26-35 | the angle a lid command sends the servo to: `open(p)` the angle for `p`, `close(p)` the angle for `100 - p` |
| Commands.ArmTarget | src/useless-box/arm_switch.py:26-35 | the angle an arm command sends the servo to: `extend(p)` the angle for `p`, `retract(p)` the angle for `100 - p` |
| Commands.LidStepWrites | src/useless-box/arm_lid.py:26-36 | the duty writes of one command on the lid servo: a 50-step smooth move for a lid command, nothing otherwise |
| Commands.ArmStepWrites | src/useless-box/arm_switch.py:26-36 | the duty writes of one command on the switch servo: a 100-step smooth move for an arm command, nothing otherwise |
| Commands.LidRun | src/useless-box/sg90.py:79 | the lid angle after replaying a run of commands |
| Commands.LidLog | src/useless-box/sg90.py:74-79 | the lid servo's duty writes while replaying a run of commands |
| Commands.ArmRun | src/useless-box/sg90.py:79 | the switch arm's angle after replaying a run of commands |
| Commands.ArmLog | src/useless-box/sg90.py:74-79 | the switch servo's duty writes while replaying a run of commands |
| Commands.LidRunAppend | src/useless-box/sg90.py:79 | replaying two command runs equals replaying the second from where the first ends |
| Commands.LidLogAppend | src/useless-box/sg90.py:74-79 | the lid's duty log of two runs is the concatenation of their logs |
| Commands.ArmRunAppend | src/useless-box/sg90.py:79 | the same for the switch arm's angle |
| Commands.ArmLogAppend | src/useless-box/sg90.py:74-79 | the same for the switch arm's duty log |
| Commands.LidIdle | src/useless-box/sg90.py:50-79 | commands that do not move the lid leave its angle and log unchanged |
| Commands.ArmIdle | src/useless-box/sg90.py:50-79 | commands that do not move the arm leave its angle and log unchanged |
| Commands.LidEndsAt | src/useless-box/sg90.py:79 | the lid ends at the target of its last lid move |
| Commands.ArmEndsAt | src/useless-box/sg90.py:79 | the arm ends at the target of its last arm move |
| Commands.CountAppend | src/useless-box/useless.py:165-170 | counting commands is additive over concatenation |
| Commands.CountZero | src/useless-box/useless.py:165-170 | a count of zero means that no command satisfies the predicate |
| BoxFacade.Box.constructor | src/useless-box/useless_box.py:8-12 | both arms built with default angles and reset, an empty trace |
| BoxFacade.Box.OpenLid | src/useless-box/useless_box.py:14-19 | forwards percentage and duration unchanged to the lid arm; the arm lands on the target and the switch arm is untouched |
| BoxFacade.Box.CloseLid | src/useless-box/useless_box.py:21-26 | forwards unchanged to the lid arm's `close` |
| BoxFacade.Box.ExtendArm | src/useless-box/arm_switch.py:20-27 | the switch arm's `extend` reached through the box |
| BoxFacade.Box.RetractArm | src/useless-box/arm_switch.py:29-36 | the switch arm's `retract` reached through the box |
| BoxFacade.Box.Sleep | src/useless-box/useless_box.py:34 | a pause changes neither servo |
| BoxFacade.Box.GetSwitchState | src/useless-box/useless_box.py:72-76 | pure delegation: returns the reading and moves nothing |
| BoxFacade.Box.GetProximity | src/useless-box/useless_box.py:66-70 | pure delegation: returns the default tier of the raw reading and moves nothing |
| BoxFacade.Box.SwitchOff | src/useless-box/useless_box.py:28-35 | extend 100, wait, retract 100: ends at the retracted angle |
| BoxFacade.Box.PlayPeekaboo | src/useless-box/useless_box.py:37-44 | exactly `open(50,300)`, wait, `close(0,300)`, with no sensor read; the lid ends fully open |
| BoxFacade.Box.Tease | src/useless-box/useless_box.py:46-53 | `open(30,300)`, wait, `close(0,300)`; the lid ends fully open |
| BoxFacade.Box.ThreateningTease | src/useless-box/useless_box.py:55-64 | the lid ends fully open and the arm at its 50 percent angle, since extend 50 and retract 50 coincide |
| Controller.Choose | src/useless-box/controller.py:62-105 | the switch edge (with `None` counting as off) wins over every proximity branch; the very-close-idle draws; each of the tease-when-close-and-idle, close-on-far and close-on-very-close-when-not-idle branches is taken exactly when its guard holds; the rare peek-a-boo branch is never chosen |
| Controller.BranchState | src/useless-box/controller.py:63-201 | an idle or lid-open state stays idle or lid-open, because the switch-off and teasing states are always overwritten |
| Controller.TimerAfter | src/useless-box/controller.py:67-207 | exactly the resetting branches set the timer to the clock |
| Controller.ResetsTimer | src/useless-box/controller.py:67-105 | the branches that call `_reset_inactivity_timer` |
| Controller.TimesOut | src/useless-box/controller.py:108-109 | the inactivity close fires on silence strictly longer than the timeout, with the lid open |
| Controller.RandomDelay | src/useless-box/controller.py:117-134 | always one of the six buckets; < 0.3 gives 0.5 and >= 0.95 gives 5.0, both ways round |
| Controller.RandomDelayMonotone | src/useless-box/controller.py:122-134 | the delay is non-decreasing in the drawn value |
| Controller.Attempts | src/useless-box/controller.py:149-158 | 1 to 3 attempts; every re-read before the last attempt showed the switch on, and fewer than 3 means the last showed it off |
| Controller.AttemptsStop | src/useless-box/controller.py:149-158 | the loop's stopping point is `Attempts` |
| Controller.Round | src/useless-box/controller.py:151-156 | one attempt: extend 100, hold 0.5 s, retract 100, re-read the switch |
| Controller.Rounds | src/useless-box/controller.py:149-156 | the first `n` attempts, four commands each |
| Controller.DefeatCommands | src/useless-box/controller.py:145-162 | the whole defeat sequence: `Attempts(rereads)` rounds, then retract and close |
| Controller.ThreatenCommands | src/useless-box/controller.py:180-191 | open only when the lid does not read open, then extend 50, hold, retract 50 |
| Controller.Reaction | src/useless-box/controller.py:61-105 | the commands each branch issues between the sensor reads and the timeout check |
| Controller.LedWrites | src/useless-box/controller.py:64-102 | the LED levels each branch writes: on then off for the switch defeat, off for the close branches, a toggle for the rare branch |
| Controller.RoundsExtendOncePerAttempt | src/useless-box/controller.py:151-153 | each attempt extends the arm exactly once |
| Controller.DefeatShape | src/useless-box/controller.py:145-162 | between 1 and 3 extensions, one per attempt, and the sequence ends with `close_lid(100, 500)` |
| Controller.BoxController.constructor | src/useless-box/controller.py:20-37 | idle, no last readings, timer at the given clock, LED off with no pin write |
| Controller.BoxController.ExtendHoldRetract | src/useless-box/controller.py:151-153 | extend, hold 0.5 s, retract by the same percentage; the lid does not move |
| Controller.BoxController.AttemptSwitchOff | src/useless-box/controller.py:151-156 | one attempt ends with the arm retracted and reports the re-read |
| Controller.BoxController.DefeatLoop | src/useless-box/controller.py:149-160 | the loop makes `Attempts(rereads)` rounds and leaves the arm retracted |
| Controller.BoxController.HandleSwitchToggle | src/useless-box/controller.py:139-164 | always finishes with the lid closed, the arm retracted, the LED off and the state idle |
| Controller.BoxController.HandlePeekaboo | src/useless-box/controller.py:166-171 | the peek-a-boo gesture, then idle |
| Controller.BoxController.HandleTease | src/useless-box/controller.py:173-178 | the tease gesture, then idle |
| Controller.BoxController.HandleThreaten | src/useless-box/controller.py:180-191 | opens only if the lid does not read open; the state becomes lid-open and the arm stays at its 50 percent angle |
| Controller.BoxController.HandleCloseLid | src/useless-box/controller.py:193-201 | retract 100, close 100: the arm is retracted, the lid closed and the state idle |
| Controller.BoxController.ReactToSwitch | src/useless-box/controller.py:62-67 | LED on, a random delay, the defeat sequence, timer reset |
| Controller.BoxController.ReactVeryCloseIdle | src/useless-box/controller.py:69-81 | peek-a-boo on the first draw below 0.05, else threaten on the second draw below 0.2, else state, LED and timer unchanged |
| Controller.BoxController.ReactToDistance | src/useless-box/controller.py:83-105 | the close, far and very-close branches, with the result given by `Choose` |
| Controller.BoxController.React | src/useless-box/controller.py:61-105 | the whole if/elif chain agrees with `Choose` |
| Controller.BoxController.CheckInactivity | src/useless-box/controller.py:107-111 | closes the lid only on silence strictly longer than the timeout with the lid open; the timer is not reset |
| Controller.BoxController.ReadSensors | src/useless-box/controller.py:50-51 | reads the switch, then the proximity sensor; returns the reading and its default tier |
| Controller.BoxController.EndTick | src/useless-box/controller.py:113-115 | the last switch and proximity values are this tick's readings |
| Controller.BoxController.Update | src/useless-box/controller.py:46-115 | after any tick the state is idle or lid-open; the trace, timer, LED writes and last readings are those of the chosen branch and the timeout check |
| LegacyServo.DutyBoundsAt50Hz | src/useless-box/servo.py:5-10 | LOW = 25 and HIGH = 122 at 50 Hz |
| LegacyServo.LegacyDuty | src/useless-box/servo.py:12-15 | on [0,180] the duty lies in [LOW, HIGH] |
| LegacyServo.LegacyDutyEnds | src/useless-box/servo.py:12-15 | 0 degrees gives 25 and 180 degrees gives 122 |
| LegacyServo.LegacyDutyUnclamped | src/useless-box/servo.py:12-15 | there is no clamping: 360 degrees exceeds HIGH |
| LegacyServo.LegacyDutyMonotone | src/useless-box/servo.py:12-15 | the duty is non-decreasing in the angle |
| LegacyServo.StepSize | src/useless-box/servo.py:47 | the step is at least 1, so the loop terminates |
| LegacyServo.StepSizeAtMostDistance | src/useless-box/servo.py:47 | a step never exceeds the whole distance (or 1) |
| LegacyServo.Direction | src/useless-box/servo.py:48 | +1 exactly when the start duty is below the end duty |
| LegacyServo.Advance | src/useless-box/servo.py:53-57 | one pass: the duty moves by the step in the direction of travel and snaps to the end if it would run past |
| LegacyServo.AdvanceCloser | src/useless-box/servo.py:51-57 | each pass strictly decreases the remaining distance and never overshoots |
| LegacyServo.LoopPulses | src/useless-box/servo.py:51-57 | the loop's writes: each pass sets the duty and sleeps the delay, until the end is reached |
| LegacyServo.LoopPulsesBetween | src/useless-box/servo.py:51-57 | every duty written in the loop lies from the start toward the end, excluding the end; every sleep is the delay |
| LegacyServo.SmoothPulses | src/useless-box/servo.py:42-58 | the first write is the start duty and the final write the end duty; equal duties mean the loop body never runs |
| LegacyServo.SmoothPulsesBetween | src/useless-box/servo.py:51-58 | every duty written lies between the start and end duties |
| LegacyServo.Sg90Servo.constructor | src/useless-box/servo.py:18-24 | a fresh driver has written nothing |
| LegacyServo.Sg90Servo.MoveToAngle | src/useless-box/servo.py:26-32 | one duty write, no guard |
| LegacyServo.Sg90Servo.MoveSmoothly | src/useless-box/servo.py:34-58 | the `while` loop writes exactly `SmoothPulses` |
| LegacyServo.SwitchOffPulses | src/useless-box/servo.py:93-107 | the `switch_off` writes: snap to retracted, wait, smooth sweep to extended, wait, snap back, wait |
| LegacyServo.SwitchOffShape | src/useless-box/servo.py:93-107 | the sweep reaches the extended duty, the last duty written is the retracted one, and every duty lies between the two |
| LegacyServo.SwitchArm.Move | src/useless-box/servo.py:75-82 | ignores the duration: a single instant write at the angle for `percentage` |
| LegacyServo.SwitchArm.Retract | src/useless-box/servo.py:84-91 | a single instant write at the angle for `100 - percentage` |
| LegacyServo.SwitchArm.SwitchOff | src/useless-box/servo.py:93-107 | move to retracted, pre-wait, smooth sweep to extended, wait, move to retracted, post-wait |
| LegacyServo.LidArm.Open | src/useless-box/servo.py:124-131 | a single instant write at the angle for `percentage` |
| LegacyServo.LidArm.Close | src/useless-box/servo.py:133-140 | a single instant write at the angle for `100 - percentage` |
| LegacyServo.LegacyArmEndpoints | src/useless-box/servo.py:61-122 | switch arm 0 → 40 and 100 → 175; lid arm 0 → 90 and 100 → 8; `close(0)` writes the open angle's duty |
| LegacyServo.SwitchArm.constructor | src/useless-box/servo.py:61-70 | the given angles, a fresh servo, no write |
| LegacyServo.LidArm.constructor | src/useless-box/servo.py:110-119 | the given angles, a fresh servo, no write |
| Behaviours.RandInt | src/useless-box/useless.py:185-186 | `randint(lo, hi)` yields a value in [lo, hi] |
| Behaviours.SwitchOffIfOn | src/useless-box/useless.py:103-104 | the arm is extended fully only when the switch reads on |
| Behaviours.PeekabooTrace | src/useless-box/useless.py:94-106 | the commands of `_behavior_peekaboo` for the given readings |
| Behaviours.SlowApproachTrace | src/useless-box/useless.py:108-124 | the commands of `_behavior_slow_approach` for the given readings |
| Behaviours.QuickThreatTrace | src/useless-box/useless.py:126-138 | the commands of `_behavior_quick_threat` for the given readings |
| Behaviours.DoubleFakeoutTrace | src/useless-box/useless.py:140-153 | the commands of `_behavior_double_fakeout` for the given readings |
| Behaviours.RapidSwitchOffTrace | src/useless-box/useless.py:155-160 | the commands of `_behavior_rapid_switch_off` for the given reading |
| Behaviours.InsistentRound | src/useless-box/useless.py:165-169 | one pass of the insistent loop: read, extend if on, retract, pause |
| Behaviours.InsistentRounds | src/useless-box/useless.py:165-169 | the first `n` passes of the insistent loop |
| Behaviours.InsistentTrace | src/useless-box/useless.py:162-170 | the commands of `_behavior_insistent_switch`: open, three passes, close |
| Behaviours.LongPauseTrace | src/useless-box/useless.py:172-180 | the commands of `_behavior_long_pause`, the switch read only after a near reading |
| Behaviours.RandomLidRound | src/useless-box/useless.py:184-186 | one random lid round: open and close with their four draws in call order |
| Behaviours.RandomLidTrace | src/useless-box/useless.py:182-190 | the commands of `_behavior_random_lid_movement`: three rounds, then the switch check |
| Behaviours.SlowRetractTrace | src/useless-box/useless.py:192-200 | the commands of `_behavior_slow_retract` for the given reading |
| Behaviours.Feints | src/useless-box/useless.py:204-206 | `n` half extensions, each retracted at once: `2 * n` commands |
| Behaviours.TripleFakeTrace | src/useless-box/useless.py:202-211 | the commands of `_behavior_triple_fake`: three feints, then the switch check |
| Behaviours.Behaviour | src/useless-box/useless.py:22-33 | behaviour `i` of the behaviour list, in list order |
| Behaviours.UselessBox.constructor | src/useless-box/useless.py:9-33 | nothing issued yet |
| Behaviours.UselessBox.Sleep | src/useless-box/useless.py:99 | a pause is recorded and changes nothing else |
| Behaviours.UselessBox.OpenLid | src/useless-box/useless.py:35-42 | forwards percentage and time unchanged |
| Behaviours.UselessBox.CloseLid | src/useless-box/useless.py:44-51 | forwards percentage and time unchanged |
| Behaviours.UselessBox.GetProximity | src/useless-box/useless.py:53-60 | returns the reading |
| Behaviours.UselessBox.SwitchArmToOff | src/useless-box/useless.py:62-69 | takes `(time_ms, percentage)` and issues `(percentage, time_ms)` |
| Behaviours.UselessBox.RetractArm | src/useless-box/useless.py:71-78 | takes `(time_ms, percentage)` and issues `(percentage, time_ms)` |
| Behaviours.UselessBox.GetSwitch | src/useless-box/useless.py:80-87 | returns the reading |
| Behaviours.UselessBox.Peekaboo | src/useless-box/useless.py:94-106 | issues exactly the peek-a-boo trace for the readings |
| Behaviours.UselessBox.SlowApproach | src/useless-box/useless.py:108-124 | issues exactly the slow-approach trace, reading the switch only when the first proximity is not near |
| Behaviours.UselessBox.QuickThreat | src/useless-box/useless.py:126-138 | issues exactly the quick-threat trace |
| Behaviours.UselessBox.DoubleFakeout | src/useless-box/useless.py:140-153 | issues exactly the double-fake-out trace |
| Behaviours.UselessBox.RapidSwitchOff | src/useless-box/useless.py:155-160 | issues exactly the rapid switch-off trace |
| Behaviours.UselessBox.InsistentSwitch | src/useless-box/useless.py:162-170 | the `for` loop issues three insistent rounds between the open and the close |
| Behaviours.UselessBox.LongPause | src/useless-box/useless.py:172-180 | issues exactly the long-pause trace, with its short-circuit `and` |
| Behaviours.UselessBox.RandomLidMovement | src/useless-box/useless.py:182-190 | the `for` loop issues the three random lid rounds, then the switch check |
| Behaviours.UselessBox.SlowRetract | src/useless-box/useless.py:192-200 | issues exactly the slow-retract trace |
| Behaviours.UselessBox.TripleFake | src/useless-box/useless.py:202-211 | the `for` loop issues three feints, then the switch check |
| Behaviours.UselessBox.RandomBehaviour | src/useless-box/useless.py:22-92 | runs exactly one of the ten behaviours, in list order |
| Behaviours.BehaviourOpensFirst | src/useless-box/useless.py:95-203 | every behaviour's first command is a lid open |
| Behaviours.BehaviourClosesLast | src/useless-box/useless.py:106-211 | every behaviour except the long pause ends with `close_lid(0, …)` |
| Behaviours.LongPauseEnds | src/useless-box/useless.py:176-180 | the switch branch ends with the arm sent to 100 percent, with no retract and no close; otherwise it ends with `close_lid(0, 1000)` |
| Behaviours.LongPauseLeavesArmExtended | src/useless-box/useless.py:176-177 | in the switch branch the arm is left at the extended angle |
| Behaviours.ClosedByZeroLeavesOpen | src/useless-box/arm_lid.py:35 | any run ending in `close(0, …)` leaves the lid at the open angle |
| Behaviours.BehaviourLeavesLidOpen | src/useless-box/useless.py:106-211 | every behaviour that closes last leaves the lid fully open |
| Behaviours.RapidSwitchOffExtendsIffOn | src/useless-box/useless.py:155-160 | it extends the arm exactly when the switch reads on, then always retracts and closes |
| Behaviours.InsistentRoundCounts | src/useless-box/useless.py:165-169 | one pass holds one switch read, one retract, one extension exactly when on, and no lid move |
| Behaviours.InsistentRoundsCounts | src/useless-box/useless.py:165-169 | `n` rounds hold `n` switch reads, `n` retracts, one extension per "on" reading and no lid move |
| Behaviours.InsistentShape | src/useless-box/useless.py:162-170 | exactly 3 check/retract rounds between one open and one close |
| Behaviours.FeintsShape | src/useless-box/useless.py:204-206 | the feints alternate extend 50 and retract 50, one extension each and no switch read |
| Behaviours.TripleFakeShape | src/useless-box/useless.py:202-211 | exactly three feints at 50 percent before the single switch check |
| Behaviours.RandomLidRounds | src/useless-box/useless.py:184-186 | each round issues one open and one close |
| Behaviours.RandomLidRoundsShape | src/useless-box/useless.py:184-186 | the moves alternate open and close; opens lie in [50,100], closes in [0,50], durations in [200,500] |
| SimpleLoop.DecisionCount | src/useless-box/tests/simple.py:17-36 | a rising edge (on after off or `None`) sets the count to 20 before the lid decision, otherwise the count is unchanged |
| SimpleLoop.Decide | src/useless-box/tests/simple.py:38-48 | the lid/arm branch of one tick, given the count it decides with |
| SimpleLoop.TickAction | src/useless-box/tests/simple.py:35-48 | the action of a tick: the count is first restarted on a rising edge, then the branch is chosen |
| SimpleLoop.DecideCases | src/useless-box/tests/simple.py:38-48 | a closed lid opens exactly when `prox > 100` or the count is 0; an open lid closes exactly when `prox < 100` and the count is negative, and otherwise switches off exactly when the switch is on and the count is at most 0 |
| SimpleLoop.CountdownHolds | src/useless-box/tests/simple.py:39-45 | while the count is positive an open lid is held |
| SimpleLoop.CountdownExpires | src/useless-box/tests/simple.py:38-48 | at count 0 a closed lid opens and an open lid with the switch on is switched off, whatever the reading |
| SimpleLoop.SteadyCountdown | src/useless-box/tests/simple.py:35-50 | with the switch staying on, each tick lowers the count by exactly one |
| SimpleLoop.EdgeDelay | src/useless-box/tests/simple.py:35-50 | the tick `k` ticks after a rising edge decides with count `20 - k` |
| SimpleLoop.LastAfter | src/useless-box/tests/simple.py:51 | the remembered switch reading after a run of ticks: the last reading, if any |
| SimpleLoop.CountAfter | src/useless-box/tests/simple.py:35-50 | the count after a run of ticks: each tick restarts on a rising edge, then counts down by one |
| SimpleLoop.LidOpenAfter | src/useless-box/tests/simple.py:38-48 | whether the lid reads open after a run of ticks: opening ticks open it, closing and switch-off ticks close it, holding ticks keep it |
| SimpleLoop.EdgeHoldsLidOpen | src/useless-box/tests/simple.py:35-45 | an open lid stays open for the twenty ticks after a rising edge while the switch stays on, whatever the proximity readings |
| SimpleLoop.Sketch.constructor | src/useless-box/tests/simple.py:11-18 | both arms reset, the lid not open, no last reading, count -1 |
| SimpleLoop.Sketch.Tick | src/useless-box/tests/simple.py:30-51 | at most one of open, close or switch-off runs, each landing where it should (the lid's openness flips); the count drops by one; the last switch is this tick's reading |
| SimpleLoop.Sketch.Run | src/useless-box/tests/simple.py:29-52 | over a run of readings, the count, the last reading and whether the lid reads open follow the per-tick rules (`CountAfter`, `LastAfter`, `LidOpenAfter`); a switch arm that starts retracted ends retracted |

## Left out

- Hardware I/O is not modelled: `machine.Pin`, `PWM`, `SoftI2C` and the APDS9960 driver. Inputs and outputs are parameters and traces.
- The standard-library sources are not modelled. Sensor readings, `random.random`/`uniform`/`choice`/`randint` draws and `time.time()` become parameters.
- Blocking sleeps are recorded as trace entries; nothing blocks.
- `print` logging is left out.
- The endless loops are not modelled as endless:
  - `UselessBoxController.run` is represented by one `Update` per tick;
  - the `while True` of `tests/simple.py` runs over a finite list of readings in `SimpleLoop.Sketch.Run`.
- `switch.py`, `main.py`, `wifi.py`, `wled.py`, `boot.py`, `simple.py`, `tests/motion.py` and `proximity_test.py` are not part of this model. They are wiring, network or cosmetic code.
- The `__main__` example blocks are left out.
- IEEE floating point is not modelled. Angles and percentages are exact reals.
- Numerics.Round2: rounds halves up on exact values. It does not reproduce Python's round-half-even on binary floats.
- Sg90.Servo.MoveSmoothly: requires `steps > 0`. With 0 steps the source divides by zero, and every caller passes 50 or 100.
- LegacyServo.Sg90Servo.MoveSmoothly: requires `steps != 0` for the same reason.
- The controller's rare peek-a-boo branch (`controller.py:101-105`) is unreachable, so it is not modelled as a behaviour. `Controller.Choose` proves it is never chosen, and `ReactToDistance` marks it as dead code.
- Controller.BoxController.DefeatLoop: the `for … break` loop is written as a `while` whose guard also tests the last re-read. The rounds issued are the same.
- `useless.py` calls `switch_arm.move` and `toggle_switch.is_switch_on`, which do not exist in `arm_switch.py` and `switch.py`. `Behaviours.UselessBox` records them as an arm extension and a switch reading.
- `Behaviours.UselessBox` keeps only the command trace, not the `arm_lid.LidArm` and `arm_switch.SwitchArm` objects that `useless.py:3-4` imports and `useless.py:18-19` builds. Its `lid_arm.open`/`close` (`useless.py:42`, `useless.py:51`) and `switch_arm.retract` (`useless.py:78`) calls do match those classes; only `switch_arm.move` (`useless.py:69`) does not. What the servos do is stated by replaying the trace (`Behaviours.BehaviourLeavesLidOpen`, `Behaviours.LongPauseLeavesArmExtended`). That replay starts from whatever rig and start angle the caller gives. The model does not tie it to the two constructor resets (`arm_lid.py:15`, `arm_switch.py:15`) or to the default angles, and it does not promise the servo logs for this driver.
- `read_proximity` returns a string tier, and `useless.py` and `tests/simple.py` compare it with an integer. In Python that comparison raises `TypeError` at run time. As written, `tests/simple.py` stops at its first tick with the lid closed after the reset (`prox > 100`, `tests/simple.py:47`). Every `useless.py` behaviour that compares a reading stops at its first such comparison. The model does not reproduce this failure. It takes the readings as raw integers, as the `get_proximity` docstring says (`useless.py:56`).
- The controller reaches the arms directly through the box (`self.box.switch_arm.extend`). The model routes these calls through `BoxFacade.Box.ExtendArm` and `RetractArm`, which perform the same arm operations.
- `LegacyServo.Sg90Servo` records only duty writes and sleeps; the PWM frequency setup is left out.
- SimpleLoop.Sketch.Tick: the `sleep(2)` between extend and retract, and the tick's `sleep(0.2)`, are not recorded.
