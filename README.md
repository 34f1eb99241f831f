# Axoauto3 robot script — a verified model of its control logic

`src/auto.py` is the VEX IQ program of team 4028X for the 2023-2024 Full
Volume Challenge. One `Bot` object owns the robot. Most of its methods
forward calls to the `vex` library. Beneath that wrapper sit a few pieces of
real control logic, and this project models them in Dafny:

- **Mode selector and run guard.** The brain's Left and Right buttons cycle
  `modeNumber` through five modes with Python's floor modulo. The Check
  button refuses while a routine runs. When the robot is not calibrated and
  the mode is above 0, Check only sets up and calibrates the drivetrain.
  Otherwise it dispatches the routine for the mode with `isAutoRunning`
  raised.
- **Calibration.** `setupAutoDriveTrain` builds the drivetrain once.
  `calibrate` polls the inertial sensor for at most 60 waits of 50 ms. It
  reports success, failure (and stops everything) or cancellation.
- **Arc wait.** `autoArc` polls the heading until it is strictly inside
  ±5° of the target, or until it has repeated itself more than five polls
  in a row. It then brakes both drive motors.
- **Timeout bracketing.** `autoDrive`, `autoTurn` and `autoArc` set a
  temporary timeout only when it is not the default 100 s, and restore
  100 s afterwards. `autoTurn` sends half the requested angle.
- **Battery health.** Battery capacity maps to one of four colours.
- **Basket.** The basket moves only when its limit bumper is not pressed.
  A bumper press coasts it.

Each motor, motor group and the drivetrain is a record (`Devices.Actuator`)
of what it was last told:

- the timeout currently set;
- the last motion command, with the timeout in force when it was issued;
- the stop mode, if a stop came after that command.

Sensors are inputs:

- `is_calibrating()` is a function from the poll number to a boolean;
- `heading()` is a finite sequence of readings;
- bumper `pressing()` and the sensor check in `applyMode` are booleans.

Modules:

- `Devices` (devices.dfy): the device records.
- `Selector` (selector.dfy): mode tables, floor modulo, button presses, the Check decision.
- `Health` (health.dfy): the battery colour.
- `Calibration` (calibration.dfy): the calibration wait and its outcome.
- `Arc` (arc.dfy): the arc wait.
- `Robot` (robot.dfy): the `Bot` class, with one method per modelled handler or helper (`checkHealth` is `Health.HealthColor`).

Properties proved:

- Every Left or Right press outside a run selects a valid index into all
  three five-entry tables. From power-on (-1), Right selects 0 and Left
  selects 3. Five presses of one button return a selected mode (0-4) to itself. Left undoes
  Right. Any mode is reachable with one to five Right presses. During a run
  the mode does not change.
- A routine other than the red one is never dispatched uncalibrated.
- Calibration succeeds exactly when the sensor first reports "done" within
  the first 60 polls and still reports "done" on the following poll.
  - A sensor that stays busy for `d` polls succeeds exactly when `d < 60`.
  - So a sensor that finishes only on the 61st poll, after the 60th wait,
    counts as a failure.
  - The cancelled branch is unreachable: `src/auto.py` only ever assigns
    `cancelCalibration = False` (lines 15 and 87), which `Bot.Valid` keeps.
- Once a drivetrain exists, `setupAutoDriveTrain` returns `None` without
  calibrating again. A failed calibration therefore cannot be retried from
  the Check button: every later Check press in modes 1-4 answers "Try again?".
- The arc wait stops at the first poll that is in the band or stuck, and
  this stopping point is unique. The stuck test fires exactly when six
  consecutive polls each repeat the previous reading. A frozen heading
  trips the stuck test after 6 polls when it reads 0, because the first
  reading is compared with `lastHeading = 0` (`src/auto.py:246, 254`). For any other frozen value it takes 7 polls.
  Both motors are braked on every exit. The band does not wrap at 0/360.
  `autoArc` has no timeout exit (its TODO at `src/auto.py:245`): when
  neither exit fires it never returns and the drive motors keep spinning,
  which the model reports as `StillPolling`.
- The health colour is BLUE above 95, GREEN in (85, 95], ORANGE in (81, 85]
  and RED at 81 or below. The mapping is monotone.

## Model

| member | source | states |
|---|---|---|
| Selector.FloorMod | src/auto.py:91 | Python's `%` with a positive divisor: the result lies in [0, n) and differs from `a` by a multiple of n (n times the floor quotient) |
| Selector.SelectedMode | src/auto.py:85-93 | `newMode % len(MODES)` is a valid index into MODES, MODE_COLORS and MODE_PEN_COLORS, all of length 5, for any integer, negative ones included |
| Selector.PressesWrap | src/auto.py:79-91 | k ≥ 1 presses of one selector button land on the start mode moved by k steps, reduced modulo 5 |
| Selector.FirstPress | src/auto.py:79-91 | from the initial -1, the first Right press selects mode 0 and the first Left press selects mode 3 |
| Selector.FullCycle | src/auto.py:79-91 | five presses of Right, or of Left, bring a selected mode back to itself |
| Selector.LeftUndoesRight | src/auto.py:79-91 | a Left press undoes a Right press on any selected mode |
| Selector.EveryModeReachable | src/auto.py:79-91 | from any selector state, -1 included, every mode is reached by some run of 1 to 5 Right presses |
| Selector.RoutineForModes | src/auto.py:66-75 | the Check dispatch has a routine for each of the modes 0-4, and none for the unselected -1 |
| Selector.Decide | src/auto.py:56-77 | Check refuses iff a routine runs; it only sets up the drivetrain iff not running, not calibrated and mode > 0; otherwise it dispatches the mode's routine |
| Selector.NoUncalibratedRoutine | src/auto.py:59-75 | without calibration, only the red routine (mode 0) or nothing (mode -1) is ever dispatched |
| Health.HealthColor | src/auto.py:161-174 | BLUE iff capacity > 95, GREEN iff 85 < capacity ≤ 95, ORANGE iff 81 < capacity ≤ 85, RED (the low-battery case) iff capacity ≤ 81 |
| Health.HealthMonotone | src/auto.py:161-174 | more battery capacity never yields a worse colour |
| Calibration.LeadingBusy | src/auto.py:197-202 | the first poll at which the sensor no longer reports calibrating, capped at the limit: every earlier poll reported calibrating |
| Calibration.CalibrationOutcome | src/auto.py:203-215 | a cancel request, tested first, is reported as cancelled and nothing else is; calibrated requires the poll that ended the wait within the countdown and the re-poll after the loop both to say "done"; every other case is a failure |
| Calibration.AwaitCalibration | src/auto.py:196-202 | the wait loop leaves countdown 60 - k after k + 1 sensor polls, where k is the first "done" poll (k = 60 if none); a pending cancel exits after one poll with the countdown untouched |
| Calibration.CalibratedIff | src/auto.py:203-215 | calibration succeeds iff some poll k < 60 is the first "done" answer and poll k + 1 also answers "done" |
| Calibration.SettlingSensor | src/auto.py:197-215 | a sensor busy for its first d polls and done afterwards calibrates iff d < 60; finishing on the 61st poll is a failure |
| Calibration.CancelWins | src/auto.py:203-205 | with a cancel request, the outcome is "cancelled" whatever the sensor reports |
| Arc.WatchHeading | src/auto.py:245-261 | the arc wait stops at the first poll that is strictly inside (target-5, target+5) or stuck, and reports which one, testing the band first; if neither happens it is still polling when the readings end |
| Arc.ArcStopsUnique | src/auto.py:246-261 | the description of where the arc wait stops determines the number of polls and the exit kind uniquely |
| Arc.StuckIffSixRepeats | src/auto.py:254-259 | `sameHeadings > 5` at poll i iff i ≥ 5 and each of polls i-5..i equals the reading before it (0 before the first poll) |
| Arc.FrozenHeading | src/auto.py:246-261 | a heading frozen outside the band stops the wait as stuck, after 6 polls if it reads 0 and after 7 otherwise |
| Arc.NoWrapAround | src/auto.py:252 | the band is plain arithmetic: 358° is not near a target of 0°, and 2° is not near 358° |
| Devices.HaltIdempotent | src/auto.py:141-145 | stopping an actuator twice with the same mode is the same as stopping it once, and stopping leaves its command and timeout alone |
| Robot.Bot.constructor | src/auto.py:11-17 | a new robot is not running, not calibrated, has no cancel request, has mode -1 and no drivetrain |
| Robot.Bot.ApplyMode | src/auto.py:85-93 | outside a run the mode becomes `newMode % 5`; during a run it is unchanged; the selector stays valid and no cancel request appears |
| Robot.Bot.OnBrainButtonRight | src/auto.py:79-80 | one Right press: the mode moves one step forward, wrapping at 5; from -1 it becomes 0; unchanged during a run |
| Robot.Bot.OnBrainButtonLeft | src/auto.py:82-83 | one Left press: the mode moves one step back, wrapping at 5; from -1 it becomes 3; unchanged during a run |
| Robot.Bot.OnBrainButtonCheck | src/auto.py:56-77 | during a run nothing changes; uncalibrated in modes 1-4 it only tries setup, which is ready iff no drivetrain existed and calibration succeeded; a setup attempt on an existing drivetrain leaves the drivetrain, intake, basket and calibration count as they were; on a new one it starts one calibration and builds the drivetrain, which (with intake and basket) is coasted exactly when calibration failed; otherwise it dispatches the mode's routine and the run flag is false again afterwards |
| Robot.Bot.SetupAutoDriveTrain | src/auto.py:176-192 | with a drivetrain it returns None and changes nothing; otherwise it builds the drivetrain and returns True, or starts calibration and returns its outcome when asked to calibrate |
| Robot.Bot.Calibrate | src/auto.py:194-215 | starts one sensor calibration; returns true and sets `isCalibrated` only on success; on failure coasts the drivetrain, intake and basket; otherwise leaves them alone |
| Robot.Bot.StopAll | src/auto.py:155-159 | coasts the drivetrain when there is one, and always the intake and the basket |
| Robot.Bot.AutoDrive | src/auto.py:217-225 | without a drivetrain nothing changes; with one, the drive command runs under the requested timeout if it is not 100, and the timeout is 100 afterwards; with 100 the timeout is untouched |
| Robot.Bot.AutoTurn | src/auto.py:228-236 | as AutoDrive, for a turn command whose angle is half the requested one |
| Robot.Bot.AutoArc | src/auto.py:238-268 | both motors spin forward at their own velocities under the temporary timeout; when the wait exits (in band or stuck) both are braked and the timeout is restored to 100 iff it was not 100; while still polling they keep spinning |
| Robot.Bot.RaiseBasket | src/auto.py:117-126 | the intake is always stopped; unless the up bumper is pressed, the basket goes up `turns` turns (9000° for 0) under a 2 s timeout, then gets a 60 s timeout and HOLD |
| Robot.Bot.LowerBasket | src/auto.py:128-139 | unless the down bumper is pressed, the basket goes down under a 2 s timeout; only when waiting is it then given 60 s and COAST; without waiting the timeout stays 2 s and no stop is issued |
| Robot.Bot.StartIntake | src/auto.py:113-115 | lowers the basket fully, waiting for it under a 2 s move timeout and restoring 60 s, then coasting it, unless the down bumper is pressed; then spins the intake in reverse at full speed |
| Robot.Bot.OnBasketUpBumper | src/auto.py:141-142 | the up bumper coasts the basket |
| Robot.Bot.OnBasketDownBumper | src/auto.py:144-145 | the down bumper coasts the basket |

## Left out

- Screen output (`fillScreen`, `print`, the colours drawn), sounds (`finishCheckpoint`, `finishRun`) and setting the health LED: user-interface side effects. Only the colour `checkHealth` chooses is modelled (`Health.HealthColor`).
- `setup`, `setupPortMappings`, `setupDrive`, `setupIntake`, `setupBasket`, `setupSelector`, `run` and the module-level `bot`: port wiring and device construction. The constructor starts from devices that have received no command, so the zero-velocity spin from `setupDrive` is not recorded.
- The routines `runAutoRed`, `runGreenStrip`, `runGoal1`, `runGoal2`, `runGoal3`, `runGoal3New`, `runCurveOut`, `runCurveHome`, `autoDump` and `autoBasket`. They are fixed call sequences with literal arguments. The Check dispatch returns which routine it would run and does not model its effects. One such effect is that `runAutoRed` builds the drivetrain without calibrating it.
- What the `vex` calls do physically (`drive_for`, `turn_for`, `spin_for`, `Inertial.calibrate`): each is recorded as a command on the device record.
- The drivetrain is built from the two drive motors. The model keeps the drivetrain and the motors as independent records, so commands to one are not reflected in the others.
- Real-time waits (`wait`, `sleep`) and the timing of polls. Bumper and button callbacks run on separate VEX event threads; here they are sequential method calls. A press during a routine is modelled by calling a handler while `isAutoRunning` is true.
- Floating point: headings, angles, distances and turns are `real`. Velocities and timeouts are integers, as every call site in `src/auto.py` passes them.
- Health.HealthColor: the battery reading `brain.battery.capacity()` (`src/auto.py:164`) is taken to be an integer percent; a fractional reading is not modelled.
- Robot.Bot.AutoArc: the endless polling loop is modelled over a finite list of headings. When the list runs out with no exit, the method returns `StillPolling` instead of looping forever.
- Robot.Bot.AutoArc: `motorLeft.set_timeout(timeoutSecs)` is called without a unit; the model records the value as seconds, like the other timeouts.
- Robot.Bot.OnBrainButtonCheck: the messages "Already running", "Ready!", "Try again?" and "Done" are represented by the returned `CheckResult`, not as text.
