/**
 * The robot object: the selector and run-guard state, the calibration flags,
 * the optional drivetrain, and the records of what the two drive motors, the
 * intake group and the basket group were last told. Button and bumper
 * callbacks are methods called one at a time; sensor readings are parameters.
 */
module Robot {
  import opened Devices
  import opened Selector
  import opened Calibration
  import opened Arc

  /** The timeout, in seconds, that the motion helpers treat as "not requested" and restore. */
  const DefaultTimeoutSecs: int := 100
  /** The basket's timeout while it moves, and the one restored after it has moved. */
  const BasketMoveSecs: int := 2
  const BasketRestSecs: int := 60
  /** How far the basket is driven when no number of turns is given: far enough to reach a bumper. */
  const BasketFullTravelDeg: real := 9000.0
  /** Percent velocity of every basket and intake command. */
  const FullSpeed: int := 100

  /** The drivetrain `setupAutoDriveTrain` builds, with its geometry in millimetres. */
  const NewDriveTrain: DriveTrain := DriveTrain(200.0, 200.025, 165.1, 1.0, Fresh)

  /** The result of the check button. */
  datatype CheckResult = AlreadyRunning | SetupTried(ready: bool) | Dispatched(routine: Option<Routine>)

  /**
   * A move bracketed by a temporary timeout: the timeout is set to `secs`
   * only when it differs from the default, the move then runs under it, and
   * the default is restored afterwards; a default request leaves the
   * timeout as it was.
   */
  ghost predicate RanWithTimeout(before: Actuator, after: Actuator, secs: int, move: Command)
  {
    after.lastMove == move && after.stopMode == None &&
    after.moveTimeout == (if secs != DefaultTimeoutSecs then Some(secs) else before.timeoutSecs) &&
    after.timeoutSecs == (if secs != DefaultTimeoutSecs then Some(DefaultTimeoutSecs) else before.timeoutSecs)
  }

  /** The amount and unit the basket is driven for a requested number of turns (0: full travel). */
  function BasketTravel(turns: real): (real, RotationUnit)
  {
    if turns != 0.0 then (turns, Turns) else (BasketFullTravelDeg, Degrees)
  }

  class Bot {
    var modeNumber: int
    var isAutoRunning: bool
    var isCalibrated: bool
    var cancelCalibration: bool
    var driveTrain: Option<DriveTrain>
    var motorLeft: Actuator
    var motorRight: Actuator
    var intake: Actuator
    var basket: Actuator
    /** How many times `calibrate()` was sent to the inertial sensor. */
    var calibrationsStarted: nat

    /** The selector always holds a valid index or the unselected value, and nothing ever asks to cancel calibration. */
    ghost predicate Valid()
      reads this
    {
      ValidSelection(modeNumber) && !cancelCalibration
    }

    constructor ()
      ensures Valid()
      ensures modeNumber == Unselected && !isAutoRunning && !isCalibrated && !cancelCalibration
      ensures driveTrain == None && calibrationsStarted == 0
      ensures motorLeft == Fresh && motorRight == Fresh && intake == Fresh && basket == Fresh
    {
      modeNumber := Unselected;
      isAutoRunning := false;
      isCalibrated := false;
      cancelCalibration := false;
      driveTrain := None;
      motorLeft, motorRight, intake, basket := Fresh, Fresh, Fresh, Fresh;
      calibrationsStarted := 0;
    }

    /** `applyMode(newMode)`; `calibrating` is the inertial sensor's answer to `is_calibrating()`. */
    method ApplyMode(newMode: int, calibrating: bool)
      requires Valid()
      modifies this`modeNumber, this`cancelCalibration
      ensures Valid()
      ensures modeNumber == if old(isAutoRunning) then old(modeNumber) else SelectedMode(newMode)
    {
      if calibrating {
        cancelCalibration := false;
      }
      if !isAutoRunning {
        modeNumber := SelectedMode(newMode);
      }
    }

    method OnBrainButtonRight(calibrating: bool)
      requires Valid()
      modifies this`modeNumber, this`cancelCalibration
      ensures Valid()
      ensures modeNumber == if old(isAutoRunning) then old(modeNumber) else Presses(old(modeNumber), 1, 1)
      ensures !old(isAutoRunning) && old(modeNumber) == Unselected ==> modeNumber == 0
    {
      ApplyMode(modeNumber + 1, calibrating);
    }

    method OnBrainButtonLeft(calibrating: bool)
      requires Valid()
      modifies this`modeNumber, this`cancelCalibration
      ensures Valid()
      ensures modeNumber == if old(isAutoRunning) then old(modeNumber) else Presses(old(modeNumber), -1, 1)
      ensures !old(isAutoRunning) && old(modeNumber) == Unselected ==> modeNumber == 3
    {
      ApplyMode(modeNumber - 1, calibrating);
    }

    /**
     * `onBrainButtonCheck`. A routine that is already running refuses; an
     * uncalibrated robot in modes 1-4 only tries to set up and calibrate the
     * drivetrain; otherwise the routine for the mode is dispatched with the
     * run guard raised, and the guard is lowered again when it returns.
     */
    method OnBrainButtonCheck(calibrating: nat -> bool) returns (r: CheckResult)
      requires Valid()
      modifies this`isAutoRunning, this`driveTrain, this`isCalibrated, this`calibrationsStarted,
               this`intake, this`basket
      ensures Valid()
      ensures isAutoRunning == old(isAutoRunning)
      ensures r == AlreadyRunning <==> old(isAutoRunning)
      ensures r.SetupTried? <==> Decide(old(isAutoRunning), old(isCalibrated), modeNumber) == SetupDriveTrain
      ensures r.Dispatched? ==> r.routine == RoutineFor(modeNumber)
      ensures !r.SetupTried? ==>
                driveTrain == old(driveTrain) && isCalibrated == old(isCalibrated) &&
                calibrationsStarted == old(calibrationsStarted) && intake == old(intake) && basket == old(basket)
      ensures r.SetupTried? ==> driveTrain.Some? && isCalibrated == r.ready
      // a drivetrain that already exists is never calibrated again
      ensures r.SetupTried? ==>
                r.ready == (old(driveTrain).None? && CalibrationOutcome(calibrating, false) == Calibrated)
      ensures r.SetupTried? && old(driveTrain).Some? ==>
                calibrationsStarted == old(calibrationsStarted) &&
                driveTrain == old(driveTrain) && intake == old(intake) && basket == old(basket)
      ensures r.SetupTried? && old(driveTrain).None? ==>
                calibrationsStarted == old(calibrationsStarted) + 1 &&
                if CalibrationOutcome(calibrating, false) == Failed then
                  driveTrain == Some(NewDriveTrain.Halt(Coast)) &&
                  intake == old(intake).Halt(Coast) && basket == old(basket).Halt(Coast)
                else
                  driveTrain == Some(NewDriveTrain) && intake == old(intake) && basket == old(basket)
    {
      if isAutoRunning {
        r := AlreadyRunning;
      } else if !isCalibrated && modeNumber > 0 {
        var built := SetupAutoDriveTrain(true, calibrating);
        r := SetupTried(built == Some(true));
      } else {
        isAutoRunning := true;
        r := Dispatched(RoutineFor(modeNumber));
        isAutoRunning := false;
      }
    }

    /** `setupAutoDriveTrain`: `Some(b)` is Python's `True`/`False`, `None` is Python's `None`. */
    method SetupAutoDriveTrain(calibrate: bool, calibrating: nat -> bool) returns (r: Option<bool>)
      modifies this`driveTrain, this`isCalibrated, this`calibrationsStarted, this`intake, this`basket
      ensures old(driveTrain).Some? ==>
                r == None && driveTrain == old(driveTrain) && isCalibrated == old(isCalibrated) &&
                calibrationsStarted == old(calibrationsStarted) && intake == old(intake) && basket == old(basket)
      ensures old(driveTrain).None? && !calibrate ==>
                r == Some(true) && driveTrain == Some(NewDriveTrain) && isCalibrated == old(isCalibrated) &&
                calibrationsStarted == old(calibrationsStarted) && intake == old(intake) && basket == old(basket)
      ensures old(driveTrain).None? && calibrate ==>
                var outcome := CalibrationOutcome(calibrating, cancelCalibration);
                r == Some(outcome == Calibrated) &&
                calibrationsStarted == old(calibrationsStarted) + 1 &&
                isCalibrated == (old(isCalibrated) || outcome == Calibrated) &&
                if outcome == Failed then
                  driveTrain == Some(NewDriveTrain.Halt(Coast)) &&
                  intake == old(intake).Halt(Coast) && basket == old(basket).Halt(Coast)
                else
                  driveTrain == Some(NewDriveTrain) && intake == old(intake) && basket == old(basket)
    {
      if driveTrain.None? {
        driveTrain := Some(NewDriveTrain);
        if calibrate {
          var ok := Calibrate(calibrating);
          return Some(ok);
        }
        return Some(true);
      }
      r := None;
    }

    /**
     * `calibrate`: start the sensor's calibration, wait for it, and report
     * the outcome. Success sets `isCalibrated`; failure stops everything.
     */
    method Calibrate(calibrating: nat -> bool) returns (ok: bool)
      modifies this`isCalibrated, this`calibrationsStarted, this`driveTrain, this`intake, this`basket
      ensures calibrationsStarted == old(calibrationsStarted) + 1
      ensures ok <==> CalibrationOutcome(calibrating, cancelCalibration) == Calibrated
      ensures isCalibrated == (old(isCalibrated) || ok)
      ensures CalibrationOutcome(calibrating, cancelCalibration) == Failed ==>
                driveTrain == (if old(driveTrain).Some? then Some(old(driveTrain).value.Halt(Coast)) else None) &&
                intake == old(intake).Halt(Coast) && basket == old(basket).Halt(Coast)
      ensures CalibrationOutcome(calibrating, cancelCalibration) != Failed ==>
                driveTrain == old(driveTrain) && intake == old(intake) && basket == old(basket)
    {
      calibrationsStarted := calibrationsStarted + 1;
      var countdown, polls := AwaitCalibration(calibrating, cancelCalibration);
      if cancelCalibration {
        ok := false;
      } else if countdown > 0 && !calibrating(polls) {
        isCalibrated := true;
        ok := true;
      } else {
        StopAll();
        ok := false;
      }
    }

    /** `stopAll`: coast the drivetrain if there is one, the intake and the basket. */
    method StopAll()
      modifies this`driveTrain, this`intake, this`basket
      ensures driveTrain == if old(driveTrain).Some? then Some(old(driveTrain).value.Halt(Coast)) else None
      ensures intake == old(intake).Halt(Coast) && basket == old(basket).Halt(Coast)
    {
      if driveTrain.Some? {
        driveTrain := Some(driveTrain.value.Halt(Coast));
      }
      intake := intake.Halt(Coast);
      basket := basket.Halt(Coast);
    }

    /** `autoDrive`: drive a distance under a temporary timeout; nothing happens without a drivetrain. */
    method AutoDrive(dir: Direction, distance: real, unit: DistanceUnit, velocity: int,
                     vunit: VelocityUnit, wait: bool, timeoutSecs: int)
      modifies this`driveTrain
      ensures old(driveTrain).None? ==> driveTrain == None
      ensures old(driveTrain).Some? ==>
                driveTrain.Some? &&
                driveTrain.value == old(driveTrain).value.(drive := driveTrain.value.drive) &&
                RanWithTimeout(old(driveTrain).value.drive, driveTrain.value.drive, timeoutSecs,
                               DriveFor(dir, distance, unit, velocity, vunit, wait))
    {
      if driveTrain.Some? {
        var dt := driveTrain.value;
        if timeoutSecs != DefaultTimeoutSecs {
          dt := dt.(drive := dt.drive.SetTimeout(timeoutSecs));
        }
        dt := dt.(drive := dt.drive.Issue(DriveFor(dir, distance, unit, velocity, vunit, wait)));
        if timeoutSecs != DefaultTimeoutSecs {
          dt := dt.(drive := dt.drive.SetTimeout(DefaultTimeoutSecs));
        }
        driveTrain := Some(dt);
      }
    }

    /** `autoTurn`: like `autoDrive`, but the drivetrain is told to turn half the requested angle. */
    method AutoTurn(side: TurnSide, angle: real, unit: RotationUnit, velocity: int,
                    vunit: VelocityUnit, wait: bool, timeoutSecs: int)
      modifies this`driveTrain
      ensures old(driveTrain).None? ==> driveTrain == None
      ensures old(driveTrain).Some? ==>
                driveTrain.Some? &&
                driveTrain.value == old(driveTrain).value.(drive := driveTrain.value.drive) &&
                RanWithTimeout(old(driveTrain).value.drive, driveTrain.value.drive, timeoutSecs,
                               TurnFor(side, angle / 2.0, unit, velocity, vunit, wait))
    {
      if driveTrain.Some? {
        var dt := driveTrain.value;
        if timeoutSecs != DefaultTimeoutSecs {
          dt := dt.(drive := dt.drive.SetTimeout(timeoutSecs));
        }
        dt := dt.(drive := dt.drive.Issue(TurnFor(side, angle / 2.0, unit, velocity, vunit, wait)));
        if timeoutSecs != DefaultTimeoutSecs {
          dt := dt.(drive := dt.drive.SetTimeout(DefaultTimeoutSecs));
        }
        driveTrain := Some(dt);
      }
    }

    /**
     * `autoArc`: spin each drive motor forward at its own velocity, wait for
     * the heading (read from `headings`), then brake both motors and restore
     * the default timeout if a temporary one was set. If the headings run out
     * while the wait is still polling, the motors are still spinning.
     */
    method AutoArc(target: real, leftVelocity: int, rightVelocity: int, timeoutSecs: int,
                   headings: seq<real>) returns (exit: ArcExit, polls: nat)
      modifies this`motorLeft, this`motorRight
      ensures ArcStops(headings, target, polls, exit)
      ensures motorLeft.lastMove == Spin(Forward, leftVelocity, Percent)
      ensures motorRight.lastMove == Spin(Forward, rightVelocity, Percent)
      ensures timeoutSecs != DefaultTimeoutSecs ==>
                motorLeft.moveTimeout == Some(timeoutSecs) && motorRight.moveTimeout == Some(timeoutSecs)
      ensures timeoutSecs == DefaultTimeoutSecs ==>
                motorLeft.moveTimeout == old(motorLeft.timeoutSecs) &&
                motorRight.moveTimeout == old(motorRight.timeoutSecs)
      ensures exit != StillPolling ==>
                motorLeft.stopMode == Some(Brake) && motorRight.stopMode == Some(Brake) &&
                motorLeft.timeoutSecs == (if timeoutSecs != DefaultTimeoutSecs then Some(DefaultTimeoutSecs) else old(motorLeft.timeoutSecs)) &&
                motorRight.timeoutSecs == (if timeoutSecs != DefaultTimeoutSecs then Some(DefaultTimeoutSecs) else old(motorRight.timeoutSecs))
      ensures exit == StillPolling ==>
                motorLeft.stopMode == None && motorRight.stopMode == None &&
                motorLeft.timeoutSecs == (if timeoutSecs != DefaultTimeoutSecs then Some(timeoutSecs) else old(motorLeft.timeoutSecs)) &&
                motorRight.timeoutSecs == (if timeoutSecs != DefaultTimeoutSecs then Some(timeoutSecs) else old(motorRight.timeoutSecs))
    {
      if timeoutSecs != DefaultTimeoutSecs {
        motorLeft := motorLeft.SetTimeout(timeoutSecs);
        motorRight := motorRight.SetTimeout(timeoutSecs);
      }
      motorLeft := motorLeft.Issue(Spin(Forward, leftVelocity, Percent));
      motorRight := motorRight.Issue(Spin(Forward, rightVelocity, Percent));
      exit, polls := WatchHeading(headings, target);
      if exit == StillPolling {
        return;
      }
      motorLeft := motorLeft.Halt(Brake);
      motorRight := motorRight.Halt(Brake);
      if timeoutSecs != DefaultTimeoutSecs {
        motorLeft := motorLeft.SetTimeout(DefaultTimeoutSecs);
        motorRight := motorRight.SetTimeout(DefaultTimeoutSecs);
      }
    }

    /**
     * `raiseBasket`: always stop the intake; unless the up bumper is pressed,
     * drive the basket up under a 2 s timeout, then set 60 s and hold.
     */
    method RaiseBasket(turns: real, upBumperPressed: bool)
      modifies this`intake, this`basket
      ensures intake == old(intake).Halt(Configured)
      ensures upBumperPressed ==> basket == old(basket)
      ensures !upBumperPressed ==>
                basket.lastMove == SpinFor(Forward, BasketTravel(turns).0, BasketTravel(turns).1, FullSpeed, Percent, true) &&
                basket.moveTimeout == Some(BasketMoveSecs) &&
                basket.timeoutSecs == Some(BasketRestSecs) && basket.stopMode == Some(Hold)
    {
      intake := intake.Halt(Configured);
      if !upBumperPressed {
        basket := basket.SetTimeout(BasketMoveSecs);
        if turns != 0.0 {
          basket := basket.Issue(SpinFor(Forward, turns, Turns, FullSpeed, Percent, true));
        } else {
          basket := basket.Issue(SpinFor(Forward, BasketFullTravelDeg, Degrees, FullSpeed, Percent, true));
        }
        basket := basket.SetTimeout(BasketRestSecs);
        basket := basket.Halt(Hold);
      }
    }

    /**
     * `lowerBasket`: unless the down bumper is pressed, drive the basket down
     * under a 2 s timeout; only when waiting for it, set 60 s and coast.
     */
    method LowerBasket(turns: real, wait: bool, downBumperPressed: bool)
      modifies this`basket
      ensures downBumperPressed ==> basket == old(basket)
      ensures !downBumperPressed ==>
                basket.lastMove == SpinFor(Reverse, BasketTravel(turns).0, BasketTravel(turns).1, FullSpeed, Percent, wait) &&
                basket.moveTimeout == Some(BasketMoveSecs)
      ensures !downBumperPressed && wait ==>
                basket.timeoutSecs == Some(BasketRestSecs) && basket.stopMode == Some(Coast)
      ensures !downBumperPressed && !wait ==>
                basket.timeoutSecs == Some(BasketMoveSecs) && basket.stopMode == None
    {
      if !downBumperPressed {
        basket := basket.SetTimeout(BasketMoveSecs);
        if turns != 0.0 {
          basket := basket.Issue(SpinFor(Reverse, turns, Turns, FullSpeed, Percent, wait));
        } else {
          basket := basket.Issue(SpinFor(Reverse, BasketFullTravelDeg, Degrees, FullSpeed, Percent, wait));
        }
        if wait {
          basket := basket.SetTimeout(BasketRestSecs);
          basket := basket.Halt(Coast);
        }
      }
    }

    /** `startIntake`: lower the basket (waiting for it), then spin the intake in reverse. */
    method StartIntake(downBumperPressed: bool)
      modifies this`intake, this`basket
      ensures downBumperPressed ==> basket == old(basket)
      ensures !downBumperPressed ==>
                basket.lastMove == SpinFor(Reverse, BasketFullTravelDeg, Degrees, FullSpeed, Percent, true) &&
                basket.moveTimeout == Some(BasketMoveSecs) &&
                basket.timeoutSecs == Some(BasketRestSecs) && basket.stopMode == Some(Coast)
      ensures intake == old(intake).Issue(Spin(Reverse, FullSpeed, Percent))
    {
      LowerBasket(0.0, true, downBumperPressed);
      intake := intake.Issue(Spin(Reverse, FullSpeed, Percent));
    }

    /** `onBasketUpBumper`: the basket reached the top; let it coast. */
    method OnBasketUpBumper()
      modifies this`basket
      ensures basket == old(basket).Halt(Coast)
    {
      basket := basket.Halt(Coast);
    }

    /** `onBasketDownBumper`: the basket reached the bottom; let it coast. */
    method OnBasketDownBumper()
      modifies this`basket
      ensures basket == old(basket).Halt(Coast)
    {
      basket := basket.Halt(Coast);
    }
  }
}
