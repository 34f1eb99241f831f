/**
 * The inertial-sensor calibration wait. The sensor is the sequence of answers
 * `calibrating(i)` that `is_calibrating()` gives on its i-th call after
 * `calibrate()` was issued. The wait polls every 50 ms for at most
 * 3000 ms, so the countdown starts at 60; the loop condition asks the sensor
 * before it looks at the countdown, so one more poll happens when the
 * countdown is already spent.
 */
module Calibration {

  const PollMs: nat := 50
  const BudgetMs: nat := 3000
  /** `3000/50`: the number of loop iterations the countdown allows. */
  const Countdown: nat := BudgetMs / PollMs

  datatype Outcome = Cancelled | Calibrated | Failed

  /**
   * The index of the first poll, from `i` on, at which the sensor no longer
   * reports calibrating, or `limit` if it reports calibrating at every poll
   * before `limit`.
   */
  function LeadingBusy(calibrating: nat -> bool, i: nat, limit: nat): (k: nat)
    requires i <= limit
    ensures i <= k <= limit
    ensures forall j :: i <= j < k ==> calibrating(j)
    ensures k < limit ==> !calibrating(k)
    decreases limit - i
  {
    if i == limit || !calibrating(i) then i else LeadingBusy(calibrating, i + 1, limit)
  }

  /**
   * The outcome `calibrate()` reports. A cancel request wins; otherwise
   * the sensor must have finished before the countdown ran out AND must
   * still report finished on the poll made after the loop.
   */
  function CalibrationOutcome(calibrating: nat -> bool, cancel: bool): (o: Outcome)
    ensures o == Cancelled <==> cancel
    // success needs two consecutive "done" answers, the first within the countdown
    ensures o == Calibrated ==> exists k: nat :: k < Countdown && !calibrating(k) && !calibrating(k + 1)
  {
    if cancel then Cancelled
    else
      var k := LeadingBusy(calibrating, 0, Countdown);
      if k < Countdown && !calibrating(k + 1) then Calibrated else Failed
  }

  /**
   * The `while` loop of `calibrate()`: returns the countdown left and the
   * number of sensor polls the loop condition made.
   */
  method AwaitCalibration(calibrating: nat -> bool, cancel: bool) returns (countdown: int, polls: nat)
    ensures cancel ==> countdown == Countdown && polls == 1
    ensures !cancel ==> countdown == Countdown - LeadingBusy(calibrating, 0, Countdown)
    ensures !cancel ==> polls == LeadingBusy(calibrating, 0, Countdown) + 1
  {
    countdown := Countdown;
    var busy := calibrating(0);
    polls := 1;
    while busy && countdown > 0 && !cancel
      invariant 0 <= countdown <= Countdown
      invariant polls == Countdown - countdown + 1
      invariant busy == calibrating(polls - 1)
      invariant forall j :: 0 <= j < polls - 1 ==> calibrating(j)
      invariant cancel ==> countdown == Countdown
    {
      countdown := countdown - 1;
      busy := calibrating(polls);
      polls := polls + 1;
    }
  }

  /** Poll `k`, within the countdown, is the first at which the sensor reports finished. */
  ghost predicate FirstIdle(calibrating: nat -> bool, k: nat)
  {
    k < Countdown && !calibrating(k) && forall j :: 0 <= j < k ==> calibrating(j)
  }

  lemma FirstIdleIsLeadingBusy(calibrating: nat -> bool, k: nat)
    requires FirstIdle(calibrating, k)
    ensures LeadingBusy(calibrating, 0, Countdown) == k
  {
  }

  /**
   * Success means: a first non-calibrating answer within the first 60 polls,
   * and a non-calibrating answer on the poll right after it.
   */
  lemma CalibratedIff(calibrating: nat -> bool)
    ensures CalibrationOutcome(calibrating, false) == Calibrated <==>
              exists k: nat :: FirstIdle(calibrating, k) && !calibrating(k + 1)
  {
    var first := LeadingBusy(calibrating, 0, Countdown);
    if CalibrationOutcome(calibrating, false) == Calibrated {
      assert FirstIdle(calibrating, first) && !calibrating(first + 1);
    } else {
      forall k: nat | FirstIdle(calibrating, k)
        ensures calibrating(k + 1)
      {
        FirstIdleIsLeadingBusy(calibrating, k);
      }
    }
  }

  /**
   * A sensor that stays busy for the first `d` polls and is finished from
   * then on calibrates successfully exactly when `d < 60`: finishing on the
   * 61st poll, after the 60th wait, is reported as a failure.
   */
  lemma SettlingSensor(calibrating: nat -> bool, d: nat)
    requires forall j: nat :: calibrating(j) <==> j < d
    ensures CalibrationOutcome(calibrating, false) == (if d < Countdown then Calibrated else Failed)
  {
    if d < Countdown {
      FirstIdleIsLeadingBusy(calibrating, d);
    }
  }

  /** A cancel request is reported as such, whatever the sensor says. */
  lemma CancelWins(calibrating: nat -> bool)
    ensures CalibrationOutcome(calibrating, true) == Cancelled
  {
  }
}
