/**
 * The brain-button mode selector: three parallel five-entry tables, Python's
 * floor modulo, and what a sequence of Left or Right presses does to the
 * selected mode. The check button's choice between refusing, setting up the
 * drivetrain and dispatching a routine is `Decide`.
 */
module Selector {
  import opened Devices

  const Modes: seq<string> := ["AUTO_RED", "GOAL_2", "GOAL_1", "GOAL_3", "CURVE"]
  const ModeColors: seq<Color> := [Red, YellowGreen, White, Purple, Yellow]
  const ModePenColors: seq<Color> := [White, Black, Black, White, Black]

  /** The mode before any selector button has been pressed. */
  const Unselected: int := -1

  /** A valid index into all three tables. */
  predicate IsMode(m: int)
  {
    0 <= m < |Modes| && |Modes| == |ModeColors| == |ModePenColors|
  }

  /** Every value the selector can hold: a mode, or nothing selected yet. */
  predicate ValidSelection(m: int)
  {
    m == Unselected || IsMode(m)
  }

  /** Python's `a // n` for a positive divisor: rounds toward minus infinity. */
  function FloorDiv(a: int, n: int): (q: int)
    requires n > 0
    ensures n * q <= a < n * q + n
  {
    a / n  // Dafny's division is Euclidean, which agrees with floor for n > 0
  }

  /** Python's `a % n` for a positive divisor: never negative, even for negative `a`. */
  function FloorMod(a: int, n: int): (r: int)
    requires n > 0
    ensures 0 <= r < n
    ensures r == a - n * FloorDiv(a, n)
  {
    a % n
  }

  /** The mode after one `applyMode(newMode)` while no routine runs. */
  function SelectedMode(newMode: int): (m: int)
    ensures IsMode(m)
  {
    FloorMod(newMode, |Modes|)
  }

  /** Adding a whole number of table lengths does not change the selection. */
  lemma SelectedModeShift(x: int, s: int)
    ensures SelectedMode(SelectedMode(x) + s) == SelectedMode(x + s)
  {
  }

  /** The mode after `k` presses of the same selector button (step +1 Right, -1 Left). */
  function Presses(mode: int, step: int, k: nat): int
  {
    if k == 0 then mode else SelectedMode(Presses(mode, step, k - 1) + step)
  }

  /** `k >= 1` presses land on the start mode moved by `k` steps, wrapping around. */
  lemma {:induction false} PressesWrap(mode: int, step: int, k: nat)
    ensures Presses(mode, step, k) == if k == 0 then mode else SelectedMode(mode + step * k)
  {
    if k > 1 {
      PressesWrap(mode, step, k - 1);
      SelectedModeShift(mode + step * (k - 1), step);
      assert mode + step * (k - 1) + step == mode + step * k;
    }
  }

  /** From power-on, the first Right press selects mode 0 and the first Left press mode 3. */
  lemma FirstPress()
    ensures Presses(Unselected, 1, 1) == 0
    ensures Presses(Unselected, -1, 1) == 3
  {
  }

  /** Five presses of either button bring a selected mode back to itself. */
  lemma FullCycle(mode: int)
    requires IsMode(mode)
    ensures Presses(mode, 1, 5) == mode
    ensures Presses(mode, -1, 5) == mode
  {
    PressesWrap(mode, 1, 5);
    PressesWrap(mode, -1, 5);
    assert FloorDiv(mode + 5, 5) == 1 && FloorDiv(mode - 5, 5) == -1;
  }

  /** Left undoes Right on a selected mode. */
  lemma LeftUndoesRight(mode: int)
    requires IsMode(mode)
    ensures SelectedMode(SelectedMode(mode + 1) - 1) == mode
  {
    SelectedModeShift(mode + 1, -1);
  }

  /** From any selection, some run of one to five Right presses reaches any mode. */
  lemma EveryModeReachable(mode: int, goal: int)
    requires ValidSelection(mode) && IsMode(goal)
    ensures exists k: nat :: 1 <= k <= 5 && Presses(mode, 1, k) == goal
  {
    var k: nat := SelectedMode(goal - mode - 1) + 1;
    PressesWrap(mode, 1, k);
    SelectedModeShift(goal - mode - 1, mode + 1);
    assert Presses(mode, 1, k) == goal;
  }

  /** The routine the check button runs for each mode. */
  datatype Routine = AutoRed | Goal2 | Goal1 | Goal3 | CurveHome

  function RoutineFor(mode: int): Option<Routine>
  {
    if mode == 0 then Some(AutoRed)
    else if mode == 1 then Some(Goal2)
    else if mode == 2 then Some(Goal1)
    else if mode == 3 then Some(Goal3)
    else if mode == 4 then Some(CurveHome)
    else None
  }

  /** Every selectable mode has a routine, and nothing runs for the unselected state. */
  lemma RoutineForModes(mode: int)
    requires ValidSelection(mode)
    ensures RoutineFor(mode).Some? <==> IsMode(mode)
  {
  }

  /** What the check button does. */
  datatype Decision = Refuse | SetupDriveTrain | Dispatch(routine: Option<Routine>)

  function Decide(running: bool, calibrated: bool, mode: int): (d: Decision)
    ensures d == Refuse <==> running
    ensures d == SetupDriveTrain <==> !running && !calibrated && mode > 0
    ensures d.Dispatch? ==> d.routine == RoutineFor(mode)
  {
    if running then Refuse
    else if !calibrated && mode > 0 then SetupDriveTrain
    else Dispatch(RoutineFor(mode))
  }

  /** Only the red routine, or nothing at all, is ever dispatched before calibration. */
  lemma NoUncalibratedRoutine(running: bool, mode: int)
    ensures Decide(running, false, mode).Dispatch? ==>
              Decide(running, false, mode).routine in {None, Some(AutoRed)}
  {
  }
}
