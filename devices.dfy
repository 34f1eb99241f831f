/**
 * The VEX IQ devices the robot script drives, reduced to what the script
 * can observe or command: each motor, motor group and drivetrain is a record
 * of the last commands it received. The physics behind the commands
 * (how far a wheel really turns, when a spin completes) is not modelled.
 */
module Devices {

  datatype Option<T> = None | Some(value: T)

  /** The colours the script names, for the selector screen and the health LED. */
  datatype Color = Red | YellowGreen | White | Purple | Yellow | Black | Blue | Green | Orange

  datatype Direction = Forward | Reverse
  datatype TurnSide = Left | Right

  /** `Configured` is `stop()` called without a mode: the device's own brake setting. */
  datatype StopMode = Coast | Brake | Hold | Configured

  datatype RotationUnit = Degrees | Turns
  datatype DistanceUnit = Inches | Millimeters
  datatype VelocityUnit = Percent | Rpm

  /** A motion command, as passed to the vex library. */
  datatype Command =
    | NoCommand
    | Spin(dir: Direction, velocity: int, vunit: VelocityUnit)
    | SpinFor(dir: Direction, amount: real, unit: RotationUnit, velocity: int, vunit: VelocityUnit, wait: bool)
    | DriveFor(dir: Direction, distance: real, dunit: DistanceUnit, velocity: int, vunit: VelocityUnit, wait: bool)
    | TurnFor(side: TurnSide, angle: real, unit: RotationUnit, velocity: int, vunit: VelocityUnit, wait: bool)

  /**
   * What a motor (or a group of motors driven together) was last told:
   * the timeout currently set (None: never set, the device default),
   * the last motion command with the timeout in force when it was issued,
   * and the stop mode if a stop came after that command.
   */
  datatype Actuator = Actuator(
    timeoutSecs: Option<int>,
    lastMove: Command,
    moveTimeout: Option<int>,
    stopMode: Option<StopMode>)
  {
    /** `set_timeout(secs, SECONDS)` */
    function SetTimeout(secs: int): Actuator
    {
      this.(timeoutSecs := Some(secs))
    }

    /** `spin`, `spin_for`, `drive_for` or `turn_for`: a new motion replaces any stop. */
    function Issue(move: Command): Actuator
    {
      this.(lastMove := move, moveTimeout := timeoutSecs, stopMode := None)
    }

    /** `stop(mode)` */
    function Halt(mode: StopMode): Actuator
    {
      this.(stopMode := Some(mode))
    }
  }

  /** A device that has been constructed and not yet commanded. */
  const Fresh: Actuator := Actuator(None, NoCommand, None, None)

  /** A drivetrain: its fixed geometry and the commands it received. */
  datatype DriveTrain = DriveTrain(
    wheelTravelMm: real,
    trackWidthMm: real,
    wheelBaseMm: real,
    externalGearRatio: real,
    drive: Actuator)
  {
    function Halt(mode: StopMode): DriveTrain
    {
      this.(drive := drive.Halt(mode))
    }
  }

  /** Stopping twice with the same mode is the same as stopping once. */
  lemma HaltIdempotent(a: Actuator, mode: StopMode)
    ensures a.Halt(mode).Halt(mode) == a.Halt(mode)
    ensures a.Halt(mode).lastMove == a.lastMove && a.Halt(mode).timeoutSecs == a.timeoutSecs
  {
  }
}
