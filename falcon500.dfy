/** A Falcon 500 motor as the swerve module sees it.

    The vendor controller is reduced to what this driver reads from it (the
    integrated sensor's raw position and velocity) and what it writes to it
    (the neutral mode and percent-output commands). Over that, the driver
    keeps a calibration offset and the last commanded velocity. */
module Motor {

  datatype NeutralMode = Coast | Brake

  /** Integrated-sensor counts per motor shaft rotation. */
  const CountsPerRotation: real := 2048.0

  /** The sensor reports velocity per 100 ms; this many of those per second. */
  const TenthsPerSecond: real := 10.0

  class Falcon500 {
    /** The configured maximum speed, in rotations per second. */
    const maxSpeed: real

    /** The integrated sensor's position, in counts. */
    var rawPosition: real
    /** The integrated sensor's velocity, in counts per 100 ms. */
    var rawVelocity: real

    /** Added to the sensor position, in rotations. */
    var offset: real
    /** The last velocity passed to SetVelocity. */
    var commandVelocity: real

    /** The controller's neutral mode. */
    var neutralMode: NeutralMode
    /** Every percent-output command sent to the controller, oldest first. */
    var percentOutputs: seq<real>

    /** Sets up a motor whose sensor currently reads `rawPosition` and
        `rawVelocity`; it starts in brake mode, uncalibrated and with no
        velocity commanded. */
    constructor (maxSpeed: real, rawPosition: real, rawVelocity: real)
      ensures this.maxSpeed == maxSpeed
      ensures this.rawPosition == rawPosition && this.rawVelocity == rawVelocity
      ensures offset == 0.0 && commandVelocity == 0.0
      ensures neutralMode == Brake && percentOutputs == []
    {
      this.maxSpeed := maxSpeed;
      this.rawPosition := rawPosition;
      this.rawVelocity := rawVelocity;
      offset := 0.0;
      commandVelocity := 0.0;
      neutralMode := Brake;
      percentOutputs := [];
    }

    /** The shaft position in rotations: the sensor's, shifted by the
        calibration offset. */
    function GetPosition(): (position: real)
      reads this`rawPosition, this`offset
      ensures (position - offset) * CountsPerRotation == rawPosition
    {
      rawPosition / CountsPerRotation + offset
    }

    /** The shaft velocity in rotations per second, whatever the offset. */
    function GetVelocity(): (velocity: real)
      reads this`rawVelocity
      ensures velocity * CountsPerRotation == rawVelocity * TenthsPerSecond
    {
      rawVelocity * TenthsPerSecond / CountsPerRotation
    }

    function GetMaxVelocity(): real {
      maxSpeed
    }

    function GetCommandVelocity(): real
      reads this`commandVelocity
    {
      commandVelocity
    }

    /** Shifts the offset so that the current position reads `position`;
        the sensor, the command and the neutral mode are left alone. */
    method CalibratePosition(position: real)
      modifies this`offset
      ensures offset == position - old(GetPosition()) + old(offset)
      ensures GetPosition() == position
      ensures GetVelocity() == old(GetVelocity())
    {
      offset := position - GetPosition() + offset;
    }

    /** Commands the motor to `velocity` as a fraction of its maximum speed
        and remembers the command; the offset is left alone. */
    method SetVelocity(velocity: real)
      requires maxSpeed != 0.0
      modifies this`percentOutputs, this`commandVelocity
      ensures percentOutputs == old(percentOutputs) + [velocity / GetMaxVelocity()]
      ensures GetCommandVelocity() == velocity
      ensures GetPosition() == old(GetPosition())
    {
      percentOutputs := percentOutputs + [velocity / GetMaxVelocity()];
      commandVelocity := velocity;
    }

    method SetCoast()
      modifies this`neutralMode
      ensures neutralMode == Coast
    {
      neutralMode := Coast;
    }

    method SetBrake()
      modifies this`neutralMode
      ensures neutralMode == Brake
    {
      neutralMode := Brake;
    }
  }

  /** Calibrating twice to the same position leaves the offset where the
      first call put it, whatever the offset was before. */
  method CalibrationIsIdempotent(motor: Falcon500, position: real) returns (first: real, second: real)
    modifies motor`offset
    ensures first == second == motor.offset
    ensures motor.GetPosition() == position
    ensures motor.rawPosition == old(motor.rawPosition) && motor.commandVelocity == old(motor.commandVelocity)
  {
    motor.CalibratePosition(position);
    first := motor.offset;
    motor.CalibratePosition(position);
    second := motor.offset;
  }
}
