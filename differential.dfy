/** The "sum" virtual motor of a differential mechanism.

    It senses the sum of the two physical motors' positions and velocities,
    re-zeroes its position with an offset of its own, and hands velocity
    commands to the mechanism, which alone decides what the physical motors
    are told. */
module Differential {
  import opened Motor

  /** The mechanism the virtual motors share. Only what the sum motor sees
      of it is modelled: its two motors, and the sum velocities it has been
      asked for, oldest first. How a sum velocity becomes motor commands is
      not modelled, so a sum command may change what either motor has been
      commanded, but never its sensor or its calibration. */
  class DifferentialMechanism {
    const positiveMotor: Falcon500
    const negativeMotor: Falcon500
    var sumVelocityCommands: seq<real>

    constructor (positiveMotor: Falcon500, negativeMotor: Falcon500)
      ensures this.positiveMotor == positiveMotor && this.negativeMotor == negativeMotor
      ensures sumVelocityCommands == []
    {
      this.positiveMotor := positiveMotor;
      this.negativeMotor := negativeMotor;
      sumVelocityCommands := [];
    }

    method SetSumVelocity(velocity: real)
      modifies this`sumVelocityCommands
      modifies positiveMotor`commandVelocity, positiveMotor`percentOutputs
      modifies negativeMotor`commandVelocity, negativeMotor`percentOutputs
      ensures sumVelocityCommands == old(sumVelocityCommands) + [velocity]
    {
      sumVelocityCommands := sumVelocityCommands + [velocity];
    }
  }

  class PIDMotorSum {
    /** The mechanism this motor derives from; fixed at construction. */
    const differential: DifferentialMechanism
    /** Added to the sensed position sum. */
    var offset: real

    constructor (differential: DifferentialMechanism)
      ensures this.differential == differential
      ensures offset == 0.0
    {
      this.differential := differential;
      offset := 0.0;
    }

    /** The positions of the two motors added up, plus this motor's offset. */
    function GetPosition(): (position: real)
      reads this`offset
      reads differential.positiveMotor`rawPosition, differential.positiveMotor`offset
      reads differential.negativeMotor`rawPosition, differential.negativeMotor`offset
      ensures position - offset
           == differential.positiveMotor.GetPosition() + differential.negativeMotor.GetPosition()
    {
      differential.positiveMotor.GetPosition() + differential.negativeMotor.GetPosition() + offset
    }

    /** The velocities of the two motors added up; the offset plays no part. */
    function GetVelocity(): (velocity: real)
      reads differential.positiveMotor`rawVelocity, differential.negativeMotor`rawVelocity
      ensures velocity == differential.positiveMotor.GetVelocity() + differential.negativeMotor.GetVelocity()
    {
      differential.positiveMotor.GetVelocity() + differential.negativeMotor.GetVelocity()
    }

    /** Sets the offset to the target minus the current reading, which
        already holds the old offset. The next reading is therefore the
        target minus the old offset, not the target, unless the old offset
        was zero. Neither physical motor is touched. */
    method CalibratePosition(position: real)
      modifies this`offset
      ensures offset == position - old(GetPosition())
      ensures GetPosition() == position - old(offset)
      ensures GetVelocity() == old(GetVelocity())
      ensures unchanged(differential, differential.positiveMotor, differential.negativeMotor)
    {
      offset := position - GetPosition();
    }

    /** The calibration as a Falcon 500 does it: the offset is shifted so
        that the current reading becomes exactly the target. */
    method CalibratePositionIntended(position: real)
      modifies this`offset
      ensures offset == position - old(GetPosition()) + old(offset)
      ensures GetPosition() == position
      ensures GetVelocity() == old(GetVelocity())
      ensures unchanged(differential, differential.positiveMotor, differential.negativeMotor)
    {
      offset := position - GetPosition() + offset;
    }

    /** Hands the command to the mechanism as a sum velocity. What the
        mechanism then tells the motors is its own affair, but neither this
        offset nor any sensor or motor calibration changes, so the readings
        stay as they were. */
    method SetVelocity(velocity: real)
      modifies differential`sumVelocityCommands
      modifies differential.positiveMotor`commandVelocity, differential.positiveMotor`percentOutputs
      modifies differential.negativeMotor`commandVelocity, differential.negativeMotor`percentOutputs
      ensures differential.sumVelocityCommands == old(differential.sumVelocityCommands) + [velocity]
      ensures offset == old(offset)
      ensures GetPosition() == old(GetPosition())
      ensures GetVelocity() == old(GetVelocity())
    {
      differential.SetSumVelocity(velocity);
    }
  }

  /** Calibrating twice to the same target, with the motors at rest, puts the
      offset back where it was: from a fresh motor, back to zero, so the
      second call undoes the first. The reading after the first call is the
      target minus the old offset. */
  method CalibrateTwice(sum: PIDMotorSum, position: real) returns (afterFirst: real, afterSecond: real)
    modifies sum`offset
    ensures afterFirst == position - old(sum.offset)
    ensures sum.offset == old(sum.offset)
    ensures afterSecond == sum.GetPosition() == old(sum.GetPosition())
  {
    sum.CalibratePosition(position);
    afterFirst := sum.GetPosition();
    sum.CalibratePosition(position);
    afterSecond := sum.GetPosition();
  }

  /** With the corrected calibration a second call to the same target
      changes nothing. */
  method CalibrateTwiceIntended(sum: PIDMotorSum, position: real) returns (afterFirst: real, afterSecond: real)
    modifies sum`offset
    ensures afterFirst == afterSecond == position
  {
    sum.CalibratePositionIntended(position);
    afterFirst := sum.GetPosition();
    sum.CalibratePositionIntended(position);
    afterSecond := sum.GetPosition();
  }

  /** A concrete case: both motors read zero rotations, a fresh sum motor is
      calibrated to 1.0 twice, and it then reads 0.0 instead of 1.0. */
  method RecalibrationMissesTarget() returns (reading: real)
    ensures reading == 0.0
  {
    var positive := new Falcon500(1.0, 0.0, 0.0);
    var negative := new Falcon500(1.0, 0.0, 0.0);
    var differential := new DifferentialMechanism(positive, negative);
    var sum := new PIDMotorSum(differential);
    sum.CalibratePosition(1.0);
    sum.CalibratePosition(1.0);
    reading := sum.GetPosition();
  }
}
