/**
 * Wicked_DCMotor (WickedMotorShield.cpp): one motor of the shield. Each
 * command goes through the shared state machine and is followed by a load
 * of both registers onto the board.
 */
module DcMotor {
  import opened Layout
  import opened Registers
  import Shield

  class DCMotor {
    /** The shared static state of the shield. */
    const shield: Shield.Shield
    const motorNumber: uint8

    ghost predicate Valid()
      reads this, shield, shield.oldDir
    {
      shield.Valid()
    }

    /** Wicked_DCMotor: the shield constructor, then the motor number. */
    constructor (shield: Shield.Shield, motorNumber: uint8)
      requires shield.Valid()
      modifies shield, shield.oldDir
      ensures this.shield == shield && this.motorNumber == motorNumber && Valid()
      ensures shield.Abs() == ResetOldDir(old(shield.Abs()))
      ensures shield.wire == old(shield.wire) + Shield.Frame(shield.first, shield.second)
    {
      this.shield := shield;
      this.motorNumber := motorNumber;
      new;
      shield.Init();
    }

    /** setDirection: setDirectionData on this motor, then a load, after
        which the board holds the new registers. */
    method SetDirection(direction: uint8)
      requires Valid()
      modifies shield, shield.oldDir
      ensures Valid()
      ensures shield.Abs() == SetDirectionData(old(shield.Abs()), motorNumber, direction)
      ensures shield.wire == old(shield.wire) + Shield.Frame(shield.first, shield.second)
      ensures Shield.Latched(shield.wire) == Shield.Some((shield.first, shield.second))
    {
      shield.SetDirectionData(motorNumber, direction);
      shield.LoadShiftRegister();
    }

    /** setBrake: setBrakeData on this motor, then a load. */
    method SetBrake(brakeType: uint8)
      requires Valid()
      modifies shield, shield.oldDir
      ensures Valid()
      ensures shield.Abs() == SetBrakeData(old(shield.Abs()), motorNumber, brakeType)
      ensures shield.wire == old(shield.wire) + Shield.Frame(shield.first, shield.second)
      ensures Shield.Latched(shield.wire) == Shield.Some((shield.first, shield.second))
    {
      shield.SetBrakeData(motorNumber, brakeType);
      shield.LoadShiftRegister();
    }

    /** get_motor_direction: get_motor_directionM of this motor. */
    function GetMotorDirection(): (r: uint8)
      reads this, shield, shield.oldDir
      ensures r == Direction(shield.Abs(), motorNumber)
    {
      shield.GetMotorDirectionM(motorNumber)
    }
  }
}
