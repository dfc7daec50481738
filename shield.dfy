/**
 * The static state of class WickedMotorShield (WickedMotorShield.cpp) as an
 * object: the two shift-register images, the old_dir table and, as a ghost
 * trace, what load_shift_register sends to the board. Every Wicked_Stepper
 * and Wicked_DCMotor shares this one object, as they share the static
 * members in the source. Each method is proved to move the state exactly as
 * the matching function of module Registers does.
 */
module Shield {
  import opened Layout
  import opened Codec
  import opened Registers

  /** What load_shift_register does on the serial lines, in order. */
  datatype Signal = LatchLow | ShiftOut(b: bv8) | LatchHigh

  /** One load: latch low, the second register, the first register, latch high. */
  function Frame(first: bv8, second: bv8): (f: seq<Signal>)
    ensures |f| == 4 && f[0] == LatchLow && f[3] == LatchHigh
    ensures f[1] == ShiftOut(second) && f[2] == ShiftOut(first)
  {
    [LatchLow, ShiftOut(second), ShiftOut(first), LatchHigh]
  }

  datatype Option<T> = None | Some(value: T)

  /** The register images the board holds after a trace that ends with a
      complete frame: the first and second images that frame carried. None
      for any other trace, about whose outputs the model says nothing. */
  function Latched(wire: seq<Signal>): (r: Option<(bv8, bv8)>)
    ensures r.Some? ==> |wire| >= 4 && wire[|wire| - 4 ..] == Frame(r.value.0, r.value.1)
  {
    if |wire| >= 4 && wire[|wire| - 4] == LatchLow && wire[|wire| - 1] == LatchHigh
       && wire[|wire| - 3].ShiftOut? && wire[|wire| - 2].ShiftOut?
    then Some((wire[|wire| - 2].b, wire[|wire| - 3].b))
    else None
  }

  /** After a load the board holds exactly the two register images. */
  lemma LoadLatches(wire: seq<Signal>, first: bv8, second: bv8)
    ensures Latched(wire + Frame(first, second)) == Some((first, second))
  {
    var w := wire + Frame(first, second);
    assert w[|w| - 4 ..] == Frame(first, second);
  }

  /** RCIN1_PIN and RCIN2_PIN of the standard pin set. */
  const RCIN1_PIN: uint8 := 4
  const RCIN2_PIN: uint8 := 8

  /** get_rc_input_pin: the pin of RC input 1 or 2, 0xff for any other number. */
  function GetRcInputPin(n: uint8): (r: uint8)
    ensures r == 0xff <==> n != RCIN1 && n != RCIN2
  {
    if n == RCIN1 then RCIN1_PIN
    else if n == RCIN2 then RCIN2_PIN
    else 0xff
  }

  /** getRCIN with the pulse width pulseIn would measure as a parameter:
      0xffffffff for an RC input number without a pin. */
  function GetRcin(n: uint8, pulse: uint32): (r: uint32)
    ensures n == RCIN1 || n == RCIN2 ==> r == pulse
    ensures n != RCIN1 && n != RCIN2 ==> r == 0xffffffff
  {
    if GetRcInputPin(n) == 0xff then 0xffffffff else pulse
  }

  /** Inputs 1 and 2 map to their own two distinct pins. */
  lemma RcInputPins(n: uint8)
    ensures n == RCIN1 ==> GetRcInputPin(n) == RCIN1_PIN
    ensures n == RCIN2 ==> GetRcInputPin(n) == RCIN2_PIN
    ensures RCIN1_PIN != RCIN2_PIN
  {
  }

  class Shield {
    /** first_shift_register: M1..M4. */
    var first: bv8
    /** second_shift_register: M5, M6. */
    var second: bv8
    /** old_dir: the direction saved when a motor's brake engages. */
    const oldDir: array<uint8>
    /** Everything load_shift_register has sent so far. */
    ghost var wire: seq<Signal>

    ghost predicate Valid()
      reads this, oldDir
    {
      oldDir.Length == 6 && WellFormed(Abs())
    }

    /** The state as a Registers.Regs value. */
    function Abs(): Regs
      reads this, oldDir
    {
      Regs(first, second, oldDir[..])
    }

    /** The static initializers: both registers 0xff (all motors hard
        braked) and old_dir all zero; nothing sent yet. */
    constructor ()
      ensures Valid() && fresh(oldDir)
      ensures Abs() == PowerOn() && wire == []
    {
      first := 0xff;
      second := 0xff;
      oldDir := new uint8[6](_ => 0);
      wire := [];
      new;
      assert oldDir[..] == [0, 0, 0, 0, 0, 0];
    }

    /** The body of the WickedMotorShield constructor (pin set-up left out):
        old_dir is set to CW for every motor and the registers are loaded as
        they are; the registers themselves are not reset. */
    method Init()
      requires Valid()
      modifies this, oldDir
      ensures Valid()
      ensures Abs() == ResetOldDir(old(Abs()))
      ensures wire == old(wire) + Frame(first, second)
    {
      for ii := 0 to 6
        invariant first == old(first) && second == old(second) && wire == old(wire)
        invariant forall j :: 0 <= j < ii ==> oldDir[j] == DIR_CW
        invariant forall j :: ii <= j < 6 ==> oldDir[j] == old(oldDir[j])
      {
        oldDir[ii] := DIR_CW;
      }
      assert oldDir[..] == [DIR_CW, DIR_CW, DIR_CW, DIR_CW, DIR_CW, DIR_CW];
      LoadShiftRegister();
    }

    /** load_shift_register: send the second register, then the first,
        between latch low and latch high. */
    method LoadShiftRegister()
      modifies this
      ensures first == old(first) && second == old(second)
      ensures wire == old(wire) + Frame(first, second)
      ensures Latched(wire) == Some((first, second))
    {
      wire := wire + [LatchLow];
      wire := wire + [ShiftOut(second)];
      wire := wire + [ShiftOut(first)];
      wire := wire + [LatchHigh];
      LoadLatches(old(wire), first, second);
    }

    /** get_shift_register_value. */
    function GetShiftRegisterValue(m: uint8): (r: bv8)
      reads this
      ensures r == Register(Regs(first, second, []), m)
    {
      if m == M5 || m == M6 then second else first
    }

    /** set_shift_register_value: only the register that owns m changes. */
    method SetShiftRegisterValue(m: uint8, v: bv8)
      requires Valid()
      modifies this
      ensures Valid() && wire == old(wire)
      ensures Abs() == WithRegister(old(Abs()), m, v)
    {
      if m == M5 || m == M6 {
        second := v;
      } else {
        first := v;
      }
    }

    /** get_motor_directionM. */
    function GetMotorDirectionM(m: uint8): (r: uint8)
      reads this, oldDir
      ensures r == Direction(Abs(), m)
    {
      var v := GetShiftRegisterValue(m);
      if HasCase(m) then FilterMask(v, DirMask(m)) else BAD_MOTOR
    }

    /** get_motor_brakeM. */
    function GetMotorBrakeM(m: uint8): (r: uint8)
      reads this, oldDir
      ensures r == Brake(Abs(), m)
    {
      var v := GetShiftRegisterValue(m);
      if HasCase(m) then FilterMask(v, BrakeMask(m)) else BAD_MOTOR
    }

    /** setDirectionData, step by step as in the source: read the register,
        give up for a bad motor or a braked one, record old_dir, apply the
        direction operation to the local copy and store it back. */
    method SetDirectionData(m: uint8, direction: uint8)
      requires Valid()
      modifies this, oldDir
      ensures Valid() && wire == old(wire)
      ensures Abs() == Registers.SetDirectionData(old(Abs()), m, direction)
    {
      var v := GetShiftRegisterValue(m);
      var dirOperation := OPERATION_NONE;
      var brakeStatus := GetMotorBrakeM(m);
      if m >= 6 {
        return;
      }
      if brakeStatus > 0 {
        return;
      }
      ghost var s := Abs();
      if direction == DIR_CW {
        dirOperation := OPERATION_SET;
        oldDir[m] := 1;
      } else if direction == DIR_CCW {
        dirOperation := OPERATION_CLEAR;
        oldDir[m] := 0;
      }
      assert oldDir[..] == SavedAfterDirection(s, m, direction);
      v := ApplyMask(v, DirMask(m), dirOperation);
      SetShiftRegisterValue(m, v);
    }

    /** setBrakeData, step by step as in the source: pick the two
        operations, consult the brake bit, restore or save old_dir, apply
        the brake then the direction operation and store the byte back. */
    method SetBrakeData(m: uint8, brakeType: uint8)
      requires Valid()
      modifies this, oldDir
      ensures Valid() && wire == old(wire)
      ensures Abs() == Registers.SetBrakeData(old(Abs()), m, brakeType)
    {
      var v := GetShiftRegisterValue(m);
      var brakeOperation := OPERATION_NONE;
      var dirOperation := OPERATION_NONE;
      if m >= 6 {
        return;
      }
      if brakeType == BRAKE_OFF {
        brakeOperation := OPERATION_CLEAR;
        dirOperation := OPERATION_NONE;
      } else if brakeType == BRAKE_SOFT {
        brakeOperation := OPERATION_SET;
        dirOperation := OPERATION_CLEAR;
      } else if brakeType == BRAKE_HARD {
        brakeOperation := OPERATION_SET;
        dirOperation := OPERATION_SET;
      }
      var brakeStatus := GetMotorBrakeM(m);
      ghost var s := Abs();
      if brakeType == BRAKE_OFF && brakeStatus > 0 {
        if oldDir[m] == 1 {
          dirOperation := OPERATION_SET;
        } else {
          dirOperation := OPERATION_CLEAR;
        }
      } else if brakeStatus == 0 && (brakeType == BRAKE_SOFT || brakeType == BRAKE_HARD) {
        oldDir[m] := GetMotorDirectionM(m);
      }
      assert oldDir[..] == SavedAfterBrake(s, m, brakeType);
      assert brakeOperation == BrakeOperation(brakeType) && dirOperation == DirOpForBrake(s, m, brakeType);
      v := ApplyMask(v, BrakeMask(m), brakeOperation);
      v := ApplyMask(v, DirMask(m), dirOperation);
      SetShiftRegisterValue(m, v);
    }
  }
}
