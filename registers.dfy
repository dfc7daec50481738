/**
 * The shared register state of WickedMotorShield.cpp as a value, and the
 * per-motor state machine on it: setDirectionData, setBrakeData and the two
 * getters. The class Shield.Shield runs the same steps in place and is
 * proved against these functions; the lemmas here state the transition
 * table the source promises.
 */
module Registers {
  import opened Layout
  import opened Codec

  /** first_shift_register (M1..M4), second_shift_register (M5, M6) and old_dir. */
  datatype Regs = Regs(first: bv8, second: bv8, oldDir: seq<uint8>)

  /** old_dir has six entries, each a direction (0 or 1). */
  predicate WellFormed(s: Regs)
  {
    |s.oldDir| == 6 && forall i :: 0 <= i < 6 ==> s.oldDir[i] <= 1
  }

  /** The state the static initializers give: every motor hard-braked. */
  function PowerOn(): (s: Regs)
    ensures WellFormed(s)
  {
    Regs(0xff, 0xff, [0, 0, 0, 0, 0, 0])
  }

  /** The state after the WickedMotorShield constructor set old_dir to CW;
      the registers are not touched. */
  function ResetOldDir(s: Regs): (r: Regs)
    ensures WellFormed(r)
    ensures r.first == s.first && r.second == s.second
    ensures forall i :: 0 <= i < 6 ==> r.oldDir[i] == DIR_CW
  {
    s.(oldDir := [DIR_CW, DIR_CW, DIR_CW, DIR_CW, DIR_CW, DIR_CW])
  }

  /** get_shift_register_value: the register that holds motor m's bits. */
  function Register(s: Regs, m: uint8): bv8
  {
    if InSecondRegister(m) then s.second else s.first
  }

  /** The register that does not hold motor m's bits. */
  function OtherRegister(s: Regs, m: uint8): bv8
  {
    if InSecondRegister(m) then s.first else s.second
  }

  /** set_shift_register_value: store v into the register that owns motor m.
      Reading that register back gives v; nothing else changes. */
  function WithRegister(s: Regs, m: uint8, v: bv8): (r: Regs)
    ensures Register(r, m) == v
    ensures OtherRegister(r, m) == OtherRegister(s, m)
    ensures r.oldDir == s.oldDir
    ensures v == Register(s, m) ==> r == s
  {
    if InSecondRegister(m) then s.(second := v) else s.(first := v)
  }

  /** Two states are equal when they agree on both registers seen from m and on old_dir. */
  lemma EqualFromMotor(a: Regs, b: Regs, m: uint8)
    requires Register(a, m) == Register(b, m) && OtherRegister(a, m) == OtherRegister(b, m)
    requires a.oldDir == b.oldDir
    ensures a == b
  {
  }

  /** Between s and r only the bits of `mask` in motor m's register may differ. */
  predicate OnlyBitsChange(s: Regs, r: Regs, m: uint8, mask: bv8)
  {
    Register(r, m) & !mask == Register(s, m) & !mask && OtherRegister(r, m) == OtherRegister(s, m)
  }

  /** get_motor_directionM: the direction bit read through filter_mask, or
      0xff for a motor number without a case. */
  function Direction(s: Regs, m: uint8): (r: uint8)
    ensures !IsMotor(m) <==> r == BAD_MOTOR
    ensures IsMotor(m) ==> r == 0 || r == 1
  {
    if HasCase(m) then
      FilterMaskMeaning(Register(s, m), DirMask(m));
      FilterMask(Register(s, m), DirMask(m))
    else BAD_MOTOR
  }

  /** get_motor_brakeM: the brake bit read through filter_mask (1 for soft
      and hard alike), or 0xff for a motor number without a case. */
  function Brake(s: Regs, m: uint8): (r: uint8)
    ensures !IsMotor(m) <==> r == BAD_MOTOR
    ensures IsMotor(m) ==> r == 0 || r == 1
  {
    if HasCase(m) then
      FilterMaskMeaning(Register(s, m), BrakeMask(m));
      FilterMask(Register(s, m), BrakeMask(m))
    else BAD_MOTOR
  }

  /** For a motor, the getters read its own bits of its own register. */
  lemma Decode(s: Regs, m: uint8)
    requires IsMotor(m)
    ensures Direction(s, m) == FilterMask(Register(s, m), DirMask(m))
    ensures Brake(s, m) == FilterMask(Register(s, m), BrakeMask(m))
  {
  }

  /** A motor reads DIR_CW exactly when its direction bit is set, and is
      braked exactly when its brake bit is set. */
  lemma DecodeBits(s: Regs, m: uint8)
    requires IsMotor(m)
    ensures Direction(s, m) == DIR_CW <==> Register(s, m) & DirMask(m) != 0
    ensures Direction(s, m) == DIR_CCW <==> Register(s, m) & DirMask(m) == 0
    ensures Brake(s, m) == 1 <==> Register(s, m) & BrakeMask(m) != 0
    ensures Brake(s, m) == 0 <==> Register(s, m) & BrakeMask(m) == 0
  {
    Decode(s, m);
    FilterMaskMeaning(Register(s, m), DirMask(m));
    FilterMaskMeaning(Register(s, m), BrakeMask(m));
  }

  /** After power-on every motor reads hard brake: brake bit and direction bit set. */
  lemma PowerOnBraked(m: uint8)
    requires IsMotor(m)
    ensures Brake(PowerOn(), m) == 1 && Direction(PowerOn(), m) == DIR_CW
    ensures Brake(ResetOldDir(PowerOn()), m) == 1
  {
    MotorMaskFacts(m);
    DecodeBits(PowerOn(), m);
    DecodeBits(ResetOldDir(PowerOn()), m);
  }

  /** A direction code that setDirectionData acts on. */
  predicate IsDirection(d: uint8)
  {
    d == DIR_CW || d == DIR_CCW
  }

  /** A brake code that setBrakeData acts on. */
  predicate IsBrakeCode(b: uint8)
  {
    b == BRAKE_OFF || b == BRAKE_SOFT || b == BRAKE_HARD
  }

  /** The operation setDirectionData applies to the direction bit. */
  function DirOperation(d: uint8): uint8
  {
    if d == DIR_CW then OPERATION_SET
    else if d == DIR_CCW then OPERATION_CLEAR
    else OPERATION_NONE
  }

  /** old_dir after setDirectionData on an unbraked motor. */
  function SavedAfterDirection(s: Regs, m: uint8, d: uint8): seq<uint8>
    requires WellFormed(s) && IsMotor(m)
  {
    if d == DIR_CW then s.oldDir[m := 1]
    else if d == DIR_CCW then s.oldDir[m := 0]
    else s.oldDir
  }

  /** setDirectionData: for a known motor that is not braked and a code
      DIR_CW/DIR_CCW, write the direction bit and old_dir; otherwise leave
      everything as it was. */
  function SetDirectionData(s: Regs, m: uint8, d: uint8): (r: Regs)
    requires WellFormed(s)
    ensures WellFormed(r)
  {
    if !IsMotor(m) then s
    else if Brake(s, m) > 0 then s
    else WriteDirection(s, m, d)
  }

  /** The write setDirectionData performs once its guards have passed. */
  function WriteDirection(s: Regs, m: uint8, d: uint8): (r: Regs)
    requires WellFormed(s) && IsMotor(m)
    ensures WellFormed(r)
  {
    WithRegister(s.(oldDir := SavedAfterDirection(s, m, d)), m, ApplyMask(Register(s, m), DirMask(m), DirOperation(d)))
  }

  /** WriteDirection field by field. */
  lemma DirectionFields(s: Regs, m: uint8, d: uint8)
    requires WellFormed(s) && IsMotor(m)
    ensures var r := WriteDirection(s, m, d);
            r.first == (if InSecondRegister(m) then s.first else ApplyMask(s.first, DirMask(m), DirOperation(d))) &&
            r.second == (if InSecondRegister(m) then ApplyMask(s.second, DirMask(m), DirOperation(d)) else s.second) &&
            r.oldDir == SavedAfterDirection(s, m, d)
  {
  }

  /** The operation setBrakeData applies to the brake bit. */
  function BrakeOperation(b: uint8): uint8
  {
    if b == BRAKE_OFF then OPERATION_CLEAR
    else if b == BRAKE_SOFT then OPERATION_SET
    else if b == BRAKE_HARD then OPERATION_SET
    else OPERATION_NONE
  }

  /** The operation setBrakeData first picks for the direction bit: soft
      brake clears it, hard brake sets it. */
  function BrakeDirOperation(b: uint8): uint8
  {
    if b == BRAKE_OFF then OPERATION_NONE
    else if b == BRAKE_SOFT then OPERATION_CLEAR
    else if b == BRAKE_HARD then OPERATION_SET
    else OPERATION_NONE
  }

  /** The brake is being released on a braked motor: the direction is restored. */
  predicate Releases(s: Regs, m: uint8, b: uint8)
  {
    b == BRAKE_OFF && Brake(s, m) > 0
  }

  /** The brake is being engaged on an unbraked motor: the direction is saved. */
  predicate Engages(s: Regs, m: uint8, b: uint8)
  {
    Brake(s, m) == 0 && (b == BRAKE_SOFT || b == BRAKE_HARD)
  }

  /** The operation setBrakeData finally applies to the direction bit. */
  function DirOpForBrake(s: Regs, m: uint8, b: uint8): uint8
    requires WellFormed(s) && IsMotor(m)
  {
    if Releases(s, m, b) then (if s.oldDir[m] == 1 then OPERATION_SET else OPERATION_CLEAR)
    else BrakeDirOperation(b)
  }

  /** old_dir after setBrakeData. */
  function SavedAfterBrake(s: Regs, m: uint8, b: uint8): seq<uint8>
    requires WellFormed(s) && IsMotor(m)
  {
    if Releases(s, m, b) then s.oldDir
    else if Engages(s, m, b) then s.oldDir[m := Direction(s, m)]
    else s.oldDir
  }

  /** setBrakeData: encode OFF, SOFT or HARD into motor m's two bits, saving
      old_dir when the brake engages and restoring it when it is released. */
  function SetBrakeData(s: Regs, m: uint8, b: uint8): (r: Regs)
    requires WellFormed(s)
    ensures WellFormed(r)
  {
    if !IsMotor(m) then s else WriteBrake(s, m, b)
  }

  /** The write setBrakeData performs on a known motor: brake bit first,
      then direction bit, then old_dir. */
  function WriteBrake(s: Regs, m: uint8, b: uint8): (r: Regs)
    requires WellFormed(s) && IsMotor(m)
    ensures WellFormed(r)
  {
    var u := ApplyMask(Register(s, m), BrakeMask(m), BrakeOperation(b));
    WithRegister(s.(oldDir := SavedAfterBrake(s, m, b)), m, ApplyMask(u, DirMask(m), DirOpForBrake(s, m, b)))
  }

  /** WriteDirection seen from motor m: its register gets the direction
      operation, the other register stays, old_dir is updated. */
  lemma DirectionBits(s: Regs, m: uint8, d: uint8)
    requires WellFormed(s) && IsMotor(m)
    ensures Register(WriteDirection(s, m, d), m) == ApplyMask(Register(s, m), DirMask(m), DirOperation(d))
    ensures OtherRegister(WriteDirection(s, m, d), m) == OtherRegister(s, m)
    ensures WriteDirection(s, m, d).oldDir == SavedAfterDirection(s, m, d)
  {
  }

  /** WriteBrake seen from motor m. */
  lemma BrakeBits(s: Regs, m: uint8, b: uint8)
    requires WellFormed(s) && IsMotor(m)
    ensures var u := ApplyMask(Register(s, m), BrakeMask(m), BrakeOperation(b));
            Register(WriteBrake(s, m, b), m) == ApplyMask(u, DirMask(m), DirOpForBrake(s, m, b))
    ensures OtherRegister(WriteBrake(s, m, b), m) == OtherRegister(s, m)
    ensures WriteBrake(s, m, b).oldDir == SavedAfterBrake(s, m, b)
  {
  }

  /** Changing old_dir alone changes no reading. */
  lemma ReadingsIgnoreSaved(s: Regs, o: seq<uint8>, m: uint8)
    ensures Direction(s.(oldDir := o), m) == Direction(s, m)
    ensures Brake(s.(oldDir := o), m) == Brake(s, m)
  {
    assert Register(s.(oldDir := o), m) == Register(s, m);
  }

  /** setDirectionData changes nothing for a bad motor number, a braked motor
      or a code other than DIR_CW/DIR_CCW. */
  lemma SetDirectionRejects(s: Regs, m: uint8, d: uint8)
    requires WellFormed(s)
    requires !IsMotor(m) || Brake(s, m) != 0 || !IsDirection(d)
    ensures SetDirectionData(s, m, d) == s
  {
    if IsMotor(m) && Brake(s, m) == 0 {
      DirectionBits(s, m, d);
      ApplyMaskNone(Register(s, m), DirMask(m), DirOperation(d));
      EqualFromMotor(WriteDirection(s, m, d), s, m);
    }
  }

  /** On an unbraked motor, setDirectionData makes the direction read d and
      stores d in old_dir; the brake stays off and no other bit moves. */
  lemma SetDirectionTakesEffect(s: Regs, m: uint8, d: uint8)
    requires WellFormed(s) && IsMotor(m) && Brake(s, m) == 0 && IsDirection(d)
    ensures Direction(SetDirectionData(s, m, d), m) == d
    ensures Brake(SetDirectionData(s, m, d), m) == 0
    ensures SetDirectionData(s, m, d).oldDir == s.oldDir[m := d]
    ensures OnlyBitsChange(s, SetDirectionData(s, m, d), m, DirMask(m))
  {
    var r := WriteDirection(s, m, d);
    var w := Register(s, m);
    DirectionBits(s, m, d);
    MotorMaskFacts(m);
    FilterAfterApplyAt(w, DirMask(m), DirOperation(d), BrakeMask(m));
    ApplyMaskMeaning(w, DirMask(m), DirOperation(d));
    Decode(s, m);
    Decode(r, m);
  }

  /** setDirectionData moves no bit but motor m's two bits. */
  lemma SetDirectionFrame(s: Regs, m: uint8, d: uint8)
    requires WellFormed(s) && IsMotor(m)
    ensures OnlyBitsChange(s, SetDirectionData(s, m, d), m, MotorMask(m))
  {
    if Brake(s, m) == 0 {
      var w := Register(s, m);
      DirectionBits(s, m, d);
      TwoMaskFrame(w, DirMask(m), DirOperation(d), BrakeMask(m), OPERATION_NONE);
      ApplyMaskNone(ApplyMask(w, DirMask(m), DirOperation(d)), BrakeMask(m), OPERATION_NONE);
    }
  }

  /** setBrakeData changes nothing for a bad motor number or a code other
      than BRAKE_OFF, BRAKE_SOFT and BRAKE_HARD. */
  lemma SetBrakeRejects(s: Regs, m: uint8, b: uint8)
    requires WellFormed(s)
    requires !IsMotor(m) || !IsBrakeCode(b)
    ensures SetBrakeData(s, m, b) == s
  {
    if IsMotor(m) {
      var w := Register(s, m);
      BrakeBits(s, m, b);
      ApplyMaskNone(w, BrakeMask(m), BrakeOperation(b));
      ApplyMaskNone(w, DirMask(m), DirOpForBrake(s, m, b));
      EqualFromMotor(WriteBrake(s, m, b), s, m);
    }
  }

  /** The brake table: SOFT leaves brake bit 1 and direction bit 0 and HARD
      leaves both 1; OFF clears the brake bit and, if the motor was braked,
      restores the direction saved in old_dir (otherwise keeps it). */
  lemma SetBrakeTakesEffect(s: Regs, m: uint8, b: uint8)
    requires WellFormed(s) && IsMotor(m)
    ensures b == BRAKE_SOFT ==> Brake(SetBrakeData(s, m, b), m) == 1 && Direction(SetBrakeData(s, m, b), m) == DIR_CCW
    ensures b == BRAKE_HARD ==> Brake(SetBrakeData(s, m, b), m) == 1 && Direction(SetBrakeData(s, m, b), m) == DIR_CW
    ensures b == BRAKE_OFF ==> Brake(SetBrakeData(s, m, b), m) == 0
    ensures b == BRAKE_OFF ==>
              Direction(SetBrakeData(s, m, b), m) == if Brake(s, m) == 1 then s.oldDir[m] else Direction(s, m)
  {
    var r := WriteBrake(s, m, b);
    var w := Register(s, m);
    var u := ApplyMask(w, BrakeMask(m), BrakeOperation(b));
    var dirOp := DirOpForBrake(s, m, b);
    BrakeBits(s, m, b);
    MotorMaskFacts(m);
    FilterAfterApplyAt(w, BrakeMask(m), BrakeOperation(b), DirMask(m));
    FilterAfterApplyAt(u, DirMask(m), dirOp, BrakeMask(m));
    Decode(s, m);
    Decode(r, m);
    if b == BRAKE_OFF && Brake(s, m) == 0 {
      ApplyMaskNone(u, DirMask(m), dirOp);
    }
  }

  /** old_dir is written only when the brake engages on an unbraked motor,
      and then with the direction bit of that moment; SOFT/HARD on a braked
      motor, OFF and unknown codes leave it alone. */
  lemma SetBrakeSavesDirection(s: Regs, m: uint8, b: uint8)
    requires WellFormed(s) && IsMotor(m)
    ensures SetBrakeData(s, m, b).oldDir ==
              if Brake(s, m) == 0 && (b == BRAKE_SOFT || b == BRAKE_HARD)
              then s.oldDir[m := Direction(s, m)] else s.oldDir
  {
    BrakeBits(s, m, b);
  }

  /** setBrakeData moves no bit but motor m's two bits. */
  lemma SetBrakeFrame(s: Regs, m: uint8, b: uint8)
    requires WellFormed(s) && IsMotor(m)
    ensures OnlyBitsChange(s, SetBrakeData(s, m, b), m, MotorMask(m))
  {
    BrakeBits(s, m, b);
    TwoMaskFrame(Register(s, m), BrakeMask(m), BrakeOperation(b), DirMask(m), DirOpForBrake(s, m, b));
  }

  /** A change confined to motor m's bits leaves every other motor's reading as it was. */
  lemma OtherMotorsUnaffected(s: Regs, r: Regs, m: uint8, n: uint8)
    requires IsMotor(m) && IsMotor(n) && m != n
    requires OnlyBitsChange(s, r, m, MotorMask(m))
    ensures Direction(r, n) == Direction(s, n) && Brake(r, n) == Brake(s, n)
  {
    if InSecondRegister(m) == InSecondRegister(n) {
      SharedRegisterUnaffected(s, r, m, n);
    } else {
      assert Register(r, n) == Register(s, n);
      Decode(s, n);
      Decode(r, n);
    }
  }

  /** OtherMotorsUnaffected for two motors of the same register. */
  lemma SharedRegisterUnaffected(s: Regs, r: Regs, m: uint8, n: uint8)
    requires IsMotor(m) && IsMotor(n) && m != n && InSecondRegister(m) == InSecondRegister(n)
    requires Register(r, m) & !MotorMask(m) == Register(s, m) & !MotorMask(m)
    ensures Direction(r, n) == Direction(s, n) && Brake(r, n) == Brake(s, n)
  {
    Decode(s, n);
    Decode(r, n);
    ReadsOutsideMotor(Register(r, m), Register(s, m), m, n);
  }

  /** Two bytes that differ only in motor m's bits read the same for any
      other motor n of that register. */
  lemma ReadsOutsideMotor(x: bv8, y: bv8, m: uint8, n: uint8)
    requires IsMotor(m) && IsMotor(n) && m != n && InSecondRegister(m) == InSecondRegister(n)
    requires x & !MotorMask(m) == y & !MotorMask(m)
    ensures FilterMask(x, DirMask(n)) == FilterMask(y, DirMask(n))
    ensures FilterMask(x, BrakeMask(n)) == FilterMask(y, BrakeMask(n))
  {
    var mm, dn, bn := MotorMask(m), DirMask(n), BrakeMask(n);
    assert mm & dn == 0 && mm & bn == 0 by { MotorsApart(m, n); }
    ReadOutside(x, y, mm, dn);
    ReadOutside(x, y, mm, bn);
  }

  /** FilterOutsideMask with the masks passed as plain values. */
  lemma ReadOutside(x: bv8, y: bv8, mm: bv8, other: bv8)
    requires x & !mm == y & !mm && mm & other == 0
    ensures FilterMask(x, other) == FilterMask(y, other)
  {
    FilterOutsideMask(x, y, mm, other);
  }

  /** Changes confined to the same bits compose. */
  lemma OnlyBitsChangeTrans(a: Regs, b: Regs, c: Regs, m: uint8, mask: bv8)
    requires OnlyBitsChange(a, b, m, mask) && OnlyBitsChange(b, c, m, mask)
    ensures OnlyBitsChange(a, c, m, mask)
  {
    ChainFrame(Register(a, m), Register(b, m), Register(c, m), mask);
  }

  /** A motor's two readings and its old_dir entry. */
  predicate SameMotor(s: Regs, r: Regs, n: uint8)
    requires WellFormed(s) && WellFormed(r) && IsMotor(n)
  {
    Direction(r, n) == Direction(s, n) && Brake(r, n) == Brake(s, n) && r.oldDir[n] == s.oldDir[n]
  }

  /** setDirectionData on motor m leaves every other motor's direction, brake
      and old_dir entry as they were. */
  lemma SetDirectionIsLocal(s: Regs, m: uint8, n: uint8, d: uint8)
    requires WellFormed(s) && IsMotor(n) && m != n
    ensures SameMotor(s, SetDirectionData(s, m, d), n)
  {
    if IsMotor(m) {
      SetDirectionFrame(s, m, d);
      OtherMotorsUnaffected(s, SetDirectionData(s, m, d), m, n);
      if Brake(s, m) == 0 {
        DirectionBits(s, m, d);
      }
    }
  }

  /** setBrakeData on motor m leaves every other motor's direction, brake
      and old_dir entry as they were. */
  lemma SetBrakeIsLocal(s: Regs, m: uint8, n: uint8, b: uint8)
    requires WellFormed(s) && IsMotor(n) && m != n
    ensures SameMotor(s, SetBrakeData(s, m, b), n)
  {
    if IsMotor(m) {
      SetBrakeFrame(s, m, b);
      SetBrakeSavesDirection(s, m, b);
      OtherMotorsUnaffected(s, SetBrakeData(s, m, b), m, n);
    }
  }

  /** A run of brake commands on motor m, applied in order. */
  function ApplyBrakes(s: Regs, m: uint8, bs: seq<uint8>): (r: Regs)
    requires WellFormed(s)
    ensures WellFormed(r)
    decreases |bs|
  {
    if bs == [] then s else ApplyBrakes(SetBrakeData(s, m, bs[0]), m, bs[1..])
  }

  /** Every command of the run engages the brake (SOFT or HARD). */
  predicate AllEngage(bs: seq<uint8>)
  {
    forall i :: 0 <= i < |bs| ==> bs[i] == BRAKE_SOFT || bs[i] == BRAKE_HARD
  }

  lemma AllEngageTail(bs: seq<uint8>)
    requires |bs| > 0 && AllEngage(bs)
    ensures bs[0] == BRAKE_SOFT || bs[0] == BRAKE_HARD
    ensures AllEngage(bs[1..])
  {
    forall i | 0 <= i < |bs[1..]| ensures bs[1..][i] == BRAKE_SOFT || bs[1..][i] == BRAKE_HARD {
      assert bs[1..][i] == bs[i + 1];
    }
  }

  /** SOFT or HARD on a braked motor keeps it braked and old_dir as it was. */
  lemma BrakedStep(s: Regs, m: uint8, b: uint8)
    requires WellFormed(s) && IsMotor(m) && Brake(s, m) == 1 && (b == BRAKE_SOFT || b == BRAKE_HARD)
    ensures Brake(SetBrakeData(s, m, b), m) == 1
    ensures SetBrakeData(s, m, b).oldDir == s.oldDir
    ensures OnlyBitsChange(s, SetBrakeData(s, m, b), m, MotorMask(m))
  {
    SetBrakeTakesEffect(s, m, b);
    SetBrakeSavesDirection(s, m, b);
    SetBrakeFrame(s, m, b);
  }

  /** While braked, a run of SOFT/HARD commands keeps the motor braked, never
      touches old_dir and moves no bit but the motor's own two. */
  lemma {:induction false} BrakedRunKeepsSaved(s: Regs, m: uint8, bs: seq<uint8>)
    requires WellFormed(s) && IsMotor(m) && Brake(s, m) == 1 && AllEngage(bs)
    ensures Brake(ApplyBrakes(s, m, bs), m) == 1
    ensures ApplyBrakes(s, m, bs).oldDir == s.oldDir
    ensures OnlyBitsChange(s, ApplyBrakes(s, m, bs), m, MotorMask(m))
    decreases |bs|
  {
    if bs != [] {
      var s' := SetBrakeData(s, m, bs[0]);
      AllEngageTail(bs);
      BrakedStep(s, m, bs[0]);
      BrakedRunKeepsSaved(s', m, bs[1..]);
      OnlyBitsChangeTrans(s, s', ApplyBrakes(s', m, bs[1..]), m, MotorMask(m));
    }
  }

  /** A non-empty run of SOFT/HARD on an unbraked motor brakes it and saves
      its direction in old_dir, moving no bit but its own two. */
  lemma EngageRun(s: Regs, m: uint8, bs: seq<uint8>)
    requires WellFormed(s) && IsMotor(m) && Brake(s, m) == 0
    requires |bs| > 0 && AllEngage(bs)
    ensures Brake(ApplyBrakes(s, m, bs), m) == 1
    ensures ApplyBrakes(s, m, bs).oldDir == s.oldDir[m := Direction(s, m)]
    ensures OnlyBitsChange(s, ApplyBrakes(s, m, bs), m, MotorMask(m))
  {
    var s1 := SetBrakeData(s, m, bs[0]);
    AllEngageTail(bs);
    EngageStep(s, m, bs[0]);
    BrakedRunKeepsSaved(s1, m, bs[1..]);
    OnlyBitsChangeTrans(s, s1, ApplyBrakes(s1, m, bs[1..]), m, MotorMask(m));
  }

  /** SOFT or HARD on an unbraked motor brakes it and saves its direction. */
  lemma EngageStep(s: Regs, m: uint8, b: uint8)
    requires WellFormed(s) && IsMotor(m) && Brake(s, m) == 0 && (b == BRAKE_SOFT || b == BRAKE_HARD)
    ensures Brake(SetBrakeData(s, m, b), m) == 1
    ensures SetBrakeData(s, m, b).oldDir == s.oldDir[m := Direction(s, m)]
    ensures OnlyBitsChange(s, SetBrakeData(s, m, b), m, MotorMask(m))
  {
    SetBrakeTakesEffect(s, m, b);
    SetBrakeSavesDirection(s, m, b);
    SetBrakeFrame(s, m, b);
  }

  /** OFF on a motor braked since state s, whose old_dir entry holds the
      direction s had, gives back s's bits. */
  lemma ReleaseRestores(s: Regs, s2: Regs, m: uint8)
    requires WellFormed(s) && WellFormed(s2) && IsMotor(m)
    requires Brake(s, m) == 0 && Brake(s2, m) == 1 && s2.oldDir[m] == Direction(s, m)
    requires OnlyBitsChange(s, s2, m, MotorMask(m))
    ensures Register(SetBrakeData(s2, m, BRAKE_OFF), m) == Register(s, m)
    ensures OtherRegister(SetBrakeData(s2, m, BRAKE_OFF), m) == OtherRegister(s, m)
    ensures SetBrakeData(s2, m, BRAKE_OFF).oldDir == s2.oldDir
  {
    BrakeBits(s2, m, BRAKE_OFF);
    Decode(s, m);
    assert DirOpForBrake(s2, m, BRAKE_OFF) ==
           if FilterMask(Register(s, m), DirMask(m)) == 1 then OPERATION_SET else OPERATION_CLEAR;
    RestoreMotor(Register(s2, m), Register(s, m), m);
  }

  /** Clearing motor m's brake bit and re-encoding the direction y reads
      gives back y, for a byte x that differs from y only in motor m's bits
      and a y whose brake bit is clear. */
  lemma RestoreMotor(x: bv8, y: bv8, m: uint8)
    requires IsMotor(m) && FilterMask(y, BrakeMask(m)) == 0
    requires x & !MotorMask(m) == y & !MotorMask(m)
    ensures ApplyMask(ApplyMask(x, BrakeMask(m), OPERATION_CLEAR), DirMask(m),
                      if FilterMask(y, DirMask(m)) == 1 then OPERATION_SET else OPERATION_CLEAR) == y
  {
    MotorMaskFacts(m);
    DirMaskSingle(m);
    FilterMaskMeaning(y, BrakeMask(m));
    RestoreBits(x, y, DirMask(m), BrakeMask(m));
  }

  /** Round trip of the saved direction: engaging the brake on an unbraked
      motor by any non-empty run of SOFT/HARD and then releasing it with OFF
      gives back the registers exactly, with old_dir holding the direction
      the motor had. */
  lemma BrakeCycleRestoresState(s: Regs, m: uint8, bs: seq<uint8>)
    requires WellFormed(s) && IsMotor(m) && Brake(s, m) == 0
    requires |bs| > 0 && AllEngage(bs)
    ensures SetBrakeData(ApplyBrakes(s, m, bs), m, BRAKE_OFF) == s.(oldDir := s.oldDir[m := Direction(s, m)])
  {
    var s2 := ApplyBrakes(s, m, bs);
    EngageRun(s, m, bs);
    ReleaseRestores(s, s2, m);
    EqualFromMotor(SetBrakeData(s2, m, BRAKE_OFF), s.(oldDir := s.oldDir[m := Direction(s, m)]), m);
  }

  /** The direction survives a brake cycle: set d on an unbraked motor, apply
      any non-empty run of SOFT/HARD, then OFF; the motor reads d, unbraked. */
  lemma DirectionSurvivesBrakeCycle(s: Regs, m: uint8, d: uint8, bs: seq<uint8>)
    requires WellFormed(s) && IsMotor(m) && Brake(s, m) == 0 && IsDirection(d)
    requires |bs| > 0 && AllEngage(bs)
    ensures Direction(SetBrakeData(ApplyBrakes(SetDirectionData(s, m, d), m, bs), m, BRAKE_OFF), m) == d
    ensures Brake(SetBrakeData(ApplyBrakes(SetDirectionData(s, m, d), m, bs), m, BRAKE_OFF), m) == 0
  {
    var s1 := SetDirectionData(s, m, d);
    SetDirectionTakesEffect(s, m, d);
    BrakeCycleRestoresState(s1, m, bs);
    ReadingsIgnoreSaved(s1, s1.oldDir[m := Direction(s1, m)], m);
  }

  /** A later direction command on the same motor overrides an earlier one. */
  lemma SetDirectionOverrides(s: Regs, m: uint8, d1: uint8, d2: uint8)
    requires WellFormed(s) && IsDirection(d2)
    ensures SetDirectionData(SetDirectionData(s, m, d1), m, d2) == SetDirectionData(s, m, d2)
  {
    if IsMotor(m) && Brake(s, m) == 0 && IsDirection(d1) {
      SetDirectionTakesEffect(s, m, d1);
      WriteDirectionOverrides(s, m, d1, d2);
    } else {
      SetDirectionRejects(s, m, d1);
    }
  }

  /** Two direction writes to one motor: the later one wins. */
  lemma WriteDirectionOverrides(s: Regs, m: uint8, d1: uint8, d2: uint8)
    requires WellFormed(s) && IsMotor(m) && IsDirection(d1) && IsDirection(d2)
    ensures WriteDirection(WriteDirection(s, m, d1), m, d2) == WriteDirection(s, m, d2)
  {
    var s1 := WriteDirection(s, m, d1);
    DirectionFields(s, m, d1);
    DirectionFields(s1, m, d2);
    DirectionFields(s, m, d2);
    if InSecondRegister(m) {
      ApplyMaskOverrides(s.second, DirMask(m), DirOperation(d1), DirOperation(d2));
    } else {
      ApplyMaskOverrides(s.first, DirMask(m), DirOperation(d1), DirOperation(d2));
    }
    assert s.oldDir[m := d1][m := d2] == s.oldDir[m := d2];
  }

  /** The old_dir half of WriteDirectionsCommute. */
  lemma SavedDirectionsCommute(s: Regs, m: uint8, n: uint8, d: uint8, e: uint8)
    requires WellFormed(s) && m != n && IsMotor(m) && IsMotor(n)
    ensures WriteDirection(WriteDirection(s, m, d), n, e).oldDir == WriteDirection(WriteDirection(s, n, e), m, d).oldDir
  {
    DirectionFields(s, m, d);
    DirectionFields(s, n, e);
    DirectionFields(WriteDirection(s, m, d), n, e);
    DirectionFields(WriteDirection(s, n, e), m, d);
  }

  /** Direction writes to two different motors commute. */
  lemma WriteDirectionsCommute(s: Regs, m: uint8, n: uint8, d: uint8, e: uint8)
    requires WellFormed(s) && m != n && IsMotor(m) && IsMotor(n)
    ensures WriteDirection(WriteDirection(s, m, d), n, e) == WriteDirection(WriteDirection(s, n, e), m, d)
  {
    SavedDirectionsCommute(s, m, n, d, e);
    DirectionFields(s, m, d);
    DirectionFields(s, n, e);
    DirectionFields(WriteDirection(s, m, d), n, e);
    DirectionFields(WriteDirection(s, n, e), m, d);
    var opD, opE := DirOperation(d), DirOperation(e);
    if InSecondRegister(m) && InSecondRegister(n) {
      MotorsApart(m, n);
      ApplyMasksCommute(s.second, DirMask(m), opD, DirMask(n), opE);
    } else if !InSecondRegister(m) && !InSecondRegister(n) {
      MotorsApart(m, n);
      ApplyMasksCommute(s.first, DirMask(m), opD, DirMask(n), opE);
    }
  }

  /** Direction commands on two different motors commute. */
  lemma SetDirectionCommutes(s: Regs, m: uint8, n: uint8, d: uint8, e: uint8)
    requires WellFormed(s) && m != n
    ensures SetDirectionData(SetDirectionData(s, m, d), n, e) == SetDirectionData(SetDirectionData(s, n, e), m, d)
  {
    var sm := SetDirectionData(s, m, d);
    var sn := SetDirectionData(s, n, e);
    if !(IsMotor(m) && Brake(s, m) == 0 && IsDirection(d)) {
      SetDirectionRejects(s, m, d);
      if IsMotor(m) { SetDirectionIsLocal(s, n, m, e); }
      SetDirectionRejects(sn, m, d);
    } else if !(IsMotor(n) && Brake(s, n) == 0 && IsDirection(e)) {
      SetDirectionRejects(s, n, e);
      if IsMotor(n) { SetDirectionIsLocal(s, m, n, d); }
      SetDirectionRejects(sm, n, e);
    } else {
      SetDirectionIsLocal(s, m, n, d);
      SetDirectionIsLocal(s, n, m, e);
      WriteDirectionsCommute(s, m, n, d, e);
    }
  }
}
