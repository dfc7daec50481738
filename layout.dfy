/**
 * Constants of the Wicked Device motor shield and the bit layout of its two
 * shift registers (WickedMotorShield.h).
 *
 * Each motor owns two bits of one register: a direction bit and a brake bit.
 * M1..M4 live in the first register, M5 and M6 in the high nibble of the
 * second one.
 */
module Layout {

  /** The C integer types the source uses for its parameters and fields. */
  newtype uint8 = x: int | 0 <= x < 0x100
  newtype uint16 = x: int | 0 <= x < 0x1_0000
  newtype uint32 = x: int | 0 <= x < 0x1_0000_0000
  newtype int16 = x: int | -0x8000 <= x < 0x8000

  const DIR_CCW: uint8 := 0
  const DIR_CW: uint8 := 1

  const BRAKE_OFF: uint8 := 0
  const BRAKE_HARD: uint8 := 1
  const BRAKE_SOFT: uint8 := 2

  const M1: uint8 := 0
  const M2: uint8 := 1
  const M3: uint8 := 2
  const M4: uint8 := 3
  const M5: uint8 := 4
  const M6: uint8 := 5

  // bits of the first shift register
  const M4_DIR_MASK: bv8 := 0x80
  const M4_BRAKE_MASK: bv8 := 0x40
  const M1_DIR_MASK: bv8 := 0x20
  const M1_BRAKE_MASK: bv8 := 0x10
  const M2_DIR_MASK: bv8 := 0x08
  const M2_BRAKE_MASK: bv8 := 0x04
  const M3_DIR_MASK: bv8 := 0x02
  const M3_BRAKE_MASK: bv8 := 0x01

  // bits of the second shift register
  const M6_DIR_MASK: bv8 := 0x80
  const M6_BRAKE_MASK: bv8 := 0x40
  const M5_DIR_MASK: bv8 := 0x20
  const M5_BRAKE_MASK: bv8 := 0x10

  const RCIN1: uint8 := 1
  const RCIN2: uint8 := 2

  /** Codes of the bit operation that apply_mask performs. */
  const OPERATION_CLEAR: uint8 := 0
  const OPERATION_SET: uint8 := 1
  const OPERATION_NONE: uint8 := 2

  /** The value every getter returns for a motor number it has no case for. */
  const BAD_MOTOR: uint8 := 0xff

  /** A motor number accepted by the `motor_number >= 6` guard. */
  predicate IsMotor(m: uint8)
  {
    m < 6
  }

  /** A motor number that has a case label in the per-motor dispatch switches. */
  predicate HasCase(m: uint8)
  {
    m == M1 || m == M2 || m == M3 || m == M4 || m == M5 || m == M6
  }

  /** The motor's bits are kept in the second register (M5, M6). */
  predicate InSecondRegister(m: uint8)
  {
    m == M5 || m == M6
  }

  /** A byte with exactly one bit set. */
  predicate SingleBit(x: bv8)
  {
    x != 0 && x & (x - 1) == 0
  }

  /** The direction bit of motor m in the register that owns it. */
  function DirMask(m: uint8): bv8
    requires IsMotor(m)
  {
    if m == M1 then M1_DIR_MASK
    else if m == M2 then M2_DIR_MASK
    else if m == M3 then M3_DIR_MASK
    else if m == M4 then M4_DIR_MASK
    else if m == M5 then M5_DIR_MASK
    else M6_DIR_MASK
  }

  /** The brake bit of motor m. */
  function BrakeMask(m: uint8): bv8
    requires IsMotor(m)
  {
    if m == M1 then M1_BRAKE_MASK
    else if m == M2 then M2_BRAKE_MASK
    else if m == M3 then M3_BRAKE_MASK
    else if m == M4 then M4_BRAKE_MASK
    else if m == M5 then M5_BRAKE_MASK
    else M6_BRAKE_MASK
  }

  /** Both bits of motor m. */
  function MotorMask(m: uint8): bv8
    requires IsMotor(m)
  {
    DirMask(m) | BrakeMask(m)
  }

  /** Every direction and brake mask is a single bit, the brake bit sits
      just below the direction bit, and the two differ. */
  lemma MasksAreSingleBits()
    ensures forall m :: IsMotor(m) ==> SingleBit(DirMask(m)) && SingleBit(BrakeMask(m))
    ensures forall m :: IsMotor(m) ==> BrakeMask(m) == DirMask(m) >> 1 && BrakeMask(m) & DirMask(m) == 0
  {
  }

  /** The two masks of one motor are non-zero and apart. */
  lemma MotorMaskFacts(m: uint8)
    requires IsMotor(m)
    ensures DirMask(m) != 0 && BrakeMask(m) != 0
    ensures DirMask(m) & BrakeMask(m) == 0 && BrakeMask(m) & DirMask(m) == 0
  {
  }

  /** The direction mask of one motor is a single bit. */
  lemma DirMaskSingle(m: uint8)
    requires IsMotor(m)
    ensures SingleBit(DirMask(m))
  {
  }

  /** Two distinct motors of one register: neither bit of one meets the other motor. */
  lemma MotorsApart(m: uint8, n: uint8)
    requires IsMotor(m) && IsMotor(n) && m != n && InSecondRegister(m) == InSecondRegister(n)
    ensures MotorMask(m) & DirMask(n) == 0 && MotorMask(m) & BrakeMask(n) == 0
    ensures DirMask(m) & DirMask(n) == 0
  {
    MasksDisjoint();
  }

  /** The case labels M1..M6 of the dispatch switches are exactly the numbers
      the `motor_number >= 6` guard lets through. */
  lemma MotorIdsMatchDispatch()
    ensures forall m :: HasCase(m) <==> IsMotor(m)
  {
  }

  /** Two distinct motors that share a register never share a bit. */
  lemma MasksDisjoint()
    ensures forall m, n :: IsMotor(m) && IsMotor(n) && m != n && InSecondRegister(m) == InSecondRegister(n)
                           ==> MotorMask(m) & MotorMask(n) == 0
  {
  }

  /** The eight bits of M1..M4 are distinct and fill the first register. */
  lemma FirstRegisterLayout()
    ensures MotorMask(M1) | MotorMask(M2) | MotorMask(M3) | MotorMask(M4) == 0xFF
    ensures forall m, n :: m < 4 && n < 4 && m != n ==> MotorMask(m) & MotorMask(n) == 0
    ensures forall m :: m < 4 ==> !InSecondRegister(m)
  {
  }

  /** The four bits of M5 and M6 are distinct and lie in the high nibble of
      the second register, so its low nibble belongs to no motor. */
  lemma SecondRegisterLayout()
    ensures MotorMask(M5) & MotorMask(M6) == 0
    ensures (MotorMask(M5) | MotorMask(M6)) == 0xF0
    ensures forall m :: IsMotor(m) ==> (InSecondRegister(m) <==> 4 <= m)
  {
  }

  /** The brake codes are three distinct values. */
  lemma BrakeCodesDistinct()
    ensures BRAKE_OFF != BRAKE_HARD && BRAKE_HARD != BRAKE_SOFT && BRAKE_OFF != BRAKE_SOFT
    ensures BRAKE_OFF == 0 && BRAKE_HARD == 1 && BRAKE_SOFT == 2
  {
  }
}
