/**
 * Wicked_Stepper (WickedMotorShield.cpp): a two-coil stepper motor driven
 * through the direction bits of two shield motors. The pure part says how
 * step_number moves and which coil pattern each step number selects; class
 * Stepper is proved to follow it.
 */
module Stepper {
  import opened Layout
  import opened Registers
  import Shield

  /** The uint16 arithmetic of step_number: the value modulo 2^16. */
  function Wrap16(x: int): uint16
  {
    (x % 0x1_0000) as uint16
  }

  /** One step_number update of step(): upwards it is incremented and goes
      back to 0 on reaching number_of_steps; downwards a 0 first becomes
      number_of_steps and then it is decremented. */
  function NextStepNumber(s: uint16, nos: uint16, up: bool): (r: uint16)
    ensures 0 < nos && s < nos ==> r < nos
  {
    if up then
      var t := Wrap16(s as int + 1);
      if t == nos then 0 else t
    else
      var t := if s == 0 then nos else s;
      Wrap16(t as int - 1)
  }

  /** uint16 arithmetic changes nothing for a value already in range. */
  lemma WrapInRange(x: int)
    requires 0 <= x < 0x1_0000
    ensures Wrap16(x) as int == x
  {
  }

  /** Within 0..number_of_steps-1 the step number moves by one and wraps
      around at both ends, staying in range. */
  lemma NextStepInRange(s: uint16, nos: uint16, up: bool)
    requires 0 < nos && s < nos
    ensures up ==> NextStepNumber(s, nos, up) == if s + 1 == nos then 0 else s + 1
    ensures !up ==> NextStepNumber(s, nos, up) == if s == 0 then nos - 1 else s - 1
  {
    if up {
      WrapInRange(s as int + 1);
    } else if s == 0 {
      WrapInRange(nos as int - 1);
    } else {
      WrapInRange(s as int - 1);
    }
  }

  /** A step up and a step down undo each other. */
  lemma StepsUndo(s: uint16, nos: uint16, up: bool)
    requires 0 < nos && s < nos
    ensures NextStepNumber(NextStepNumber(s, nos, up), nos, !up) == s
  {
    NextStepInRange(s, nos, up);
    NextStepInRange(NextStepNumber(s, nos, up), nos, !up);
  }

  /** step_number after k updates in one direction. */
  function Walk(s: uint16, nos: uint16, up: bool, k: nat): (r: uint16)
    ensures 0 < nos && s < nos ==> r < nos
    decreases k
  {
    if k == 0 then s else NextStepNumber(Walk(s, nos, up, k - 1), nos, up)
  }

  /** After k updates the step number is the start plus or minus k, modulo
      number_of_steps. */
  lemma {:induction false} WalkIsModular(s: uint16, nos: uint16, up: bool, k: nat)
    requires 0 < nos && s < nos
    ensures Walk(s, nos, up, k) as int == (if up then s as int + k else s as int - k) % nos as int
    decreases k
  {
    var n := nos as int;
    if k == 0 {
      ModUnique(s as int, n, 0, s as int);
    } else {
      var w := Walk(s, nos, up, k - 1);
      WalkIsModular(s, nos, up, k - 1);
      NextStepInRange(w, nos, up);
      ModStep(if up then s as int + (k - 1) else s as int - (k - 1), n);
    }
  }

  /** The remainder and quotient are the unique r in 0..n-1 and q with x == q * n + r. */
  lemma ModUnique(x: int, n: int, q: int, r: int)
    requires n > 0 && 0 <= r < n && x == q * n + r
    ensures x % n == r && x / n == q
  {
    var q0, r0 := x / n, x % n;
    assert x == q0 * n + r0;
    if q0 > q {
      MulMono(q + 1, q0, n);
    } else if q0 < q {
      MulMono(q0 + 1, q, n);
    }
  }

  /** Adding or subtracting one moves the remainder by one, wrapping around. */
  lemma ModStep(x: int, n: int)
    requires n > 0
    ensures (x + 1) % n == if x % n + 1 == n then 0 else x % n + 1
    ensures (x - 1) % n == if x % n == 0 then n - 1 else x % n - 1
  {
    var q, r := x / n, x % n;
    assert x == q * n + r;
    if r + 1 == n {
      ModUnique(x + 1, n, q + 1, 0);
    } else {
      ModUnique(x + 1, n, q, r + 1);
    }
    if r == 0 {
      ModUnique(x - 1, n, q - 1, n - 1);
    } else {
      ModUnique(x - 1, n, q, r - 1);
    }
  }

  /** Integer division of a non-negative x by a positive v rounds down and
      does not grow. */
  lemma DivBounds(x: int, v: int)
    requires x >= 0 && v > 0
    ensures 0 <= x / v <= x
    ensures x / v * v <= x < (x / v + 1) * v
  {
    var q := x / v;
    assert x == q * v + x % v;
    if q < 0 { MulMono(q, -1, v); }
    if q > x { MulMono(x + 1, q, v); MulMono(1, v, x + 1); }
  }

  /** Multiplying by a positive number keeps the order. */
  lemma MulMono(a: int, b: int, n: int)
    requires a <= b && n > 0
    ensures a * n <= b * n
  {
  }

  /** A coil pattern index handled by stepMotor's switch. */
  predicate IsPhase(p: int)
  {
    0 <= p < 4
  }

  /** The direction stepMotor gives the first coil (motor m1) in phase p. */
  function Coil1(p: int): (r: uint8)
    requires IsPhase(p)
    ensures r == DIR_CW || r == DIR_CCW
  {
    if p == 0 || p == 3 then DIR_CW else DIR_CCW
  }

  /** The direction stepMotor gives the second coil (motor m2) in phase p:
      the first coil's pattern one phase ahead, so the coils are in
      quadrature. */
  function Coil2(p: int): (r: uint8)
    requires IsPhase(p)
    ensures r == Coil1((p + 1) % 4)
  {
    if p == 2 || p == 3 then DIR_CW else DIR_CCW
  }

  /** The four phases are four distinct coil patterns, and going one phase
      up or down (modulo 4) flips exactly one coil. */
  lemma PhasesAreGrayCode(p: int, q: int)
    requires IsPhase(p) && IsPhase(q)
    ensures p != q ==> (Coil1(p), Coil2(p)) != (Coil1(q), Coil2(q))
    ensures q == (p + 1) % 4 ==> (Coil1(p) == Coil1(q)) != (Coil2(p) == Coil2(q))
  {
  }

  /** When number_of_steps is a multiple of 4 every update moves the phase
      step_number % 4 by exactly one, also across the wrap. */
  lemma PhaseAdvancesByOne(s: uint16, nos: uint16, up: bool)
    requires 0 < nos && s < nos && nos as int % 4 == 0
    ensures var p, q := s as int % 4, NextStepNumber(s, nos, up) as int % 4;
            if up then q == (p + 1) % 4 else p == (q + 1) % 4
  {
    NextStepInRange(s, nos, up);
  }

  /** When number_of_steps is not a multiple of 4 the wrap breaks the
      phase sequence: with 10 steps, stepping up from 9 to 0 takes the phase
      from 1 back to 0, a step backwards in the coil pattern. */
  lemma WrapBreaksPhase()
    ensures var p, q := 9 % 4, NextStepNumber(9, 10, true) as int % 4;
            q != (p + 1) % 4 && p == (q + 1) % 4
  {
    WrapInRange(10);
  }

  /** stepMotor on the register state: the two direction commands of phase
      p, nothing for any other p. */
  function StepMotorData(s: Regs, m1: uint8, m2: uint8, p: int): (r: Regs)
    requires WellFormed(s)
    ensures WellFormed(r)
  {
    if IsPhase(p) then SetDirectionData(SetDirectionData(s, m1, Coil1(p)), m2, Coil2(p)) else s
  }

  /** With both coils' brakes off, stepMotor sets the coils to phase p,
      keeps the brakes off and touches no other motor. */
  lemma StepMotorDrives(s: Regs, m1: uint8, m2: uint8, p: int, n: uint8)
    requires WellFormed(s) && IsMotor(m1) && IsMotor(m2) && m1 != m2 && IsPhase(p)
    requires Brake(s, m1) == 0 && Brake(s, m2) == 0
    requires IsMotor(n) && n != m1 && n != m2
    ensures var r := StepMotorData(s, m1, m2, p);
            Direction(r, m1) == Coil1(p) && Direction(r, m2) == Coil2(p) &&
            Brake(r, m1) == 0 && Brake(r, m2) == 0 && SameMotor(s, r, n)
  {
    var s1 := SetDirectionData(s, m1, Coil1(p));
    SetDirectionTakesEffect(s, m1, Coil1(p));
    SetDirectionIsLocal(s, m1, m2, Coil1(p));
    SetDirectionIsLocal(s, m1, n, Coil1(p));
    SetDirectionTakesEffect(s1, m2, Coil2(p));
    SetDirectionIsLocal(s1, m2, m1, Coil2(p));
    SetDirectionIsLocal(s1, m2, n, Coil2(p));
  }

  /** The register state after k phase advances of step(). */
  function Drive(r: Regs, m1: uint8, m2: uint8, s: uint16, nos: uint16, up: bool, k: nat): (t: Regs)
    requires WellFormed(r)
    ensures WellFormed(t)
    decreases k
  {
    if k == 0 then r
    else StepMotorData(Drive(r, m1, m2, s, nos, up, k - 1), m1, m2, Walk(s, nos, up, k) as int % 4)
  }

  /** What a run of k phase advances sends to the board: one frame per
      step, carrying the register images after that step. */
  function DriveTrace(r: Regs, m1: uint8, m2: uint8, s: uint16, nos: uint16, up: bool, k: nat): (w: seq<Shield.Signal>)
    requires WellFormed(r)
    ensures |w| == 4 * k
    decreases k
  {
    if k == 0 then []
    else
      var t := Drive(r, m1, m2, s, nos, up, k);
      DriveTrace(r, m1, m2, s, nos, up, k - 1) + Shield.Frame(t.first, t.second)
  }

  /** One more step: the next step number, and stepMotor in its phase. */
  lemma DriveStep(r: Regs, m1: uint8, m2: uint8, s: uint16, nos: uint16, up: bool, k: nat)
    requires WellFormed(r)
    ensures Walk(s, nos, up, k + 1) == NextStepNumber(Walk(s, nos, up, k), nos, up)
    ensures Drive(r, m1, m2, s, nos, up, k + 1)
            == StepMotorData(Drive(r, m1, m2, s, nos, up, k), m1, m2, Walk(s, nos, up, k + 1) as int % 4)
  {
  }

  /** One more step appends the frame of the registers after that step. */
  lemma TraceGrows(w: seq<Shield.Signal>, r: Regs, m1: uint8, m2: uint8, s: uint16, nos: uint16, up: bool, k: nat)
    requires WellFormed(r)
    ensures var t := Drive(r, m1, m2, s, nos, up, k + 1);
            w + DriveTrace(r, m1, m2, s, nos, up, k) + Shield.Frame(t.first, t.second)
            == w + DriveTrace(r, m1, m2, s, nos, up, k + 1)
  {
  }

  /** After a run of at least one step the board holds the register images
      of the last step, whatever was sent before the run. */
  lemma DriveTraceLatches(w: seq<Shield.Signal>, r: Regs, m1: uint8, m2: uint8, s: uint16, nos: uint16, up: bool, k: nat)
    requires WellFormed(r) && k > 0
    ensures var t := Drive(r, m1, m2, s, nos, up, k);
            Shield.Latched(w + DriveTrace(r, m1, m2, s, nos, up, k)) == Shield.Some((t.first, t.second))
  {
    var t := Drive(r, m1, m2, s, nos, up, k);
    var u := w + DriveTrace(r, m1, m2, s, nos, up, k - 1);
    assert w + DriveTrace(r, m1, m2, s, nos, up, k) == u + Shield.Frame(t.first, t.second);
    Shield.LoadLatches(u, t.first, t.second);
  }

  /** A run of steps keeps both coils unbraked, leaves every other motor
      alone and ends with the coil pattern of the final step number. */
  lemma {:induction false} DriveFollowsPhase(r: Regs, m1: uint8, m2: uint8, s: uint16, nos: uint16, up: bool, k: nat, n: uint8)
    requires WellFormed(r) && IsMotor(m1) && IsMotor(m2) && m1 != m2
    requires Brake(r, m1) == 0 && Brake(r, m2) == 0
    requires IsMotor(n) && n != m1 && n != m2
    ensures var t := Drive(r, m1, m2, s, nos, up, k);
            Brake(t, m1) == 0 && Brake(t, m2) == 0 && SameMotor(r, t, n)
    ensures k > 0 ==> var t, p := Drive(r, m1, m2, s, nos, up, k), Walk(s, nos, up, k) as int % 4;
            Direction(t, m1) == Coil1(p) && Direction(t, m2) == Coil2(p)
    decreases k
  {
    if k > 0 {
      var t0 := Drive(r, m1, m2, s, nos, up, k - 1);
      DriveFollowsPhase(r, m1, m2, s, nos, up, k - 1, n);
      StepMotorDrives(t0, m1, m2, Walk(s, nos, up, k) as int % 4, n);
    }
  }

  /** setSpeed's step_delay: 60000 ms divided by number_of_steps, then by
      the speed in RPM, each division rounding down. */
  function StepDelay(nos: uint16, speed: uint32): (r: uint32)
    requires nos > 0 && speed > 0
    ensures r as int <= 60000 / nos as int
  {
    DivBounds(60000, nos as int);
    DivBounds(60000 / nos as int, speed as int);
    (60000 / nos as int / speed as int) as uint32
  }

  /** step_delay is the whole number of milliseconds per step: the largest
      d with d * number_of_steps * speed <= 60000. */
  lemma StepDelayBounds(nos: uint16, speed: uint32)
    requires nos > 0 && speed > 0
    ensures var d, n, v := StepDelay(nos, speed) as int, nos as int, speed as int;
            d * n * v <= 60000 < (d + 1) * n * v
  {
    var n, v := nos as int, speed as int;
    var q := 60000 / n;
    var d := q / v;
    DivBounds(60000, n);
    DivBounds(q, v);
    assert d == StepDelay(nos, speed) as int;
    MulMono(d * v, q, n);
    MulMono(q + 1, (d + 1) * v, n);
    assert d * n * v == d * v * n;
    assert (d + 1) * n * v == (d + 1) * v * n;
  }

  /** The first half of the Wicked_Stepper constructor on the register
      state: both coils set to CW, then both brakes released. */
  function StepperStart(s: Regs, m1: uint8, m2: uint8): (r: Regs)
    requires WellFormed(s)
    ensures WellFormed(r)
  {
    var s1 := SetDirectionData(SetDirectionData(s, m1, DIR_CW), m2, DIR_CW);
    SetBrakeData(SetBrakeData(s1, m1, BRAKE_OFF), m2, BRAKE_OFF)
  }

  /** After the shield constructor has set old_dir to CW, the stepper
      constructor leaves both coils unbraked and turning CW, whether they
      started braked or not, and touches no other motor. */
  lemma StepperStartReleases(s: Regs, m1: uint8, m2: uint8, n: uint8)
    requires WellFormed(s) && IsMotor(m1) && IsMotor(m2) && m1 != m2
    requires s.oldDir[m1] == DIR_CW && s.oldDir[m2] == DIR_CW
    requires IsMotor(n) && n != m1 && n != m2
    ensures var r := StepperStart(s, m1, m2);
            Brake(r, m1) == 0 && Brake(r, m2) == 0 &&
            Direction(r, m1) == DIR_CW && Direction(r, m2) == DIR_CW &&
            Direction(r, n) == Direction(s, n) && Brake(r, n) == Brake(s, n)
  {
    var s1 := SetDirectionData(s, m1, DIR_CW);
    var s2 := SetDirectionData(s1, m2, DIR_CW);
    var s3 := SetBrakeData(s2, m1, BRAKE_OFF);
    var s4 := SetBrakeData(s3, m2, BRAKE_OFF);
    // m1: set CW, then untouched by m2's command, then released
    StartOne(s, m1);
    SetDirectionIsLocal(s1, m2, m1, DIR_CW);
    ReleaseOne(s2, m1);
    SetBrakeIsLocal(s3, m2, m1, BRAKE_OFF);
    // m2: untouched by m1's command, set CW, untouched, then released
    SetDirectionIsLocal(s, m1, m2, DIR_CW);
    StartOne(s1, m2);
    SetBrakeIsLocal(s2, m1, m2, BRAKE_OFF);
    ReleaseOne(s3, m2);
    // any other motor
    SetDirectionIsLocal(s, m1, n, DIR_CW);
    SetDirectionIsLocal(s1, m2, n, DIR_CW);
    SetBrakeIsLocal(s2, m1, n, BRAKE_OFF);
    SetBrakeIsLocal(s3, m2, n, BRAKE_OFF);
  }

  /** The CW command of the stepper constructor on one coil: it takes effect
      if the coil is unbraked and is refused otherwise; either way the saved
      direction is CW afterwards. */
  lemma StartOne(s: Regs, m: uint8)
    requires WellFormed(s) && IsMotor(m) && s.oldDir[m] == DIR_CW
    ensures var r := SetDirectionData(s, m, DIR_CW);
            r.oldDir[m] == DIR_CW && Brake(r, m) == Brake(s, m) &&
            (Brake(s, m) == 0 ==> Direction(r, m) == DIR_CW)
  {
    if Brake(s, m) == 0 {
      SetDirectionTakesEffect(s, m, DIR_CW);
    } else {
      SetDirectionRejects(s, m, DIR_CW);
    }
  }

  /** The BRAKE_OFF of the stepper constructor on one coil that turns CW if
      unbraked and has CW saved. */
  lemma ReleaseOne(s: Regs, m: uint8)
    requires WellFormed(s) && IsMotor(m) && s.oldDir[m] == DIR_CW
    requires Brake(s, m) == 0 ==> Direction(s, m) == DIR_CW
    ensures var r := SetBrakeData(s, m, BRAKE_OFF);
            Brake(r, m) == 0 && Direction(r, m) == DIR_CW
  {
    SetBrakeTakesEffect(s, m, BRAKE_OFF);
  }

  /** In the power-on state every motor is braked, so the constructor's
      CW commands are refused and only the releases change anything. */
  lemma PowerOnStartSkipsDirections(m1: uint8, m2: uint8)
    requires IsMotor(m1) && IsMotor(m2)
    ensures var s := ResetOldDir(PowerOn());
            SetDirectionData(SetDirectionData(s, m1, DIR_CW), m2, DIR_CW) == s
  {
    var s := ResetOldDir(PowerOn());
    PowerOnBraked(m1);
    PowerOnBraked(m2);
    SetDirectionRejects(s, m1, DIR_CW);
    SetDirectionRejects(s, m2, DIR_CW);
  }

  /** How many steps step(count) takes: abs(count) in a 16-bit int, where
      abs(-32768) stays -32768 and the loop does not run. */
  function StepCount(count: int16): (r: nat)
    ensures r < 0x8000
    ensures r == 0 <==> count == 0 || count == -0x8000
  {
    if count == -0x8000 then 0 else if count < 0 then -count as int else count as int
  }

  /** The four shield commands of the Wicked_Stepper constructor: both
      coils CW, then both brakes off. Nothing is sent to the board. */
  method StartCoils(shield: Shield.Shield, m1: uint8, m2: uint8)
    requires shield.Valid()
    modifies shield, shield.oldDir
    ensures shield.Valid() && shield.wire == old(shield.wire)
    ensures shield.Abs() == StepperStart(old(shield.Abs()), m1, m2)
  {
    shield.SetDirectionData(m1, DIR_CW);
    shield.SetDirectionData(m2, DIR_CW);
    shield.SetBrakeData(m1, BRAKE_OFF);
    shield.SetBrakeData(m2, BRAKE_OFF);
  }

  class Stepper {
    /** The shared static state of the shield. */
    const shield: Shield.Shield
    var direction: uint8
    var speed: uint16
    var stepDelay: uint32
    const numberOfSteps: uint16
    var stepNumber: uint16
    const m1: uint8
    const m2: uint8

    ghost predicate Valid()
      reads this, shield, shield.oldDir
    {
      shield.Valid()
    }

    /** Wicked_Stepper: the shield constructor, the fields, both coils CW,
        both brakes off, one load. PWM set-up is left out. */
    constructor (shield: Shield.Shield, numberOfSteps: uint16, m1: uint8, m2: uint8)
      requires shield.Valid()
      modifies shield, shield.oldDir
      ensures this.shield == shield && Valid()
      ensures stepNumber == 0 && speed == 0 && direction == 0
      ensures this.numberOfSteps == numberOfSteps && this.m1 == m1 && this.m2 == m2
      ensures shield.Abs() == StepperStart(ResetOldDir(old(shield.Abs())), m1, m2)
      ensures shield.wire == old(shield.wire) + Shield.Frame(old(shield.first), old(shield.second))
                                              + Shield.Frame(shield.first, shield.second)
    {
      this.shield := shield;
      stepNumber := 0;
      speed := 0;
      direction := 0;
      this.numberOfSteps := numberOfSteps;
      this.m1 := m1;
      this.m2 := m2;
      new;
      shield.Init();
      StartCoils(shield, m1, m2);
      shield.LoadShiftRegister();
    }

    /** setSpeed: step_delay from number_of_steps and the speed in RPM. */
    method SetSpeed(speed: uint32)
      requires numberOfSteps > 0 && speed > 0
      modifies this
      ensures stepDelay == StepDelay(numberOfSteps, speed)
      ensures direction == old(direction) && stepNumber == old(stepNumber) && this.speed == old(this.speed)
    {
      stepDelay := StepDelay(numberOfSteps, speed);
    }

    /** stepMotor: the two direction commands of the phase, then a load. */
    method StepMotor(thisStep: int)
      requires Valid()
      modifies shield, shield.oldDir
      ensures Valid()
      ensures shield.Abs() == StepMotorData(old(shield.Abs()), m1, m2, thisStep)
      ensures shield.wire == old(shield.wire) + Shield.Frame(shield.first, shield.second)
    {
      if thisStep == 0 {
        shield.SetDirectionData(m1, DIR_CW);
        shield.SetDirectionData(m2, DIR_CCW);
      } else if thisStep == 1 {
        shield.SetDirectionData(m1, DIR_CCW);
        shield.SetDirectionData(m2, DIR_CCW);
      } else if thisStep == 2 {
        shield.SetDirectionData(m1, DIR_CCW);
        shield.SetDirectionData(m2, DIR_CW);
      } else if thisStep == 3 {
        shield.SetDirectionData(m1, DIR_CW);
        shield.SetDirectionData(m2, DIR_CW);
      }
      shield.LoadShiftRegister();
    }

    /** One pass of step()'s loop once the step delay has elapsed: move
        step_number one way and drive the coils to its phase. */
    method Advance()
      requires Valid()
      modifies this, shield, shield.oldDir
      ensures Valid() && direction == old(direction) && stepDelay == old(stepDelay) && speed == old(speed)
      ensures stepNumber == NextStepNumber(old(stepNumber), numberOfSteps, direction == 1)
      ensures shield.Abs() == StepMotorData(old(shield.Abs()), m1, m2, stepNumber as int % 4)
      ensures shield.wire == old(shield.wire) + Shield.Frame(shield.first, shield.second)
      ensures Shield.Latched(shield.wire) == Shield.Some((shield.first, shield.second))
    {
      if direction == 1 {
        stepNumber := Wrap16(stepNumber as int + 1);
        if stepNumber == numberOfSteps {
          stepNumber := 0;
        }
      } else {
        if stepNumber == 0 {
          stepNumber := numberOfSteps;
        }
        stepNumber := Wrap16(stepNumber as int - 1);
      }
      StepMotor(stepNumber as int % 4);
      Shield.LoadLatches(old(shield.wire), shield.first, shield.second);
    }

    /** The loop of step(): one phase advance for each step left. */
    method Run(stepsLeft: int)
      requires Valid()
      modifies this, shield, shield.oldDir
      ensures Valid() && direction == old(direction) && stepDelay == old(stepDelay) && speed == old(speed)
      ensures var k := if stepsLeft > 0 then stepsLeft else 0;
              stepNumber == Walk(old(stepNumber), numberOfSteps, direction == 1, k) &&
              shield.Abs() == Drive(old(shield.Abs()), m1, m2, old(stepNumber), numberOfSteps, direction == 1, k) &&
              shield.wire == old(shield.wire) + DriveTrace(old(shield.Abs()), m1, m2, old(stepNumber), numberOfSteps, direction == 1, k)
      ensures stepsLeft > 0 ==> Shield.Latched(shield.wire) == Shield.Some((shield.first, shield.second))
    {
      var left := stepsLeft;
      ghost var total: nat := if stepsLeft > 0 then stepsLeft else 0;
      ghost var up := direction == 1;
      ghost var s0, r0, w0 := stepNumber, shield.Abs(), shield.wire;
      ghost var done: nat := 0;
      while left > 0
        invariant Valid() && done <= total
        invariant left > 0 ==> done + left == total
        invariant left <= 0 ==> done == total
        invariant direction == old(direction) && stepDelay == old(stepDelay) && speed == old(speed)
        invariant stepNumber == Walk(s0, numberOfSteps, up, done)
        invariant shield.Abs() == Drive(r0, m1, m2, s0, numberOfSteps, up, done)
        invariant shield.wire == w0 + DriveTrace(r0, m1, m2, s0, numberOfSteps, up, done)
        decreases left
      {
        Advance();
        DriveStep(r0, m1, m2, s0, numberOfSteps, up, done);
        TraceGrows(w0, r0, m1, m2, s0, numberOfSteps, up, done);
        done := done + 1;
        left := left - 1;
      }
      if total > 0 {
        DriveTraceLatches(w0, r0, m1, m2, s0, numberOfSteps, up, total);
      }
    }

    /** step: set the direction from the sign of the count, then take
        abs(count) steps, each one phase advance. */
    method Step(count: int16)
      requires Valid()
      modifies this, shield, shield.oldDir
      ensures Valid() && stepDelay == old(stepDelay) && speed == old(speed)
      ensures direction == if count > 0 then 1 else if count < 0 then 0 else old(direction)
      ensures stepNumber == Walk(old(stepNumber), numberOfSteps, direction == 1, StepCount(count))
      ensures shield.Abs() == Drive(old(shield.Abs()), m1, m2, old(stepNumber), numberOfSteps, direction == 1, StepCount(count))
      ensures shield.wire == old(shield.wire) + DriveTrace(old(shield.Abs()), m1, m2, old(stepNumber), numberOfSteps, direction == 1, StepCount(count))
      ensures StepCount(count) > 0 ==> Shield.Latched(shield.wire) == Shield.Some((shield.first, shield.second))
    {
      var stepsLeft: int := if count == -0x8000 then count as int else if count < 0 then -count as int else count as int;
      if count > 0 {
        direction := 1;
      }
      if count < 0 {
        direction := 0;
      }
      Run(stepsLeft);
    }
  }
}
