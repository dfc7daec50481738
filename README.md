# Wicked Device motor shield — a verified model of the shift-register state

The Wicked Device motor shield drives six motor channels, M1 to M6, through
two 8-bit shift registers. The Arduino library (`WickedMotorShield.cpp` and
`WickedMotorShield.h`) keeps an image of each register in memory:

- `first_shift_register` holds the bits of M1 to M4;
- `second_shift_register` holds M5 and M6 in its high nibble.

Each motor owns a direction bit and a brake bit. While the brake bit is
clear, the direction bit gives the rotation (1 = `DIR_CW`, 0 = `DIR_CCW`).
While it is set, the direction bit tells hard braking (1) from soft braking
(0). So braking overwrites the direction. The library therefore saves it
in `old_dir[m]` when the brake engages, and restores it when the brake is
released with `BRAKE_OFF`.

This project models that state machine in Dafny and proves its rules. It
also models the two users of the shared state: `Wicked_Stepper`, a two-coil
stepper motor, and `Wicked_DCMotor`.

Files:

- `layout.dfy` (module `Layout`): the constants and the per-motor bit masks
  of the header, with lemmas about the register layout.
- `codec.dfy` (module `Codec`): `apply_mask` and `filter_mask` as pure
  functions on `bv8`, with their encode/decode laws.
- `registers.dfy` (module `Registers`): the shared state as a value
  `Regs(first, second, oldDir)` and each operation as a function on it.
  Among the proved laws: the brake table, the saving and restoring of
  `old_dir`, locality to one motor, and the brake-cycle round trip.
- `shield.dfy` (module `Shield`): class `Shield` holds the static members
  `first_shift_register`, `second_shift_register` and `old_dir` (an
  array). Its methods follow the C++ step by step (early returns, a local
  copy of the register, `apply_mask` on that copy, the store back). Each is
  proved to move `Abs()` exactly as the matching `Registers` function does.
  `load_shift_register` appends to a ghost trace of serial signals.
- `stepper.dfy` (module `Stepper`): the pure step-number arithmetic (16-bit
  wrap made explicit), the four-phase coil table, the step delay, and class
  `Stepper`, whose `step` loop (method `Run`) is proved against them.
- `dcmotor.dfy` (module `DcMotor`): class `DCMotor`, one channel's wrappers.

All static members are shared by every object in C++. Here they are one
`Shield` object, which each `Stepper` and `DCMotor` references. Each C++
object's base constructor runs `Shield.Init` on it.

`apply_mask` writes through a pointer, but every call site passes the
address of a local copy of a register. It is therefore a pure function,
and the callers write `v := ApplyMask(v, mask, op)`.

Lines 332 and 408 of `WickedMotorShield.cpp` call `getMotorBrakeM`, which is
not declared anywhere. The declared member is `get_motor_brakeM`, and the
model calls that.

The library's documentation says the constructor starts every channel
hard-braked. The constructor code itself does not touch the registers. It
resets `old_dir` to CW and loads the registers as they are, so the braked
state comes only from the static initializers (0xff). The model follows the
code: `Shield.Shield.constructor` is the power-on state, and `Shield.Init`
leaves the registers alone.

`step()` keeps the phase as `step_number % 4`, and `step_number` wraps at
`number_of_steps`. When `number_of_steps` is a multiple of 4, every update
moves the phase by exactly one (`Stepper.PhaseAdvancesByOne`). Otherwise the
wrap breaks the coil sequence: with 10 steps, stepping up from 9 to 0 takes
the phase from 1 back to 0, a step backwards (`Stepper.WrapBreaksPhase`).
The model keeps the code's behaviour.

## Model

| member | source | states |
|---|---|---|
| Layout.DirMask | WickedMotorShield.h:80-166 | no postcondition of its own, to keep bit-vector facts out of the register proofs; what it returns is stated by Layout.MasksAreSingleBits and Layout.MotorsApart |
| Layout.BrakeMask | WickedMotorShield.h:80-166 | no postcondition of its own, for the same reason; Layout.MasksAreSingleBits states that it is the single bit right below the direction bit |
| Layout.MasksAreSingleBits | WickedMotorShield.h:80-166 | every direction and brake mask is a single bit; each brake bit sits right below its motor's direction bit |
| Layout.MotorIdsMatchDispatch | WickedMotorShield.h:51-71 | the ids with a case label (M1..M6 = 0..5) are exactly those the `motor_number >= 6` guard lets through |
| Layout.MasksDisjoint | WickedMotorShield.h:80-166 | two distinct motors of the same register share no bit |
| Layout.MotorsApart | WickedMotorShield.h:80-166 | neither bit of one motor meets a bit of another motor in the same register |
| Layout.FirstRegisterLayout | WickedMotorShield.h:80-136 | the eight masks of M1..M4 are pairwise disjoint and cover all of 0xFF |
| Layout.SecondRegisterLayout | WickedMotorShield.h:145-166 | the four masks of M5, M6 are disjoint and fill exactly 0xF0, so the low nibble belongs to no motor |
| Layout.BrakeCodesDistinct | WickedMotorShield.h:39-47 | BRAKE_OFF, BRAKE_HARD, BRAKE_SOFT are the distinct values 0, 1, 2 |
| Codec.ApplyMask | WickedMotorShield.cpp:236-248 | no postcondition of its own, to keep bit-vector facts out of every proof that mentions it; its meaning is Codec.ApplyMaskMeaning |
| Codec.FilterMask | WickedMotorShield.cpp:255-262 | no postcondition of its own, for the same reason; its meaning is Codec.FilterMaskMeaning |
| Codec.ApplyMaskMeaning | WickedMotorShield.cpp:236-248 | SET turns the masked bits on, CLEAR turns them off, NONE or any other code leaves the byte unchanged, and no bit outside the mask moves |
| Codec.FilterMaskMeaning | WickedMotorShield.cpp:255-262 | filter_mask answers only 0 or 1, and 1 exactly when `value & mask != 0` |
| Codec.FilterReadsOneBit | WickedMotorShield.cpp:255-262 | with a single-bit mask, filter_mask reads exactly that bit |
| Codec.FilterAfterApply | WickedMotorShield.cpp:236-262 | decoding a bit just encoded with SET gives DIR_CW (1), with CLEAR gives DIR_CCW (0) |
| Codec.ApplyAfterFilter | WickedMotorShield.cpp:236-262 | re-encoding the bit that filter_mask decoded leaves the byte as it was |
| Codec.FilterAfterApplyAt | WickedMotorShield.cpp:236-262 | after apply_mask, filter_mask reads the operation on the masked bit and the old value on any disjoint mask |
| Codec.FilterOutsideMask | WickedMotorShield.cpp:255-262 | bytes equal outside a mask decode the same through any disjoint mask |
| Codec.TwoMaskFrame | WickedMotorShield.cpp:426-451 | the brake-then-direction pair of apply_mask calls moves no bit outside the two masks |
| Codec.ApplyMasksCommute | WickedMotorShield.cpp:236-248 | apply_mask on two disjoint masks gives the same byte in either order |
| Codec.ApplyMaskOverrides | WickedMotorShield.cpp:236-248 | a later SET or CLEAR on the same mask overrides any earlier operation |
| Codec.RestoreBits | WickedMotorShield.cpp:412-420 | clearing the brake bit and re-encoding the saved direction bit rebuilds the byte as it was before braking |
| Registers.PowerOn | WickedMotorShield.cpp:73-118 | the power-on state is well formed: old_dir holds six entries, each 0 or 1 |
| Registers.PowerOnBraked | WickedMotorShield.cpp:73-78 | at power-on every motor reads brake 1 and direction CW, also after old_dir is reset |
| Registers.ResetOldDir | WickedMotorShield.cpp:166-168 | the constructor's loop leaves both registers unchanged and every old_dir entry DIR_CW |
| Registers.Register | WickedMotorShield.cpp:195-202 | no postcondition of its own; Registers.WithRegister proves that it reads back what set_shift_register_value stored, and Shield.Shield.GetShiftRegisterValue is proved equal to it |
| Registers.WithRegister | WickedMotorShield.cpp:209-216 | set_shift_register_value stores into the register that owns the motor and leaves the other register and old_dir alone |
| Registers.Direction | WickedMotorShield.cpp:464-484 | get_motor_directionM answers 0xff exactly for a motor number outside M1..M6, and 0 or 1 for the six motors |
| Registers.Brake | WickedMotorShield.cpp:493-513 | get_motor_brakeM answers 0xff exactly for a motor number outside M1..M6, and 0 or 1 for the six motors (soft and hard both read 1) |
| Registers.Decode | WickedMotorShield.cpp:464-513 | for a valid motor, the getters are filter_mask of the owning register with the motor's direction or brake mask |
| Registers.DecodeBits | WickedMotorShield.cpp:464-513 | direction reads CW exactly when the direction bit is set and CCW exactly when it is clear; brake reads 1 exactly when the brake bit is set |
| Registers.WriteDirection | WickedMotorShield.cpp:350-371 | the writing half of setDirectionData keeps every old_dir entry 0 or 1; its effect on the bits is Registers.SetDirectionTakesEffect and Registers.SetDirectionFrame |
| Registers.WriteBrake | WickedMotorShield.cpp:412-453 | the writing half of setBrakeData keeps every old_dir entry 0 or 1; its effect on the bits is Registers.SetBrakeTakesEffect and Registers.SetBrakeFrame |
| Registers.SetDirectionData | WickedMotorShield.cpp:328-372 | setDirectionData keeps the state well formed (old_dir entries stay 0 or 1) |
| Registers.SetBrakeData | WickedMotorShield.cpp:383-454 | setBrakeData keeps the state well formed |
| Registers.SetDirectionRejects | WickedMotorShield.cpp:335-348 | for a bad motor, a braked motor or a direction other than CW/CCW, setDirectionData changes neither register nor old_dir |
| Registers.SetDirectionTakesEffect | WickedMotorShield.cpp:338-371 | on an unbraked motor with CW or CCW, afterwards the direction reads the new value, the brake still reads 0, and old_dir[m] holds the new value |
| Registers.SetDirectionFrame | WickedMotorShield.cpp:350-371 | setDirectionData changes no bit but motor m's two bits in its own register |
| Registers.SetDirectionOverrides | WickedMotorShield.cpp:338-371 | a second valid direction command overrides the first |
| Registers.SetDirectionCommutes | WickedMotorShield.cpp:328-372 | direction commands on two different motors give the same state in either order |
| Registers.SetBrakeRejects | WickedMotorShield.cpp:389-424 | for a bad motor or a brake code outside {0, 1, 2}, setBrakeData changes neither register nor old_dir |
| Registers.SetBrakeTakesEffect | WickedMotorShield.cpp:395-450 | SOFT leaves brake 1 and direction 0; HARD leaves brake 1 and direction 1; OFF leaves brake 0 and restores old_dir[m] if braked, else keeps the direction |
| Registers.SetBrakeSavesDirection | WickedMotorShield.cpp:412-424 | old_dir changes only on an unbraked to SOFT/HARD transition, and then takes the current direction; SOFT/HARD on a braked motor and OFF leave it alone |
| Registers.SetBrakeFrame | WickedMotorShield.cpp:426-453 | setBrakeData changes no bit but motor m's two bits in its own register |
| Registers.OtherMotorsUnaffected | WickedMotorShield.h:80-166 | a change confined to one motor's bits leaves every other motor's direction and brake readings as they were |
| Registers.SetDirectionIsLocal | WickedMotorShield.cpp:328-372 | a direction command leaves every other motor's direction, brake and old_dir entry as they were |
| Registers.SetBrakeIsLocal | WickedMotorShield.cpp:383-454 | a brake command leaves every other motor's direction, brake and old_dir entry as they were |
| Registers.BrakedRunKeepsSaved | WickedMotorShield.cpp:421-424 | any run of SOFT/HARD commands on a braked motor keeps it braked, leaves old_dir unchanged and touches only its bits |
| Registers.EngageRun | WickedMotorShield.cpp:421-424 | a non-empty run of SOFT/HARD on an unbraked motor brakes it and saves the direction it had before the run |
| Registers.ReleaseRestores | WickedMotorShield.cpp:412-420 | releasing with OFF after such a run rebuilds the motor's register byte exactly as before braking |
| Registers.BrakeCycleRestoresState | WickedMotorShield.cpp:412-424 | SOFT/HARD run then OFF from an unbraked motor restores both registers and leaves old_dir[m] holding the motor's direction |
| Registers.DirectionSurvivesBrakeCycle | WickedMotorShield.cpp:412-420 | set direction d on an unbraked motor, any non-empty SOFT/HARD run, then OFF: the direction reads d and the brake reads 0 |
| Shield.Frame | WickedMotorShield.cpp:181-186 | one load is four signals: latch low, the second register, the first register, latch high |
| Shield.Latched | WickedMotorShield.cpp:181-186 | when it reports register images, the trace ends with a complete frame that carried exactly those images |
| Shield.LoadLatches | WickedMotorShield.cpp:181-186 | whatever was sent before, after a load the board holds the first and the second register of that load |
| Shield.GetRcInputPin | WickedMotorShield.cpp:279-289 | get_rc_input_pin answers 0xff exactly for an input number other than RCIN1 and RCIN2 |
| Shield.GetRcin | WickedMotorShield.cpp:264-277 | getRCIN gives the measured pulse width for inputs 1 and 2 and 0xffffffff for every other number |
| Shield.RcInputPins | WickedMotorShield.cpp:279-289 | inputs 1 and 2 map to their own pins, RCIN1_PIN and RCIN2_PIN, and these differ |
| Shield.Shield.constructor | WickedMotorShield.cpp:73-118 | the static initializers: the state is the power-on state and nothing has been sent |
| Shield.Shield.Init | WickedMotorShield.cpp:148-173 | the constructor body: registers unchanged, every old_dir entry CW, one load frame appended |
| Shield.Shield.LoadShiftRegister | WickedMotorShield.cpp:181-186 | appends latch low, second register, first register, latch high to the trace, and the board then holds the two registers |
| Shield.Shield.GetShiftRegisterValue | WickedMotorShield.cpp:195-202 | the register that owns the motor: the second for M5, M6, the first otherwise |
| Shield.Shield.SetShiftRegisterValue | WickedMotorShield.cpp:209-216 | the object state becomes Registers.WithRegister of the old state |
| Shield.Shield.GetMotorDirectionM | WickedMotorShield.cpp:464-484 | equals Registers.Direction of the object state |
| Shield.Shield.GetMotorBrakeM | WickedMotorShield.cpp:493-513 | equals Registers.Brake of the object state |
| Shield.Shield.SetDirectionData | WickedMotorShield.cpp:328-372 | the imperative method moves the state exactly as Registers.SetDirectionData and sends nothing |
| Shield.Shield.SetBrakeData | WickedMotorShield.cpp:383-454 | the imperative method moves the state exactly as Registers.SetBrakeData and sends nothing |
| Stepper.NextStepNumber | WickedMotorShield.cpp:565-576 | from a step number below number_of_steps, one update stays below it |
| Stepper.NextStepInRange | WickedMotorShield.cpp:565-576 | from a step number below number_of_steps, one update moves it up or down by one, wrapping at both ends |
| Stepper.StepsUndo | WickedMotorShield.cpp:565-576 | an update up followed by one down, or down then up, returns to the start |
| Stepper.Walk | WickedMotorShield.cpp:558-581 | from a start below number_of_steps, any number of updates stays below it |
| Stepper.WalkIsModular | WickedMotorShield.cpp:558-581 | after k updates the step number is the start plus or minus k, modulo number_of_steps |
| Stepper.Coil1 | WickedMotorShield.cpp:586-604 | the first coil is only ever given DIR_CW or DIR_CCW |
| Stepper.Coil2 | WickedMotorShield.cpp:586-604 | the second coil gets the first coil's pattern one phase ahead: the two coils are in quadrature |
| Stepper.PhasesAreGrayCode | WickedMotorShield.cpp:586-604 | the four coil patterns are distinct, and neighbouring phases differ in exactly one coil |
| Stepper.PhaseAdvancesByOne | WickedMotorShield.cpp:565-580 | when number_of_steps is a multiple of 4, each update moves the phase `step_number % 4` by exactly one, across the wrap too |
| Stepper.WrapBreaksPhase | WickedMotorShield.cpp:565-580 | when number_of_steps is not a multiple of 4 the wrap breaks the phase order: with 10 steps, 9 to 0 takes the phase from 1 back to 0 |
| Stepper.StepMotorData | WickedMotorShield.cpp:586-607 | stepMotor keeps the state well formed |
| Stepper.StepMotorDrives | WickedMotorShield.cpp:586-604 | with both coils unbraked, stepMotor(p) sets them to the pattern of phase p, keeps them unbraked and leaves other motors alone |
| Stepper.DriveFollowsPhase | WickedMotorShield.cpp:558-581 | a run of steps keeps both coils unbraked, leaves other motors alone and ends on the pattern of the final step number |
| Stepper.DriveTrace | WickedMotorShield.cpp:558-581 | a run of k steps sends exactly 4k signals, one frame per step |
| Stepper.DriveTraceLatches | WickedMotorShield.cpp:558-581 | after a run of at least one step the board holds the register images of the last step, whatever was sent before |
| Stepper.StepDelay | WickedMotorShield.cpp:545-547 | step_delay is at most 60000 / number_of_steps milliseconds |
| Stepper.StepDelayBounds | WickedMotorShield.cpp:545-547 | step_delay is the largest d with d * number_of_steps * speed <= 60000 |
| Stepper.StepperStart | WickedMotorShield.cpp:538-541 | the constructor's two direction and two release commands keep the state well formed |
| Stepper.StartCoils | WickedMotorShield.cpp:538-541 | the constructor's four shield commands move the shared state exactly as StepperStart and send nothing |
| Stepper.StepperStartReleases | WickedMotorShield.cpp:538-541 | with CW saved for both coils, the constructor leaves both coils unbraked and turning CW, whether or not they started braked, and leaves other motors alone |
| Stepper.PowerOnStartSkipsDirections | WickedMotorShield.cpp:538-539 | from power-on both motors are braked, so the constructor's CW commands change nothing |
| Stepper.StepCount | WickedMotorShield.cpp:549-558 | the number of steps is below 0x8000, and zero exactly for a count of 0 or -32768 |
| Stepper.Stepper.constructor | WickedMotorShield.cpp:524-543 | fields as initialised; shield state is StepperStart of the old state with old_dir reset; two frames sent |
| Stepper.Stepper.SetSpeed | WickedMotorShield.cpp:545-547 | step_delay becomes StepDelay(number_of_steps, speed); other fields unchanged |
| Stepper.Stepper.StepMotor | WickedMotorShield.cpp:586-607 | shield state becomes StepMotorData of the old state for this phase; one frame sent |
| Stepper.Stepper.Advance | WickedMotorShield.cpp:565-580 | step_number takes one update in the current direction, the coils are driven to its phase, exactly one frame of the new registers is sent and the board then holds them |
| Stepper.Stepper.Run | WickedMotorShield.cpp:558-581 | the loop takes max(steps_left, 0) updates: step_number is Walk, the shield state is Drive, the trace gains DriveTrace, and after at least one step the board holds the final registers |
| Stepper.Stepper.Step | WickedMotorShield.cpp:549-583 | direction follows the sign of the count; after StepCount(count) updates step_number is Walk, the shield state is Drive, the trace gains exactly DriveTrace (one frame per step, carrying the registers after that step), and after at least one step the board holds the final registers |
| DcMotor.DCMotor.constructor | WickedMotorShield.cpp:610-614 | the shield constructor runs on the shared state (old_dir reset, one load) and the motor number is stored |
| DcMotor.DCMotor.SetDirection | WickedMotorShield.cpp:617-620 | the shared state moves as Registers.SetDirectionData for this motor, then the board holds the new registers |
| DcMotor.DCMotor.SetBrake | WickedMotorShield.cpp:623-626 | the shared state moves as Registers.SetBrakeData for this motor, then the board holds the new registers |
| DcMotor.DCMotor.GetMotorDirection | WickedMotorShield.cpp:628-630 | equals Registers.Direction of the shared state for this motor |

## Left out

- Arduino I/O is not modelled: `pinMode`, `digitalWrite`, `shiftOut`, `analogWrite`, `analogRead` and `pulseIn`. They are foreign calls with electrical effects. `load_shift_register` is kept as a ghost trace of latch and byte signals; the least-significant-bit-first order inside each byte is not modelled.
- The alternate pin set chosen by the constructor is not modelled. It is configuration with no logic. `Shield.GetRcInputPin` uses the standard pins 4 and 8.
- `setSpeedM`, `Wicked_DCMotor::setSpeed` and `currentSense` are left out. They are pin lookups feeding `analogWrite` and `analogRead`.
- `version()` is left out. It only returns the constant 1.
- Shield.GetRcin: the width that `pulseIn` would measure is a parameter, and the `timeout` argument is not modelled.
- Stepper.Stepper.Step: the `millis()` busy-wait and `last_step_time` are left out. Each loop pass is modelled as one whose delay has elapsed; a pass whose delay has not elapsed changes nothing.
- Stepper.Stepper.Step: `abs` is taken in a 16-bit `int`, as on the boards the library targets. `abs(-32768)` then stays negative and no step is taken, while the direction is still set to 0.
- Stepper.Stepper.SetSpeed: requires number_of_steps > 0 and speed > 0. The C++ divides by both, and a zero divisor has no defined result.
- Stepper.StepMotorDrives: the coil lemmas assume two distinct valid motors; a stepper whose two coils are the same motor is not analysed.
- Stepper.StepperStartReleases: assumes two distinct valid motors for the same reason.
- The `speed` field of `Wicked_Stepper` is kept but is only ever set to 0, as in the C++.
