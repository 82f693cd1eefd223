# Teleop control core of an FRC servo robot

A Dafny model of the teleop control of a small FRC robot. Four servo-driven
manipulators make up the model: the arm, the gripper, the gripper tilt and the
linear extender. They are driven by a periodic loop that reads a gamepad.
The model covers:

- the four subsystems, as classes whose methods update the stored position
  and record every value sent to the servo (a ghost command log);
- the gamepad shaping helpers `applyDeadband` and `squareInput`;
- the rising-edge button dispatch of `Robot` and of `JoystickSubsystem`;
- the camera-job schedule driven by `Robot`'s wrapping cycle counter;
- the whole teleop cycle, both as a method on a `Robot` class and as a pure
  `Cycle` function on a `RobotState` value, with lemmas over sequences of
  cycles.

Files:

- `bounded.dfy`: clamping to [0.0, 1.0] and the servo value with its command log.
- `arm.dfy`, `gripper.dfy`, `gripper_tilt.dfy`, `extender.dfy`: one module per
  subsystem. Each has a class and the same operations as values (`Op`, `Run`),
  with lemmas over arbitrary operation sequences.
- `gamepad.dfy`: the button and axis readings, deadband and squaring.
- `dispatch.dfy`: the per-cycle dispatch of button edges to the manipulators,
  shared by both controllers.
- `robot.dfy`: the teleop loop (`TeleopLoop`): camera schedule, `RobotState`,
  `Cycle`, and the `Robot` class.
- `joystick.dfy`: `JoystickSubsystem`, whose previous-state flags are never
  written.

Positions and axes are `real`. The servo is represented by the log of the
values sent to it; `WellFormed` says the position is in [0.0, 1.0] and the
last value sent equals the stored position, once anything has been sent.

No code computes wheel kinematics or normalisation: `controlDrivetrain` only
scales the sticks, and `Robot`'s drive call is commented out (Robot.java:279).

The gripper's button comments and log messages disagree with its code.
Robot.java:208-217 call X "close" and Y "open", and the comment at
Robot.java:204 says the reverse. In the code, X calls `decreasePosition`, which
moves toward the open position 0.0 (GripperSubsystem.java:14), so X opens and
Y closes. The model follows the code: `Dispatch.ControlGripper` maps an X
edge to `AfterDecrease` and a Y edge to `AfterIncrease`.

`Robot` has two kinds of state. The subsystem objects are rebuilt by every
`teleopInit` and `autonomousInit`. The ten previous-state flags and the camera
counter belong to the robot object and survive a mode change. `Initial` is the
state at the start of the first teleop session, and `TeleopInitState` is the
state at the start of any later one.

## Model

| member | source | states |
|---|---|---|
| Bounded.Raise | src/main/java/frc/robot/subsystems/elevator/ArmSubsystem.java:55 | `min(1.0, p + step)`: never above 1.0, either 1.0 or `p + step`, never below `p` within range, and unchanged exactly at 1.0 |
| Bounded.Lower | src/main/java/frc/robot/subsystems/elevator/ArmSubsystem.java:65 | `max(0.0, p - step)`: never below 0.0, either 0.0 or `p - step`, never above `p` within range, and unchanged exactly at 0.0 |
| Arm.ArmSubsystem.constructor | src/main/java/frc/robot/subsystems/elevator/ArmSubsystem.java:12-38 | the position starts at 0.5; the sweep sends 0.0, 1.0, 0.5 to the servo and leaves the stored position at 0.5 |
| Arm.ArmSubsystem.InitializeToMiddle | src/main/java/frc/robot/subsystems/elevator/ArmSubsystem.java:44-46 | the position becomes 0.5 whatever it was, and 0.5 is sent to the servo |
| Arm.ArmSubsystem.IncreasePosition | src/main/java/frc/robot/subsystems/elevator/ArmSubsystem.java:54-56 | the position becomes `min(1.0, p + 0.05)` and that value is sent; range and servo agreement are kept |
| Arm.ArmSubsystem.DecreasePosition | src/main/java/frc/robot/subsystems/elevator/ArmSubsystem.java:64-66 | the position becomes `max(0.0, p - 0.05)` and that value is sent; range and servo agreement are kept |
| Arm.RunKeepsWellFormed | src/main/java/frc/robot/subsystems/elevator/ArmSubsystem.java:44-66 | any sequence of increase, decrease and initializeToMiddle keeps the position in [0.0, 1.0] with the servo last sent that position, one command per call |
| Arm.DecreaseUndoesIncrease | src/main/java/frc/robot/subsystems/elevator/ArmSubsystem.java:54-66 | away from the top, a decrease undoes an increase |
| Gripper.AfterOpen | src/main/java/frc/robot/subsystems/GripperSubsystem.java:76-85 | from any state: position 0.0, flag true, 0.0 sent, flag agreeing with the position |
| Gripper.AfterClose | src/main/java/frc/robot/subsystems/GripperSubsystem.java:91-100 | from any state: position 1.0, flag false, 1.0 sent, flag agreeing with the position |
| Gripper.AfterIncrease | src/main/java/frc/robot/subsystems/GripperSubsystem.java:106-111 | the position becomes `min(1.0, p + 0.1)` and that value is sent; the flag is recomputed as `position < 0.5`, so the invariant is kept; a closed gripper stays closed |
| Gripper.AfterDecrease | src/main/java/frc/robot/subsystems/GripperSubsystem.java:117-122 | the position becomes `max(0.0, p - 0.1)` and that value is sent; the flag is recomputed as `position < 0.5`, so the invariant is kept; an open gripper stays open |
| Gripper.AfterToggle | src/main/java/frc/robot/subsystems/GripperSubsystem.java:128-134 | negates the flag and lands on the matching preset, keeping the invariant |
| Gripper.GripperSubsystem.constructor | src/main/java/frc/robot/subsystems/GripperSubsystem.java:16-47 | starts at 0.0 with the flag true and sends nothing, since the calls in the constructor are commented out |
| Gripper.GripperSubsystem.OpenGripper | src/main/java/frc/robot/subsystems/GripperSubsystem.java:76-85 | the new state is AfterOpen of the old one |
| Gripper.GripperSubsystem.CloseGripper | src/main/java/frc/robot/subsystems/GripperSubsystem.java:91-100 | the new state is AfterClose of the old one |
| Gripper.GripperSubsystem.IncreasePosition | src/main/java/frc/robot/subsystems/GripperSubsystem.java:106-111 | the new state is AfterIncrease of the old one, and the invariant is kept |
| Gripper.GripperSubsystem.DecreasePosition | src/main/java/frc/robot/subsystems/GripperSubsystem.java:117-122 | the new state is AfterDecrease of the old one, and the invariant is kept |
| Gripper.GripperSubsystem.ToggleGripper | src/main/java/frc/robot/subsystems/GripperSubsystem.java:128-134 | branches on the stored flag; the new state is AfterToggle of the old one |
| Gripper.GripperSubsystem.IsOpen | src/main/java/frc/robot/subsystems/GripperSubsystem.java:155-157 | a read with no effect that returns true exactly when the position is below 0.5 |
| Gripper.RunKeepsConsistent | src/main/java/frc/robot/subsystems/GripperSubsystem.java:16-134 | after any sequence of operations the flag still equals `position < 0.5` and the position stays in [0.0, 1.0]; one command per operation |
| Gripper.ToggleTwiceAtPreset | src/main/java/frc/robot/subsystems/GripperSubsystem.java:128-134 | two toggles from a preset return to that preset and flag |
| GripperTilt.GripperTiltSubsystem.constructor | src/main/java/frc/robot/subsystems/gripper/GripperTiltSubsystem.java:22-47 | starts at 0.5 and sends nothing, since `setToMiddle` is commented out |
| GripperTilt.GripperTiltSubsystem.TiltUp | src/main/java/frc/robot/subsystems/gripper/GripperTiltSubsystem.java:75-84 | the position becomes exactly 0.0 and 0.0 is sent |
| GripperTilt.GripperTiltSubsystem.TiltDown | src/main/java/frc/robot/subsystems/gripper/GripperTiltSubsystem.java:89-98 | the position becomes exactly 1.0 and 1.0 is sent |
| GripperTilt.GripperTiltSubsystem.SetToMiddle | src/main/java/frc/robot/subsystems/gripper/GripperTiltSubsystem.java:103-112 | the position becomes exactly 0.5 and 0.5 is sent |
| GripperTilt.GripperTiltSubsystem.IncreasePosition | src/main/java/frc/robot/subsystems/gripper/GripperTiltSubsystem.java:117-122 | the position becomes `min(1.0, p + 0.05)` and that value is sent |
| GripperTilt.GripperTiltSubsystem.DecreasePosition | src/main/java/frc/robot/subsystems/gripper/GripperTiltSubsystem.java:127-132 | the position becomes `max(0.0, p - 0.05)` and that value is sent |
| GripperTilt.RunKeepsWellFormed | src/main/java/frc/robot/subsystems/gripper/GripperTiltSubsystem.java:75-132 | any sequence of operations keeps the tilt in [0.0, 1.0] with the servo last sent that position, one command per operation |
| GripperTilt.RunEndingInPreset | src/main/java/frc/robot/subsystems/gripper/GripperTiltSubsystem.java:75-112 | a sequence ending in a preset ends exactly at that preset, whatever came before it |
| Extender.AfterExtend | src/main/java/frc/robot/subsystems/elevator/ExtenderSubsystem.java:48-56 | `min(1.0, p + 0.1)`; a command is sent only when the value changes, so at 1.0 the state is untouched |
| Extender.AfterRetract | src/main/java/frc/robot/subsystems/elevator/ExtenderSubsystem.java:61-69 | `max(0.0, p - 0.1)`; a command is sent only when the value changes, so at 0.0 the state is untouched |
| Extender.ExtenderSubsystem.constructor | src/main/java/frc/robot/subsystems/elevator/ExtenderSubsystem.java:22-43 | starts at 0.0 and sends 0.0 |
| Extender.ExtenderSubsystem.Extend | src/main/java/frc/robot/subsystems/elevator/ExtenderSubsystem.java:48-56 | the new state is AfterExtend of the old one |
| Extender.ExtenderSubsystem.Retract | src/main/java/frc/robot/subsystems/elevator/ExtenderSubsystem.java:61-69 | the new state is AfterRetract of the old one |
| Extender.ExtenderSubsystem.GoToExtended | src/main/java/frc/robot/subsystems/elevator/ExtenderSubsystem.java:74-79 | the position becomes exactly 1.0 and 1.0 is sent, whatever the history |
| Extender.ExtenderSubsystem.GoToRetracted | src/main/java/frc/robot/subsystems/elevator/ExtenderSubsystem.java:84-89 | the position becomes exactly 0.0 and 0.0 is sent, whatever the history |
| Extender.ExtenderSubsystem.InitializeToMiddle | src/main/java/frc/robot/subsystems/elevator/ExtenderSubsystem.java:134-136 | the position becomes `(0.0 + 1.0) / 2`, which is 0.5 |
| Extender.ExtenderSubsystem.GetCurrentPosition | src/main/java/frc/robot/subsystems/elevator/ExtenderSubsystem.java:94-96 | returns a position in [0.0, 1.0]; it equals a preset exactly when the matching end test holds |
| Extender.ExtenderSubsystem.IsFullyRetracted | src/main/java/frc/robot/subsystems/elevator/ExtenderSubsystem.java:101-103 | the `p <= 0.0` test holds exactly at the retracted preset |
| Extender.ExtenderSubsystem.IsFullyExtended | src/main/java/frc/robot/subsystems/elevator/ExtenderSubsystem.java:108-110 | the `p >= 1.0` test holds exactly at the extended preset |
| Extender.RunKeepsWellFormed | src/main/java/frc/robot/subsystems/elevator/ExtenderSubsystem.java:48-136 | any sequence of operations keeps the extender in [0.0, 1.0] with the servo last sent that position, at most one command per operation |
| Extender.RetractUndoesExtend | src/main/java/frc/robot/subsystems/elevator/ExtenderSubsystem.java:48-69 | away from the top, a retract undoes an extend |
| Extender.ExtendRepeatedly | src/main/java/frc/robot/subsystems/elevator/ExtenderSubsystem.java:48-56 | from 0.0, n extends (while n steps fit in the range) reach n * 0.1 and send n commands |
| Gamepad.ApplyDeadband | src/main/java/frc/robot/subsystems/joystick/Gamepad.java:51-56 | returns 0.0 when `abs(v) < d` and `v` otherwise, in both directions |
| Gamepad.ApplyDefaultDeadband | src/main/java/frc/robot/subsystems/joystick/Gamepad.java:43-65 | the same filter with deadband 0.05 |
| Gamepad.DeadbandIdempotent | src/main/java/frc/robot/subsystems/joystick/Gamepad.java:51-56 | deadbanding twice with the same deadband is deadbanding once |
| Gamepad.SquareInput | src/main/java/frc/robot/subsystems/joystick/Gamepad.java:73-75 | the result is `abs(v) * v`: the square of the reading with its sign kept |
| Gamepad.SquareInputMagnitude | src/main/java/frc/robot/subsystems/joystick/Gamepad.java:73-75 | the result's magnitude is `v * v` |
| Gamepad.SquareInputSign | src/main/java/frc/robot/subsystems/joystick/Gamepad.java:73-75 | the result is negative exactly when `v` is, and zero exactly when `v` is |
| Gamepad.SquareInputOdd | src/main/java/frc/robot/subsystems/joystick/Gamepad.java:73-75 | `squareInput(-v) == -squareInput(v)` |
| Gamepad.SquareInputFineControl | src/main/java/frc/robot/subsystems/joystick/Gamepad.java:67-75 | inside [-1, 1] the magnitude never grows |
| Gamepad.SquareInputFullPower | src/main/java/frc/robot/subsystems/joystick/Gamepad.java:67-75 | `squareInput(1) == 1` and `squareInput(-1) == -1` |
| Gamepad.SquareInputMonotone | src/main/java/frc/robot/subsystems/joystick/Gamepad.java:67-75 | the order of readings is kept |
| Dispatch.RisingEdge | src/main/java/frc/robot/Robot.java:192-200 | an action fires exactly when its button is pressed now and was not pressed in the snapshot; a button already down in the snapshot never fires |
| Dispatch.ControlArm | src/main/java/frc/robot/Robot.java:187-201 | an LB edge alone is exactly one step down, an RB edge alone exactly one step up, both are a step down then a step up; one command per fired action; no edge means no change; range is kept |
| Dispatch.ControlGripper | src/main/java/frc/robot/Robot.java:203-219 | an X edge alone is exactly `decreasePosition` (toward open), a Y edge alone exactly `increasePosition`, both are X then Y; one command each; no edge means no change; the gripper invariant is kept |
| Dispatch.ControlGripperTilt | src/main/java/frc/robot/Robot.java:221-235 | a left-stick edge alone is exactly one step down, a right-stick edge alone exactly one step up, both are down then up; one command each; no edge means no change |
| Dispatch.ControlExtender | src/main/java/frc/robot/Robot.java:243-271 | Start, Back, A, B in that order: a B edge ends at 0.0 even with an A edge in the same cycle, an A edge alone ends at 1.0; without a preset edge the result is exactly extend, retract, extend-then-retract or no change, so Start alone never lowers and Back alone never raises the extender |
| Dispatch.DispatchSeesOnlyEdges | src/main/java/frc/robot/Robot.java:187-271 | two reading/snapshot pairs with the same rising edges move all four manipulators the same way |
| Dispatch.HeldInputFiresNothing | src/main/java/frc/robot/Robot.java:192-200 | a reading equal to the snapshot fires no action on any manipulator |
| TeleopLoop.Schedule | src/main/java/frc/robot/Robot.java:306-353 | barcode at 0 mod 50, colour at 25 mod 50, tracking at 5 mod 10; barcode and colour never coincide, colour cycles always track, barcode cycles never do |
| TeleopLoop.Tick | src/main/java/frc/robot/Robot.java:303-378 | one more, reset to 0 above 10000; started in [0, 10000] it stays there |
| TeleopLoop.CounterAfterCycles | src/main/java/frc/robot/Robot.java:294-378 | from 0 the counter after n cycles is `n % 10001` |
| TeleopLoop.CounterNeverOverflows | src/main/java/frc/robot/Robot.java:303-378 | any counter value in [0, 10000] is far below the largest `int`, so the increment never wraps |
| TeleopLoop.BarcodeGapAcrossReset | src/main/java/frc/robot/Robot.java:303-378 | barcode scans are 51 cycles apart across the reset, not 50 |
| TeleopLoop.Rebuilt | src/main/java/frc/robot/Robot.java:145-153 | `initializeSubsystems`: every manipulator is as its constructor leaves it (arm at 0.5 after its sweep, gripper open, tilt at 0.5, extender at 0.0), all well formed; the snapshot and the counter are kept |
| TeleopLoop.TeleopInitState | src/main/java/frc/robot/Robot.java:62-75 | the start of any teleop session: rebuilt subsystems, the arm sent to 0.5 once more; the snapshot and counter survive; every invariant is kept |
| TeleopLoop.Initial | src/main/java/frc/robot/Robot.java:145-159 | the start of the first teleop session keeps every invariant, and its snapshot is all released |
| TeleopLoop.InitialIsFirstTeleopInit | src/main/java/frc/robot/Robot.java:41-75 | teleop initialisation from the robot object's initial flags and counter is exactly Initial |
| TeleopLoop.Cycle | src/main/java/frc/robot/Robot.java:77-95 | a cycle keeps every invariant; its snapshot is the cycle's reading; a reading equal to the old snapshot moves nothing |
| TeleopLoop.RunCycles | src/main/java/frc/robot/Robot.java:77-95 | a run of teleop cycles: no readings leave the state unchanged, otherwise the snapshot is the last reading |
| TeleopLoop.RunCyclesHealthy | src/main/java/frc/robot/Robot.java:77-95 | any number of cycles keeps every invariant |
| TeleopLoop.CounterAfterRun | src/main/java/frc/robot/Robot.java:294-378 | the camera counter after a run depends only on the number of cycles |
| TeleopLoop.HeldInputActsOnce | src/main/java/frc/robot/Robot.java:187-392 | a reading held for n >= 1 cycles moves the manipulators exactly as its first cycle does |
| TeleopLoop.HeldButtonIsIgnored | src/main/java/frc/robot/Robot.java:187-392 | a button down in the snapshot and still down acts as if released, whatever the other buttons do |
| TeleopLoop.HeldButtonActsOnce | src/main/java/frc/robot/Robot.java:187-392 | a button held through a whole run acts only on the first cycle: the run moves the manipulators exactly as the run in which it is let go after the first reading, while the other buttons change freely |
| TeleopLoop.BumperHeldAcrossTeleopInit | src/main/java/frc/robot/Robot.java:62-200 | a right bumper still down from the previous session does not move the arm when the new session begins, since the snapshot survives teleopInit |
| TeleopLoop.HeldRightBumperRaisesArmOnce | src/main/java/frc/robot/Robot.java:187-392 | a right bumper held for any number of cycles from the start raises the arm one step and sends one command |
| TeleopLoop.BothBumpersAtOnce | src/main/java/frc/robot/Robot.java:187-201 | with both bumper edges in one cycle the arm returns to its position from 0.05 up; from any position below 0.05, 0.0 included, it ends at exactly 0.05 |
| TeleopLoop.ExtenderScenario | src/main/java/frc/robot/Robot.java:243-392 | Start held for six cycles extends one step; then an A press goes to 1.0 |
| TeleopLoop.Robot.constructor | src/main/java/frc/robot/Robot.java:145-159 | the robot object followed by its first teleopInit: fresh subsystems and a released snapshot; the state is Initial |
| TeleopLoop.Robot.InitializeSubsystems | src/main/java/frc/robot/Robot.java:145-153 | four fresh subsystem objects; the new state is Rebuilt of the old one |
| TeleopLoop.Robot.TeleopInit | src/main/java/frc/robot/Robot.java:62-75 | a later teleopInit: fresh subsystems, the arm to 0.5; the new state is TeleopInitState of the old one, and every invariant is kept |
| TeleopLoop.Robot.AutonomousInit | src/main/java/frc/robot/Robot.java:98-112 | fresh subsystems and no initial positions: the new state is Rebuilt of the old one |
| TeleopLoop.Robot.SetInitialPositions | src/main/java/frc/robot/Robot.java:155-159 | only the arm moves, and it goes to 0.5 |
| TeleopLoop.Robot.ControlArm | src/main/java/frc/robot/Robot.java:187-201 | the arm's new state is Dispatch.ControlArm against the stored flags |
| TeleopLoop.Robot.ControlGripper | src/main/java/frc/robot/Robot.java:203-219 | the gripper's new state is Dispatch.ControlGripper against the stored flags |
| TeleopLoop.Robot.ControlGripperTilt | src/main/java/frc/robot/Robot.java:221-235 | the tilt's new state is Dispatch.ControlGripperTilt against the stored flags |
| TeleopLoop.Robot.ControlExtender | src/main/java/frc/robot/Robot.java:243-271 | the extender's new state is Dispatch.ControlExtender against the stored flags |
| TeleopLoop.Robot.ControlDrivetrain | src/main/java/frc/robot/Robot.java:273-280 | changes nothing; forward is exactly `-leftY * 0.10` and strafe `leftX * 0.10`, so each is bounded by 0.10 with the stick's sign (inverted for forward); rotation is the right stick X |
| TeleopLoop.Robot.ControlCamera | src/main/java/frc/robot/Robot.java:294-379 | the counter steps as Tick; the jobs run are those Schedule gives for the value after the increment |
| TeleopLoop.Robot.UpdateButtonStates | src/main/java/frc/robot/Robot.java:381-392 | every flag becomes the current reading of its button |
| TeleopLoop.Robot.TeleopPeriodic | src/main/java/frc/robot/Robot.java:77-95 | the new state is Cycle of the old one: every edge check sees the old snapshot, which is rewritten last |
| Joystick.JoystickSubsystem.constructor | src/main/java/frc/robot/constants/Constants.java:26-35 | every flag starts false |
| Joystick.JoystickSubsystem.ControlArm | src/main/java/frc/robot/subsystems/joystick/JoystickSubsystem.java:52-66 | the arm's new state is Dispatch.ControlArm against the global flags |
| Joystick.JoystickSubsystem.ControlGripper | src/main/java/frc/robot/subsystems/joystick/JoystickSubsystem.java:68-84 | the gripper's new state is Dispatch.ControlGripper against the global flags |
| Joystick.JoystickSubsystem.ControlGripperTilt | src/main/java/frc/robot/subsystems/joystick/JoystickSubsystem.java:86-100 | the tilt's new state is Dispatch.ControlGripperTilt against the global flags |
| Joystick.JoystickSubsystem.ControlExtender | src/main/java/frc/robot/subsystems/joystick/JoystickSubsystem.java:108-136 | the extender's new state is Dispatch.ControlExtender against the global flags |
| Joystick.JoystickSubsystem.ControlDrivetrain | src/main/java/frc/robot/subsystems/joystick/JoystickSubsystem.java:138-144 | forward is exactly `-leftY * 0.10`, so it is bounded by 0.10 and has the opposite sign of stick Y; rotation is the right stick X at scale 1.0 |
| Joystick.HeldButtonRepeats | src/main/java/frc/robot/subsystems/joystick/JoystickSubsystem.java:57-66 | since nothing writes the flags, a right bumper held for two cycles raises the arm two steps |

## Left out

- Vision and camera: the jobs run on random or camera-derived data, so the model records only which jobs `controlCamera` runs, not what they return.
- Drivetrain hardware, the dashboard, logging and the emergency stop: these are I/O only. `getControllerInputs` and `updateSubsystems` (the `periodic` and `updateDashboard` calls) write only to the dashboard, so `TeleopPeriodic` leaves them out. The drive call of `JoystickSubsystem.controlDrivetrain` is modelled as the returned command.
- Floating point: positions and axes are exact reals. IEEE rounding of repeated 0.1 and 0.05 steps, NaN and signed zero in `Math.copySign` are not modelled.
- Servo construction failures: every constructor is modelled as succeeding. The `try`/`catch` paths that leave the servo null are not modelled, and the servo port number is not a parameter.
- Gamepad button and axis numbers: a reading is a record of named fields, not indexed by the button constants.
- `JoystickSubsystem` never assigns its subsystem fields, so in the program its methods would fail on null fields. The model takes the four subsystems as constructor parameters. Its ten flags stand for the global flags in the constants class. They start false and nothing in the program writes them.
- `Robot`'s `prevExtenderInput` is never read or written after its declaration, and the `Constants.prevExtenderInput` flag likewise; neither is modelled.
- The `testServo` helpers of the gripper and the tilt are only reached from commented-out calls and are not modelled.
- Autonomous and disabled modes: `autonomousInit` rebuilds the subsystems (modelled by `AutonomousInit`) and resets the drivetrain odometry (not modelled, drivetrain hardware). `autonomousPeriodic` only calls `updateSubsystems`, whose subsystem `periodic` calls write to the dashboard and move nothing. `disabledInit` only stops the drivetrain, which is outside the model, and `disabledPeriodic` does nothing.
- `initializeController`: the gamepad object is not modelled; readings are parameters.
- TeleopLoop.Robot.constructor: it stands for `new Robot()` followed by the first `teleopInit`. Between the two the Java subsystem fields are null, and that state is not represented. Later sessions are modelled by `TeleopInit`, and `InitialIsFirstTeleopInit` ties the two.
