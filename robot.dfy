/** Robot: the teleop control loop. Each cycle dispatches the rising edges of
    the ten buttons to the four manipulators, computes drive speeds, runs the
    camera schedule on a wrapping counter, and stores the buttons as the
    snapshot the next cycle compares against. */
module TeleopLoop {
  import opened Bounded
  import opened Gamepad
  import Dispatch
  import Arm
  import Gripper
  import GripperTilt
  import Extender

  const MaxDriveSpeed: real := 0.10
  const MaxRotationSpeed: real := 1.0
  /** Once the camera counter exceeds this it restarts from zero. */
  const CounterLimit: int := 10000
  /** The counter value one below the limit. */
  const LastBeforeLimit: int := CounterLimit - 1
  /** The largest Java `int`. */
  const MaxInt32: int := 0x7fff_ffff

  // ===== Camera schedule =====

  /** Java's `%`, which truncates towards zero: the remainder takes the sign
      of the dividend. */
  function JavaRem(a: int, n: int): (r: int)
    requires n > 0
    ensures a >= 0 ==> 0 <= r < n && r == a % n
    ensures a < 0 ==> -n < r <= 0
  {
    if a >= 0 then a % n else -((-a) % n)
  }

  /** Which vision jobs a cycle runs. */
  datatype CameraTasks = CameraTasks(barcode: bool, color: bool, tracking: bool)

  /** The jobs run for a counter value (the value after the increment):
      barcode when it is 0 modulo 50, colour when it is 25 modulo 50, target
      tracking when it is 5 modulo 10. Barcode and colour never share a
      cycle, every colour cycle also tracks, and a barcode cycle never
      tracks. */
  function Schedule(counter: int): (t: CameraTasks)
    ensures !(t.barcode && t.color)
    ensures t.color ==> t.tracking
    ensures t.barcode ==> !t.tracking
    ensures counter >= 0 ==> (t.barcode <==> counter % 50 == 0)
    ensures counter >= 0 ==> (t.color <==> counter % 50 == 25)
    ensures counter >= 0 ==> (t.tracking <==> counter % 10 == 5)
  {
    var r50 := JavaRem(counter, 50);
    var r10 := JavaRem(counter, 10);
    ModFiftyToTen(counter);
    CameraTasks(r50 == 0, r50 == 25, r10 == 5)
  }

  /** The remainder modulo 10 is determined by the remainder modulo 50. */
  lemma ModFiftyToTen(c: int)
    ensures c % 10 == (c % 50) % 10
  {
    var q := c / 50;
    assert c == 50 * q + c % 50;
    assert c == 10 * (5 * q) + c % 50;
  }

  /** `controlCamera`'s counter step: one more, and back to zero once it
      passes the limit. Started in [0, CounterLimit] it stays there. */
  function Tick(counter: int): (r: int)
    ensures 0 <= counter <= CounterLimit ==> 0 <= r <= CounterLimit
    ensures r == 0 <==> counter + 1 > CounterLimit || counter == -1
    ensures r != 0 ==> r == counter + 1
  {
    var next := counter + 1;
    if next > CounterLimit then 0 else next
  }

  function Ticks(counter: int, n: nat): int {
    if n == 0 then counter else Tick(Ticks(counter, n - 1))
  }

  /** From zero the counter is the number of cycles modulo 10001. */
  lemma {:induction false} CounterAfterCycles(n: nat)
    ensures Ticks(0, n) == n % (CounterLimit + 1)
  {
    if n > 0 {
      CounterAfterCycles(n - 1);
      var q := (n - 1) / (CounterLimit + 1);
      assert n - 1 == q * (CounterLimit + 1) + (n - 1) % (CounterLimit + 1);
      if (n - 1) % (CounterLimit + 1) == CounterLimit {
        assert n == (q + 1) * (CounterLimit + 1);
      } else {
        assert n == q * (CounterLimit + 1) + ((n - 1) % (CounterLimit + 1) + 1);
      }
    }
  }

  /** Within range the increment `cameraCounter++` never reaches the largest
      Java `int`, so the 32-bit counter never wraps around. */
  lemma CounterNeverOverflows(counter: int)
    requires 0 <= counter <= CounterLimit
    ensures counter + 1 < MaxInt32
  {
  }

  /** The cycle after the counter stands at the limit resets it, and from there
      the counter counts up from zero again. */
  lemma {:induction false} TicksAfterLimit(k: nat)
    requires k <= CounterLimit + 1
    ensures Ticks(CounterLimit, k) == if k == 0 then CounterLimit else k - 1
  {
    if k > 0 {
      TicksAfterLimit(k - 1);
    }
  }

  /** Barcode scans are 50 cycles apart except across the reset. A cycle
      that starts with the counter at c checks c + 1; from 9999 that cycle
      checks 10000 and scans, the next checks 10001 and resets, and the next
      scan is 51 cycles after the previous one instead of 50. */
  lemma BarcodeGapAcrossReset()
    ensures Schedule(LastBeforeLimit + 1).barcode
    ensures forall k: nat :: 1 <= k <= 50 ==> !Schedule(Ticks(LastBeforeLimit, k) + 1).barcode
    ensures Schedule(Ticks(LastBeforeLimit, 51) + 1).barcode
  {
    forall k: nat | 1 <= k <= 50
      ensures !Schedule(Ticks(LastBeforeLimit, k) + 1).barcode
    {
      if k >= 2 {
        TicksShift(k);
      }
    }
    TicksShift(51);
  }

  lemma TicksShift(k: nat)
    requires 2 <= k <= CounterLimit + 2
    ensures Ticks(LastBeforeLimit, k) == k - 2
  {
    TicksFromOffset(LastBeforeLimit, k);
    TicksAfterLimit(k - 1);
  }

  /** The first cycle, then the rest. */
  lemma {:induction false} TicksFromOffset(c: int, k: nat)
    requires k >= 1
    ensures Ticks(c, k) == Ticks(Tick(c), k - 1)
  {
    if k > 1 {
      TicksFromOffset(c, k - 1);
    }
  }

  // ===== Drive =====

  /** The speeds `controlDrivetrain` computes. */
  datatype DriveSpeeds = DriveSpeeds(forward: real, strafe: real, rotation: real)

  // ===== The whole loop as values =====

  /** Everything a teleop cycle reads or writes: the four manipulators, the
      button snapshot of the previous cycle, and the camera counter. */
  datatype RobotState = RobotState(
    arm: Servo,
    gripper: Gripper.GripperState,
    tilt: Servo,
    extender: Servo,
    prev: Buttons,
    cameraCounter: int)

  /** Every manipulator within its range and last commanded to its stored
      position, the gripper flag agreeing with its position, and the camera
      counter within [0, CounterLimit]. */
  predicate Healthy(s: RobotState) {
    && WellFormed(s.arm)
    && Gripper.Consistent(s.gripper)
    && WellFormed(s.tilt)
    && WellFormed(s.extender)
    && 0 <= s.cameraCounter <= CounterLimit
  }

  /** Two states whose manipulators are in the same place with the same
      command history. */
  predicate SameManipulators(s: RobotState, t: RobotState) {
    s.arm == t.arm && s.gripper == t.gripper && s.tilt == t.tilt && s.extender == t.extender
  }

  /** `initializeSubsystems`: four new subsystems, each as its constructor
      leaves it. The snapshot and the counter are fields of the robot itself
      and keep their values. */
  function Rebuilt(s: RobotState): (r: RobotState)
    ensures r.prev == s.prev && r.cameraCounter == s.cameraCounter
    ensures WellFormed(r.arm) && Gripper.Consistent(r.gripper) && WellFormed(r.tilt) && WellFormed(r.extender)
    ensures r.arm.position == Arm.Middle && r.gripper.servo.position == Gripper.OpenPosition
    ensures r.tilt.position == GripperTilt.TiltMiddlePosition && r.extender.position == Extender.RetractedPosition
  {
    RobotState(
      Servo(Arm.Middle, [0.0, 1.0, 0.5]),
      Gripper.GripperState(Servo(Gripper.OpenPosition, []), true),
      Servo(GripperTilt.TiltMiddlePosition, []),
      Servo(Extender.RetractedPosition, [Extender.RetractedPosition]),
      s.prev,
      s.cameraCounter)
  }

  /** `teleopInit`: rebuilt subsystems, then `setInitialPositions` sends the
      arm to the middle once more. Nothing resets the snapshot or the
      counter, so a later teleop session starts from the last reading and
      counter value of the one before. */
  function TeleopInitState(s: RobotState): (r: RobotState)
    ensures Healthy(s) ==> Healthy(r)
    ensures r.prev == s.prev && r.cameraCounter == s.cameraCounter
    ensures r.arm.position == Arm.Middle
    ensures r.arm.commands == [0.0, 1.0, 0.5, Arm.Middle]
  {
    var b := Rebuilt(s);
    b.(arm := GoTo(b.arm, Arm.Middle))
  }

  /** The state after the robot is built and teleop starts for the first
      time: every subsystem as its constructor leaves it, the arm sent to the
      middle once more, no button in the snapshot and the counter at zero. */
  function Initial(): (s: RobotState)
    ensures Healthy(s)
    ensures s.prev == Released
  {
    RobotState(
      GoTo(Servo(Arm.Middle, [0.0, 1.0, 0.5]), Arm.Middle),
      Gripper.GripperState(Servo(Gripper.OpenPosition, []), true),
      Servo(GripperTilt.TiltMiddlePosition, []),
      Servo(Extender.RetractedPosition, [Extender.RetractedPosition]),
      Released,
      0)
  }

  /** One `teleopPeriodic`: the four dispatchers compare against the old
      snapshot, the counter steps, and the buttons become the new snapshot. */
  function Cycle(s: RobotState, now: Buttons): (r: RobotState)
    ensures Healthy(s) ==> Healthy(r)
    ensures r.prev == now
    ensures s.prev == now ==> SameManipulators(r, s)
  {
    Dispatch.HeldInputFiresNothing(s.arm, s.gripper, s.tilt, s.extender, now);
    RobotState(
      Dispatch.ControlArm(s.arm, now, s.prev),
      Dispatch.ControlGripper(s.gripper, now, s.prev),
      Dispatch.ControlGripperTilt(s.tilt, now, s.prev),
      Dispatch.ControlExtender(s.extender, now, s.prev),
      now,
      Tick(s.cameraCounter))
  }

  /** The first teleop session is `teleopInit` on a robot whose snapshot is
      all released and whose counter is zero. */
  lemma InitialIsFirstTeleopInit(s: RobotState)
    requires s.prev == Released && s.cameraCounter == 0
    ensures TeleopInitState(s) == Initial()
  {
  }

  /** The cycles for a sequence of button readings, oldest first. After a
      non-empty run the snapshot is the last reading. */
  function RunCycles(s: RobotState, inputs: seq<Buttons>): (r: RobotState)
    ensures inputs == [] ==> r == s
    ensures inputs != [] ==> r.prev == inputs[|inputs| - 1]
    decreases |inputs|
  {
    if inputs == [] then s else Cycle(RunCycles(s, inputs[..|inputs| - 1]), inputs[|inputs| - 1])
  }

  /** The same reading on n consecutive cycles. */
  function Held(now: Buttons, n: nat): seq<Buttons> {
    seq(n, _ => now)
  }

  /** Any number of cycles keeps the robot healthy. */
  lemma {:induction false} RunCyclesHealthy(s: RobotState, inputs: seq<Buttons>)
    requires Healthy(s)
    ensures Healthy(RunCycles(s, inputs))
    decreases |inputs|
  {
    if inputs != [] {
      RunCyclesHealthy(s, inputs[..|inputs| - 1]);
    }
  }

  /** The counter after a run depends only on how many cycles ran. */
  lemma {:induction false} CounterAfterRun(s: RobotState, inputs: seq<Buttons>)
    ensures RunCycles(s, inputs).cameraCounter == Ticks(s.cameraCounter, |inputs|)
    decreases |inputs|
  {
    if inputs != [] {
      CounterAfterRun(s, inputs[..|inputs| - 1]);
    }
  }

  /** Holding a reading for n >= 1 cycles moves the manipulators exactly as
      much as the first of those cycles: a held button acts once. */
  lemma {:induction false} HeldInputActsOnce(s: RobotState, now: Buttons, n: nat)
    requires n >= 1
    ensures SameManipulators(RunCycles(s, Held(now, n)), Cycle(s, now))
    ensures RunCycles(s, Held(now, n)).prev == now
    decreases n
  {
    var ins := Held(now, n);
    assert ins[..n - 1] == Held(now, n - 1);
    if n == 1 {
      assert RunCycles(s, ins[..0]) == s;
    } else {
      HeldInputActsOnce(s, now, n - 1);
    }
  }

  /** The two states agree except, possibly, on button `k` of the snapshot. */
  predicate AgreeExcept(s: RobotState, t: RobotState, k: Button) {
    SameManipulators(s, t) && s.cameraCounter == t.cameraCounter && Without(s.prev, k) == Without(t.prev, k)
  }

  /** With `k` down both now and in the snapshot, `k` has no edge, and so
      letting it go in the reading, or in the snapshot, changes no edge. */
  lemma HeldButtonEdges(now: Buttons, p: Buttons, q: Buttons, k: Button)
    requires Pressed(p, k) && Pressed(now, k) && Without(p, k) == Without(q, k)
    ensures Dispatch.Edges(now, p) == Dispatch.Edges(Without(now, k), q)
  {
  }

  lemma WithoutTwice(b: Buttons, k: Button)
    ensures Without(Without(b, k), k) == Without(b, k)
  {
  }

  /** A button down in the snapshot and still down fires nothing: whatever
      the other buttons do, the cycle moves the manipulators exactly as if
      that button were up. */
  lemma HeldButtonIsIgnored(s: RobotState, now: Buttons, k: Button)
    requires Pressed(s.prev, k) && Pressed(now, k)
    ensures SameManipulators(Cycle(s, now), Cycle(s, Without(now, k)))
  {
    HeldButtonEdges(now, s.prev, s.prev, k);
    Dispatch.DispatchSeesOnlyEdges(now, s.prev, Without(now, k), s.prev, s.arm, s.gripper, s.tilt, s.extender);
  }

  /** The readings with button `k` let go from the second reading on. */
  function ReleasedAfterFirst(inputs: seq<Buttons>, k: Button): (r: seq<Buttons>)
    ensures |r| == |inputs|
    ensures inputs != [] ==> r[0] == inputs[0]
    ensures forall i :: 1 <= i < |inputs| ==> r[i] == Without(inputs[i], k)
  {
    seq(|inputs|, i requires 0 <= i < |inputs| => if i == 0 then inputs[0] else Without(inputs[i], k))
  }

  /** A button held down through a whole run acts at most once, on the first
      cycle, whatever the other buttons do meanwhile: the run moves the
      manipulators exactly as the run in which that button is let go after
      the first reading. */
  lemma {:induction false} HeldButtonActsOnce(s: RobotState, inputs: seq<Buttons>, k: Button)
    requires forall i :: 0 <= i < |inputs| ==> Pressed(inputs[i], k)
    ensures AgreeExcept(RunCycles(s, inputs), RunCycles(s, ReleasedAfterFirst(inputs, k)), k)
    decreases |inputs|
  {
    var n := |inputs|;
    var masked := ReleasedAfterFirst(inputs, k);
    if n == 1 {
      assert masked == inputs;
    } else if n > 1 {
      var front := inputs[..n - 1];
      assert masked[..n - 1] == ReleasedAfterFirst(front, k);
      HeldButtonActsOnce(s, front, k);
      var a, b := RunCycles(s, front), RunCycles(s, masked[..n - 1]);
      var now := inputs[n - 1];
      assert a.prev == front[n - 2] == inputs[n - 2];
      HeldButtonEdges(now, a.prev, b.prev, k);
      Dispatch.DispatchSeesOnlyEdges(now, a.prev, masked[n - 1], b.prev, a.arm, a.gripper, a.tilt, a.extender);
      WithoutTwice(now, k);
    }
  }

  /** A right bumper held from the initial state raises the arm by one step,
      however many cycles it is held, and sends it one command. */
  lemma HeldRightBumperRaisesArmOnce(n: nat)
    requires n >= 1
    ensures RunCycles(Initial(), Held(Released.(rightBumper := true), n)).arm.position == Arm.Middle + Arm.Increment
    ensures |RunCycles(Initial(), Held(Released.(rightBumper := true), n)).arm.commands| == |Initial().arm.commands| + 1
  {
    HeldInputActsOnce(Initial(), Released.(rightBumper := true), n);
  }

  /** Both bumpers on the same cycle: the arm first drops a step, then rises
      one. From one step up the two cancel; below that the drop saturates
      at 0.0 and the arm ends at exactly one step. */
  lemma BothBumpersAtOnce(s: RobotState, now: Buttons)
    requires Healthy(s)
    requires Dispatch.RisingEdge(now.leftBumper, s.prev.leftBumper)
    requires Dispatch.RisingEdge(now.rightBumper, s.prev.rightBumper)
    ensures Arm.Increment <= s.arm.position ==> Cycle(s, now).arm.position == s.arm.position
    ensures s.arm.position < Arm.Increment ==> Cycle(s, now).arm.position == Lowest + Arm.Increment
  {
  }

  /** A right bumper held when one teleop session ends and still held when
      the next begins does not move the arm: the new session compares
      against the old session's last reading, so the middle position the
      arm was just sent to stays. */
  lemma BumperHeldAcrossTeleopInit(s: RobotState)
    requires s.prev == Released.(rightBumper := true)
    ensures Cycle(TeleopInitState(s), s.prev).arm.position == Arm.Middle
  {
    HeldButtonIsIgnored(TeleopInitState(s), s.prev, RightBumper);
    assert Without(s.prev, RightBumper) == Released;
  }

  /** From the initial state: Start held for six cycles extends by one step
      only; then releasing it and pressing A goes to full extension. */
  lemma ExtenderScenario()
    ensures RunCycles(Initial(), Held(Released.(start := true), 6)).extender.position == Extender.Increment
    ensures RunCycles(Initial(), Held(Released.(start := true), 6) + [Released.(a := true)]).extender.position
         == Extender.ExtendedPosition
  {
    var start := Released.(start := true);
    HeldInputActsOnce(Initial(), start, 6);
    var ins := Held(start, 6) + [Released.(a := true)];
    assert ins[..|ins| - 1] == Held(start, 6);
  }

  // ===== The imperative loop =====

  class Robot {
    var arm: Arm.ArmSubsystem
    var gripper: Gripper.GripperSubsystem
    var gripperTilt: GripperTilt.GripperTiltSubsystem
    var extender: Extender.ExtenderSubsystem

    var prevLeftBumperState: bool
    var prevRightBumperState: bool
    var prevXButtonState: bool
    var prevYButtonState: bool
    var prevLeftStickButtonState: bool
    var prevRightStickButtonState: bool
    var prevBackButtonState: bool
    var prevStartButtonState: bool
    var prevAButtonState: bool
    var prevBButtonState: bool

    var cameraCounter: int

    /** The ten previous-state flags as one reading. */
    ghost function Snapshot(): Buttons
      reads this
    {
      Buttons(prevAButtonState, prevBButtonState, prevXButtonState, prevYButtonState,
              prevLeftBumperState, prevRightBumperState,
              prevBackButtonState, prevStartButtonState,
              prevLeftStickButtonState, prevRightStickButtonState)
    }

    ghost function State(): RobotState
      reads this, arm, gripper, gripperTilt, extender
    {
      RobotState(arm.State(), gripper.State(), gripperTilt.State(), extender.State(), Snapshot(), cameraCounter)
    }

    ghost predicate Valid()
      reads this, arm, gripper, gripperTilt, extender
    {
      Healthy(State())
    }

    /** The robot object followed by `teleopInit`: fresh subsystems, then
        `setInitialPositions`. */
    constructor ()
      ensures Valid()
      ensures State() == Initial()
      ensures fresh(arm) && fresh(gripper) && fresh(gripperTilt) && fresh(extender)
    {
      prevLeftBumperState := false;
      prevRightBumperState := false;
      prevXButtonState := false;
      prevYButtonState := false;
      prevLeftStickButtonState := false;
      prevRightStickButtonState := false;
      prevBackButtonState := false;
      prevStartButtonState := false;
      prevAButtonState := false;
      prevBButtonState := false;
      cameraCounter := 0;
      arm := new Arm.ArmSubsystem();
      gripper := new Gripper.GripperSubsystem();
      extender := new Extender.ExtenderSubsystem();
      gripperTilt := new GripperTilt.GripperTiltSubsystem();
      new;
      SetInitialPositions();
    }

    /** `initializeSubsystems`: four new subsystem objects; the snapshot and
        the counter keep their values. */
    method InitializeSubsystems()
      modifies this`arm, this`gripper, this`gripperTilt, this`extender
      ensures fresh(arm) && fresh(gripper) && fresh(gripperTilt) && fresh(extender)
      ensures State() == Rebuilt(old(State()))
    {
      ghost var before := State();
      var a := new Arm.ArmSubsystem();
      var g := new Gripper.GripperSubsystem();
      var e := new Extender.ExtenderSubsystem();
      var t := new GripperTilt.GripperTiltSubsystem();
      assert a.State() == Rebuilt(before).arm;
      assert g.State() == Rebuilt(before).gripper;
      assert t.State() == Rebuilt(before).tilt;
      assert e.State() == Rebuilt(before).extender;
      arm, gripper, extender, gripperTilt := a, g, e, t;
    }

    /** `teleopInit` on a robot that may have run before: new subsystems,
        then the arm to the middle. */
    method TeleopInit()
      modifies this`arm, this`gripper, this`gripperTilt, this`extender
      ensures fresh(arm) && fresh(gripper) && fresh(gripperTilt) && fresh(extender)
      ensures State() == TeleopInitState(old(State()))
      ensures old(Valid()) ==> Valid()
    {
      InitializeSubsystems();
      SetInitialPositions();
    }

    /** `autonomousInit`: new subsystems, and no initial positions. */
    method AutonomousInit()
      modifies this`arm, this`gripper, this`gripperTilt, this`extender
      ensures fresh(arm) && fresh(gripper) && fresh(gripperTilt) && fresh(extender)
      ensures State() == Rebuilt(old(State()))
    {
      InitializeSubsystems();
    }

    /** Only the arm moves: it is sent to the middle. */
    method SetInitialPositions()
      modifies arm
      ensures arm.Valid()
      ensures arm.State() == GoTo(old(arm.State()), Arm.Middle)
    {
      arm.InitializeToMiddle();
    }

    method ControlArm(now: Buttons)
      requires arm.Valid()
      modifies arm
      ensures arm.Valid()
      ensures arm.State() == Dispatch.ControlArm(old(arm.State()), now, Snapshot())
    {
      if now.leftBumper && !prevLeftBumperState {
        arm.DecreasePosition();
      }
      if now.rightBumper && !prevRightBumperState {
        arm.IncreasePosition();
      }
    }

    method ControlGripper(now: Buttons)
      requires gripper.Valid()
      modifies gripper
      ensures gripper.Valid()
      ensures gripper.State() == Dispatch.ControlGripper(old(gripper.State()), now, Snapshot())
    {
      if now.x && !prevXButtonState {
        gripper.DecreasePosition();
      }
      if now.y && !prevYButtonState {
        gripper.IncreasePosition();
      }
    }

    method ControlGripperTilt(now: Buttons)
      requires gripperTilt.Valid()
      modifies gripperTilt
      ensures gripperTilt.Valid()
      ensures gripperTilt.State() == Dispatch.ControlGripperTilt(old(gripperTilt.State()), now, Snapshot())
    {
      if now.leftStick && !prevLeftStickButtonState {
        gripperTilt.DecreasePosition();
      }
      if now.rightStick && !prevRightStickButtonState {
        gripperTilt.IncreasePosition();
      }
    }

    method ControlExtender(now: Buttons)
      requires extender.Valid()
      modifies extender
      ensures extender.Valid()
      ensures extender.State() == Dispatch.ControlExtender(old(extender.State()), now, Snapshot())
    {
      if now.start && !prevStartButtonState {
        extender.Extend();
      }
      if now.back && !prevBackButtonState {
        extender.Retract();
      }
      if now.a && !prevAButtonState {
        extender.GoToExtended();
      }
      if now.b && !prevBButtonState {
        extender.GoToRetracted();
      }
    }

    /** The left stick scaled to at most 0.10 (forward is stick Y inverted, so
        pushing the stick away gives a positive speed), the right stick X
        scaled by 1.0. The speeds are computed but the drive call is
        commented out, so nothing changes. */
    method ControlDrivetrain(axes: Axes) returns (speeds: DriveSpeeds)
      ensures Abs(axes.leftY) <= 1.0 ==> Abs(speeds.forward) <= MaxDriveSpeed
      ensures Abs(axes.leftX) <= 1.0 ==> Abs(speeds.strafe) <= MaxDriveSpeed
      ensures speeds.forward > 0.0 <==> axes.leftY < 0.0
      ensures speeds.forward < 0.0 <==> axes.leftY > 0.0
      ensures speeds.strafe > 0.0 <==> axes.leftX > 0.0
      ensures speeds.strafe < 0.0 <==> axes.leftX < 0.0
      ensures speeds.rotation == axes.rightX
      ensures speeds.forward == -axes.leftY * MaxDriveSpeed && speeds.strafe == axes.leftX * MaxDriveSpeed
    {
      var forwardSpeed := -axes.leftY * MaxDriveSpeed;
      var strafeSpeed := axes.leftX * MaxDriveSpeed;
      var rotationSpeed := axes.rightX * MaxRotationSpeed;
      speeds := DriveSpeeds(forwardSpeed, strafeSpeed, rotationSpeed);
    }

    /** Steps the counter and reports which vision jobs ran this cycle; the
        schedule looks at the counter after the increment and before the
        reset. */
    method ControlCamera() returns (tasks: CameraTasks)
      modifies this`cameraCounter
      ensures cameraCounter == Tick(old(cameraCounter))
      ensures tasks == Schedule(old(cameraCounter) + 1)
    {
      cameraCounter := cameraCounter + 1;
      tasks := Schedule(cameraCounter);
      if cameraCounter > CounterLimit {
        cameraCounter := 0;
      }
    }

    method UpdateButtonStates(now: Buttons)
      modifies this`prevLeftBumperState, this`prevRightBumperState, this`prevXButtonState,
               this`prevYButtonState, this`prevLeftStickButtonState, this`prevRightStickButtonState,
               this`prevBackButtonState, this`prevStartButtonState, this`prevAButtonState,
               this`prevBButtonState
      ensures Snapshot() == now
    {
      prevLeftBumperState := now.leftBumper;
      prevRightBumperState := now.rightBumper;
      prevXButtonState := now.x;
      prevYButtonState := now.y;
      prevLeftStickButtonState := now.leftStick;
      prevRightStickButtonState := now.rightStick;
      prevBackButtonState := now.back;
      prevStartButtonState := now.start;
      prevAButtonState := now.a;
      prevBButtonState := now.b;
    }

    /** One teleop cycle on the reading `now` and `axes`: the robot's new
        state is `Cycle` of the old one, and the vision jobs run are those
        the schedule names for the incremented counter. */
    method TeleopPeriodic(now: Buttons, axes: Axes) returns (tasks: CameraTasks)
      requires Valid()
      modifies arm, gripper, gripperTilt, extender
      modifies this`cameraCounter
      modifies this`prevLeftBumperState, this`prevRightBumperState, this`prevXButtonState,
               this`prevYButtonState, this`prevLeftStickButtonState, this`prevRightStickButtonState,
               this`prevBackButtonState, this`prevStartButtonState, this`prevAButtonState,
               this`prevBButtonState
      ensures Valid()
      ensures State() == Cycle(old(State()), now)
      ensures tasks == Schedule(old(cameraCounter) + 1)
    {
      ControlArm(now);
      ControlGripper(now);
      ControlGripperTilt(now);
      ControlExtender(now);
      var _ := ControlDrivetrain(axes);
      tasks := ControlCamera();
      UpdateButtonStates(now);
    }
  }
}
