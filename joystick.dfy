/** JoystickSubsystem: the same button dispatch as the teleop loop, packaged as
    a separate class. Its previous-state flags are the shared globals, which
    start released and which nothing in the program writes, so every cycle a
    button is held counts as a fresh press. */
module Joystick {
  import opened Bounded
  import opened Gamepad
  import Dispatch
  import Arm
  import Gripper
  import GripperTilt
  import Extender

  const MaxDriveSpeed: real := 0.10
  const MaxRotationSpeed: real := 1.0

  /** The two speeds handed to the drivetrain's `drive`. */
  datatype DriveCommand = DriveCommand(forward: real, rotation: real)

  class JoystickSubsystem {
    var arm: Arm.ArmSubsystem
    var gripper: Gripper.GripperSubsystem
    var extender: Extender.ExtenderSubsystem
    var gripperTilt: GripperTilt.GripperTiltSubsystem

    var prevLeftBumperState: bool
    var prevRightBumperState: bool
    var prevXButtonState: bool
    var prevYButtonState: bool
    var prevLeftStickButtonState: bool
    var prevRightStickButtonState: bool
    var prevBackButtonState: bool
    var prevStartButtonState: bool
    var prevAButtonState: bool
    var prevBButtonState: bool

    /** The previous-state flags as one reading. */
    ghost function Flags(): Buttons
      reads this
    {
      Buttons(prevAButtonState, prevBButtonState, prevXButtonState, prevYButtonState,
              prevLeftBumperState, prevRightBumperState,
              prevBackButtonState, prevStartButtonState,
              prevLeftStickButtonState, prevRightStickButtonState)
    }

    /** Wired to the given subsystems, with every flag at its initial
        `false`. */
    constructor (arm: Arm.ArmSubsystem, gripper: Gripper.GripperSubsystem,
                 extender: Extender.ExtenderSubsystem, gripperTilt: GripperTilt.GripperTiltSubsystem)
      ensures this.arm == arm && this.gripper == gripper
      ensures this.extender == extender && this.gripperTilt == gripperTilt
      ensures Flags() == Released
    {
      this.arm := arm;
      this.gripper := gripper;
      this.extender := extender;
      this.gripperTilt := gripperTilt;
      prevLeftBumperState := false;
      prevRightBumperState := false;
      prevXButtonState := false;
      prevYButtonState := false;
      prevLeftStickButtonState := false;
      prevRightStickButtonState := false;
      prevBackButtonState := false;
      prevStartButtonState := false;
      prevAButtonState := false;
      prevBButtonState := false;
    }

    method ControlArm(now: Buttons)
      requires arm.Valid()
      modifies arm
      ensures arm.Valid()
      ensures arm.State() == Dispatch.ControlArm(old(arm.State()), now, Flags())
    {
      if now.leftBumper && !prevLeftBumperState {
        arm.DecreasePosition();
      }
      if now.rightBumper && !prevRightBumperState {
        arm.IncreasePosition();
      }
    }

    method ControlGripper(now: Buttons)
      requires gripper.Valid()
      modifies gripper
      ensures gripper.Valid()
      ensures gripper.State() == Dispatch.ControlGripper(old(gripper.State()), now, Flags())
    {
      if now.x && !prevXButtonState {
        gripper.DecreasePosition();
      }
      if now.y && !prevYButtonState {
        gripper.IncreasePosition();
      }
    }

    method ControlGripperTilt(now: Buttons)
      requires gripperTilt.Valid()
      modifies gripperTilt
      ensures gripperTilt.Valid()
      ensures gripperTilt.State() == Dispatch.ControlGripperTilt(old(gripperTilt.State()), now, Flags())
    {
      if now.leftStick && !prevLeftStickButtonState {
        gripperTilt.DecreasePosition();
      }
      if now.rightStick && !prevRightStickButtonState {
        gripperTilt.IncreasePosition();
      }
    }

    method ControlExtender(now: Buttons)
      requires extender.Valid()
      modifies extender
      ensures extender.Valid()
      ensures extender.State() == Dispatch.ControlExtender(old(extender.State()), now, Flags())
    {
      if now.start && !prevStartButtonState {
        extender.Extend();
      }
      if now.back && !prevBackButtonState {
        extender.Retract();
      }
      if now.a && !prevAButtonState {
        extender.GoToExtended();
      }
      if now.b && !prevBButtonState {
        extender.GoToRetracted();
      }
    }

    /** The command for the drivetrain: forward is the left stick's Y
        inverted and scaled to at most 0.10, rotation the right stick's X at
        full scale. */
    method ControlDrivetrain(axes: Axes) returns (command: DriveCommand)
      ensures Abs(axes.leftY) <= 1.0 ==> Abs(command.forward) <= MaxDriveSpeed
      ensures command.forward > 0.0 <==> axes.leftY < 0.0
      ensures command.forward < 0.0 <==> axes.leftY > 0.0
      ensures command.rotation == axes.rightX
      ensures command.forward == -axes.leftY * MaxDriveSpeed
    {
      var forwardSpeed := -axes.leftY * MaxDriveSpeed;
      var rotationSpeed := axes.rightX * MaxRotationSpeed;
      command := DriveCommand(forwardSpeed, rotationSpeed);
    }
  }

  /** With the flags never leaving `Released`, a held right bumper raises the
      arm on every cycle it is held: two cycles raise it two steps, where the
      teleop loop's own snapshot would raise it once. */
  lemma HeldButtonRepeats(arm: Servo, now: Buttons)
    requires now.rightBumper && !now.leftBumper
    requires InRange(arm.position) && arm.position + 2.0 * Arm.Increment <= Highest
    ensures Dispatch.ControlArm(Dispatch.ControlArm(arm, now, Released), now, Released).position
         == arm.position + 2.0 * Arm.Increment
    ensures Dispatch.ControlArm(arm, now, now) == arm
  {
  }
}
