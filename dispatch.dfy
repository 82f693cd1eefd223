/** The button-to-manipulator dispatch that `Robot` and `JoystickSubsystem`
    both run each cycle: every action fires on the rising edge of its button
    (pressed now, not pressed in the previous-state snapshot). */
module Dispatch {
  import opened Bounded
  import opened Gamepad
  import Arm
  import Gripper
  import GripperTilt
  import Extender

  /** `pressed && !prev`: a button fires only while it is down, and never
      when it was already down in the snapshot. */
  predicate RisingEdge(pressed: bool, prev: bool): (r: bool)
    ensures r ==> pressed
    ensures prev ==> !r
    ensures pressed && !prev ==> r
  {
    pressed && !prev
  }

  /** The rising edge of every button at once. */
  function Edges(now: Buttons, prev: Buttons): Buttons {
    Buttons(RisingEdge(now.a, prev.a), RisingEdge(now.b, prev.b),
            RisingEdge(now.x, prev.x), RisingEdge(now.y, prev.y),
            RisingEdge(now.leftBumper, prev.leftBumper), RisingEdge(now.rightBumper, prev.rightBumper),
            RisingEdge(now.back, prev.back), RisingEdge(now.start, prev.start),
            RisingEdge(now.leftStick, prev.leftStick), RisingEdge(now.rightStick, prev.rightStick))
  }

  function Count(b: bool): nat {
    if b then 1 else 0
  }

  /** `controlArm`: LB lowers the arm, then RB raises it. Each action that
      fires sends exactly one servo command, and without an edge nothing
      changes. */
  function ControlArm(arm: Servo, now: Buttons, prev: Buttons): (r: Servo)
    ensures WellFormed(arm) ==> WellFormed(r)
    ensures |r.commands| == |arm.commands|
                            + Count(RisingEdge(now.leftBumper, prev.leftBumper))
                            + Count(RisingEdge(now.rightBumper, prev.rightBumper))
    ensures !RisingEdge(now.leftBumper, prev.leftBumper) && !RisingEdge(now.rightBumper, prev.rightBumper) ==> r == arm
    ensures RisingEdge(now.leftBumper, prev.leftBumper) && !RisingEdge(now.rightBumper, prev.rightBumper)
            ==> r == NudgeDown(arm, Arm.Increment)
    ensures !RisingEdge(now.leftBumper, prev.leftBumper) && RisingEdge(now.rightBumper, prev.rightBumper)
            ==> r == NudgeUp(arm, Arm.Increment)
    ensures RisingEdge(now.leftBumper, prev.leftBumper) && RisingEdge(now.rightBumper, prev.rightBumper)
            ==> r == NudgeUp(NudgeDown(arm, Arm.Increment), Arm.Increment)
  {
    var lowered := if RisingEdge(now.leftBumper, prev.leftBumper) then NudgeDown(arm, Arm.Increment) else arm;
    if RisingEdge(now.rightBumper, prev.rightBumper) then NudgeUp(lowered, Arm.Increment) else lowered
  }

  /** `controlGripper`: X decreases the gripper position, then Y increases it. */
  function ControlGripper(g: Gripper.GripperState, now: Buttons, prev: Buttons): (r: Gripper.GripperState)
    ensures Gripper.Consistent(g) ==> Gripper.Consistent(r)
    ensures |r.servo.commands| == |g.servo.commands|
                                  + Count(RisingEdge(now.x, prev.x))
                                  + Count(RisingEdge(now.y, prev.y))
    ensures !RisingEdge(now.x, prev.x) && !RisingEdge(now.y, prev.y) ==> r == g
    ensures RisingEdge(now.x, prev.x) && !RisingEdge(now.y, prev.y) ==> r == Gripper.AfterDecrease(g)
    ensures !RisingEdge(now.x, prev.x) && RisingEdge(now.y, prev.y) ==> r == Gripper.AfterIncrease(g)
    ensures RisingEdge(now.x, prev.x) && RisingEdge(now.y, prev.y)
            ==> r == Gripper.AfterIncrease(Gripper.AfterDecrease(g))
  {
    var afterX := if RisingEdge(now.x, prev.x) then Gripper.AfterDecrease(g) else g;
    if RisingEdge(now.y, prev.y) then Gripper.AfterIncrease(afterX) else afterX
  }

  /** `controlGripperTilt`: the left stick button decreases the tilt, then the
      right stick button increases it. */
  function ControlGripperTilt(tilt: Servo, now: Buttons, prev: Buttons): (r: Servo)
    ensures WellFormed(tilt) ==> WellFormed(r)
    ensures |r.commands| == |tilt.commands|
                            + Count(RisingEdge(now.leftStick, prev.leftStick))
                            + Count(RisingEdge(now.rightStick, prev.rightStick))
    ensures !RisingEdge(now.leftStick, prev.leftStick) && !RisingEdge(now.rightStick, prev.rightStick) ==> r == tilt
    ensures RisingEdge(now.leftStick, prev.leftStick) && !RisingEdge(now.rightStick, prev.rightStick)
            ==> r == NudgeDown(tilt, GripperTilt.Increment)
    ensures !RisingEdge(now.leftStick, prev.leftStick) && RisingEdge(now.rightStick, prev.rightStick)
            ==> r == NudgeUp(tilt, GripperTilt.Increment)
    ensures RisingEdge(now.leftStick, prev.leftStick) && RisingEdge(now.rightStick, prev.rightStick)
            ==> r == NudgeUp(NudgeDown(tilt, GripperTilt.Increment), GripperTilt.Increment)
  {
    var raised := if RisingEdge(now.leftStick, prev.leftStick) then NudgeDown(tilt, GripperTilt.Increment) else tilt;
    if RisingEdge(now.rightStick, prev.rightStick) then NudgeUp(raised, GripperTilt.Increment) else raised
  }

  /** `controlExtender`: Start, Back, A, B in that order. The presets come
      last, so an A or B edge decides the position whatever Start and Back
      did, and when both fire B wins. */
  function ControlExtender(e: Servo, now: Buttons, prev: Buttons): (r: Servo)
    ensures WellFormed(e) ==> WellFormed(r)
    ensures RisingEdge(now.b, prev.b) ==> r.position == Extender.RetractedPosition
    ensures RisingEdge(now.a, prev.a) && !RisingEdge(now.b, prev.b) ==> r.position == Extender.ExtendedPosition
    ensures RisingEdge(now.a, prev.a) || RisingEdge(now.b, prev.b) ==> Synced(r) && |r.commands| > |e.commands|
    ensures (!RisingEdge(now.start, prev.start) && !RisingEdge(now.back, prev.back)
             && !RisingEdge(now.a, prev.a) && !RisingEdge(now.b, prev.b)) ==> r == e
    ensures !RisingEdge(now.a, prev.a) && !RisingEdge(now.b, prev.b) ==>
              r == (if RisingEdge(now.start, prev.start) && RisingEdge(now.back, prev.back)
                    then Extender.AfterRetract(Extender.AfterExtend(e))
                    else if RisingEdge(now.start, prev.start) then Extender.AfterExtend(e)
                    else if RisingEdge(now.back, prev.back) then Extender.AfterRetract(e)
                    else e)
    ensures InRange(e.position) && !RisingEdge(now.a, prev.a) && !RisingEdge(now.b, prev.b) ==>
              (RisingEdge(now.start, prev.start) && !RisingEdge(now.back, prev.back) ==> e.position <= r.position)
              && (!RisingEdge(now.start, prev.start) && RisingEdge(now.back, prev.back) ==> r.position <= e.position)
  {
    var e1 := if RisingEdge(now.start, prev.start) then Extender.AfterExtend(e) else e;
    var e2 := if RisingEdge(now.back, prev.back) then Extender.AfterRetract(e1) else e1;
    var e3 := if RisingEdge(now.a, prev.a) then GoTo(e2, Extender.ExtendedPosition) else e2;
    if RisingEdge(now.b, prev.b) then GoTo(e3, Extender.RetractedPosition) else e3
  }

  /** The dispatch looks at the readings only through their rising edges:
      two reading/snapshot pairs with the same edges move every manipulator
      the same way. */
  lemma DispatchSeesOnlyEdges(now1: Buttons, prev1: Buttons, now2: Buttons, prev2: Buttons,
                              s: Servo, g: Gripper.GripperState, t: Servo, e: Servo)
    requires Edges(now1, prev1) == Edges(now2, prev2)
    ensures ControlArm(s, now1, prev1) == ControlArm(s, now2, prev2)
    ensures ControlGripper(g, now1, prev1) == ControlGripper(g, now2, prev2)
    ensures ControlGripperTilt(t, now1, prev1) == ControlGripperTilt(t, now2, prev2)
    ensures ControlExtender(e, now1, prev1) == ControlExtender(e, now2, prev2)
  {
    var e1, e2 := Edges(now1, prev1), Edges(now2, prev2);
    assert e1.leftBumper == e2.leftBumper && e1.rightBumper == e2.rightBumper;
    ArmSeesOnlyEdges(now1, prev1, now2, prev2, s);
    assert e1.x == e2.x && e1.y == e2.y;
    GripperSeesOnlyEdges(now1, prev1, now2, prev2, g);
    assert e1.leftStick == e2.leftStick && e1.rightStick == e2.rightStick;
    TiltSeesOnlyEdges(now1, prev1, now2, prev2, t);
    assert e1.start == e2.start && e1.back == e2.back && e1.a == e2.a && e1.b == e2.b;
    ExtenderSeesOnlyEdges(now1, prev1, now2, prev2, e);
  }

  lemma ArmSeesOnlyEdges(now1: Buttons, prev1: Buttons, now2: Buttons, prev2: Buttons, s: Servo)
    requires RisingEdge(now1.leftBumper, prev1.leftBumper) == RisingEdge(now2.leftBumper, prev2.leftBumper)
    requires RisingEdge(now1.rightBumper, prev1.rightBumper) == RisingEdge(now2.rightBumper, prev2.rightBumper)
    ensures ControlArm(s, now1, prev1) == ControlArm(s, now2, prev2)
  {
  }

  lemma GripperSeesOnlyEdges(now1: Buttons, prev1: Buttons, now2: Buttons, prev2: Buttons, g: Gripper.GripperState)
    requires RisingEdge(now1.x, prev1.x) == RisingEdge(now2.x, prev2.x)
    requires RisingEdge(now1.y, prev1.y) == RisingEdge(now2.y, prev2.y)
    ensures ControlGripper(g, now1, prev1) == ControlGripper(g, now2, prev2)
  {
  }

  lemma TiltSeesOnlyEdges(now1: Buttons, prev1: Buttons, now2: Buttons, prev2: Buttons, t: Servo)
    requires RisingEdge(now1.leftStick, prev1.leftStick) == RisingEdge(now2.leftStick, prev2.leftStick)
    requires RisingEdge(now1.rightStick, prev1.rightStick) == RisingEdge(now2.rightStick, prev2.rightStick)
    ensures ControlGripperTilt(t, now1, prev1) == ControlGripperTilt(t, now2, prev2)
  {
  }

  lemma ExtenderSeesOnlyEdges(now1: Buttons, prev1: Buttons, now2: Buttons, prev2: Buttons, e: Servo)
    requires RisingEdge(now1.start, prev1.start) == RisingEdge(now2.start, prev2.start)
    requires RisingEdge(now1.back, prev1.back) == RisingEdge(now2.back, prev2.back)
    requires RisingEdge(now1.a, prev1.a) == RisingEdge(now2.a, prev2.a)
    requires RisingEdge(now1.b, prev1.b) == RisingEdge(now2.b, prev2.b)
    ensures ControlExtender(e, now1, prev1) == ControlExtender(e, now2, prev2)
  {
  }

  /** A button whose reading equals the snapshot has no edge, so an input
      that equals the snapshot fires nothing at all. */
  lemma HeldInputFiresNothing(s: Servo, g: Gripper.GripperState, t: Servo, e: Servo, now: Buttons)
    ensures ControlArm(s, now, now) == s
    ensures ControlGripper(g, now, now) == g
    ensures ControlGripperTilt(t, now, now) == t
    ensures ControlExtender(e, now, now) == e
  {
  }
}
