/** GripperSubsystem: the gripper servo, with open/closed presets, nudges in
    steps of 0.1, and a stored flag `isGripperOpen` kept beside the position. */
module Gripper {
  import opened Bounded

  const OpenPosition: real := 0.0
  const ClosedPosition: real := 1.0
  const Increment: real := 0.1
  /** Positions below this count as open when a nudge recomputes the flag. */
  const OpenBelow: real := 0.5

  /** The servo state together with the stored open flag. */
  datatype GripperState = GripperState(servo: Servo, isOpen: bool)

  /** The invariant: position in range, servo synced, and the stored flag
      agreeing with the position. */
  predicate Consistent(g: GripperState) {
    WellFormed(g.servo) && g.isOpen == (g.servo.position < OpenBelow)
  }

  /** `openGripper()`: from any state, open and consistent. */
  function AfterOpen(g: GripperState): (r: GripperState)
    ensures Consistent(r) && r.isOpen
    ensures r.servo.position == OpenPosition
    ensures r.servo.commands == g.servo.commands + [OpenPosition]
  {
    GripperState(GoTo(g.servo, OpenPosition), true)
  }

  /** `closeGripper()`: from any state, closed and consistent. */
  function AfterClose(g: GripperState): (r: GripperState)
    ensures Consistent(r) && !r.isOpen
    ensures r.servo.position == ClosedPosition
    ensures r.servo.commands == g.servo.commands + [ClosedPosition]
  {
    GripperState(GoTo(g.servo, ClosedPosition), false)
  }

  /** `increasePosition()`: one step towards closed; the flag is recomputed. */
  function AfterIncrease(g: GripperState): (r: GripperState)
    ensures Consistent(g) ==> Consistent(r)
    ensures InRange(g.servo.position) ==> g.servo.position <= r.servo.position
    ensures r.servo.position == g.servo.position <==> g.servo.position == ClosedPosition
    ensures r.servo.position == Raise(g.servo.position, Increment)
    ensures r.servo.commands == g.servo.commands + [r.servo.position]
    ensures r.isOpen == (r.servo.position < OpenBelow)
    ensures Consistent(g) && !g.isOpen ==> !r.isOpen
  {
    var s := NudgeUp(g.servo, Increment);
    GripperState(s, s.position < OpenBelow)
  }

  /** `decreasePosition()`: one step towards open; the flag is recomputed. */
  function AfterDecrease(g: GripperState): (r: GripperState)
    ensures Consistent(g) ==> Consistent(r)
    ensures InRange(g.servo.position) ==> r.servo.position <= g.servo.position
    ensures r.servo.position == g.servo.position <==> g.servo.position == OpenPosition
    ensures r.servo.position == Lower(g.servo.position, Increment)
    ensures r.servo.commands == g.servo.commands + [r.servo.position]
    ensures r.isOpen == (r.servo.position < OpenBelow)
    ensures Consistent(g) && g.isOpen ==> r.isOpen
  {
    var s := NudgeDown(g.servo, Increment);
    GripperState(s, s.position < OpenBelow)
  }

  /** `toggleGripper()`: branches on the stored flag, closing an open gripper
      and opening a closed one. */
  function AfterToggle(g: GripperState): (r: GripperState)
    ensures Consistent(r)
    ensures r.isOpen == !g.isOpen
    ensures r.servo.position == if g.isOpen then ClosedPosition else OpenPosition
  {
    if g.isOpen then AfterClose(g) else AfterOpen(g)
  }

  class GripperSubsystem {
    var currentPosition: real
    var isGripperOpen: bool
    /** Every value sent to the gripper servo, oldest first. */
    ghost var commands: seq<real>

    ghost function State(): GripperState
      reads this
    {
      GripperState(Servo(currentPosition, commands), isGripperOpen)
    }

    ghost predicate Valid()
      reads this
    {
      Consistent(State())
    }

    /** Starts open at 0.0; the constructor's calls that would move the
        servo are commented out, so nothing is sent. */
    constructor ()
      ensures Valid()
      ensures currentPosition == OpenPosition && isGripperOpen && commands == []
    {
      isGripperOpen := true;
      currentPosition := OpenPosition;
      commands := [];
    }

    method OpenGripper()
      modifies this
      ensures Valid()
      ensures State() == AfterOpen(old(State()))
    {
      commands := commands + [OpenPosition];
      currentPosition := OpenPosition;
      isGripperOpen := true;
    }

    method CloseGripper()
      modifies this
      ensures Valid()
      ensures State() == AfterClose(old(State()))
    {
      commands := commands + [ClosedPosition];
      currentPosition := ClosedPosition;
      isGripperOpen := false;
    }

    method IncreasePosition()
      requires Valid()
      modifies this
      ensures Valid()
      ensures State() == AfterIncrease(old(State()))
    {
      currentPosition := Raise(currentPosition, Increment);
      commands := commands + [currentPosition];
      isGripperOpen := currentPosition < OpenBelow;
    }

    method DecreasePosition()
      requires Valid()
      modifies this
      ensures Valid()
      ensures State() == AfterDecrease(old(State()))
    {
      currentPosition := Lower(currentPosition, Increment);
      commands := commands + [currentPosition];
      isGripperOpen := currentPosition < OpenBelow;
    }

    method ToggleGripper()
      modifies this
      ensures Valid()
      ensures State() == AfterToggle(old(State()))
    {
      if isGripperOpen {
        CloseGripper();
      } else {
        OpenGripper();
      }
    }

    /** Returns the stored flag; under the invariant it says whether the
        position is below 0.5. */
    function IsOpen(): (r: bool)
      reads this
      requires Valid()
      ensures r <==> currentPosition < OpenBelow
    {
      isGripperOpen
    }
  }

  /** The gripper's public operations, as values. */
  datatype Op = Open | Close | Increase | Decrease | Toggle

  function Apply(g: GripperState, op: Op): GripperState {
    match op
    case Open => AfterOpen(g)
    case Close => AfterClose(g)
    case Increase => AfterIncrease(g)
    case Decrease => AfterDecrease(g)
    case Toggle => AfterToggle(g)
  }

  function Run(g: GripperState, ops: seq<Op>): GripperState
    decreases |ops|
  {
    if ops == [] then g else Run(Apply(g, ops[0]), ops[1..])
  }

  /** The redundant flag never drifts: after any sequence of operations the
      stored flag still equals `position < 0.5`, and the position stays in
      [0.0, 1.0]. */
  lemma {:induction false} RunKeepsConsistent(g: GripperState, ops: seq<Op>)
    requires Consistent(g)
    ensures Consistent(Run(g, ops))
    ensures |Run(g, ops).servo.commands| == |g.servo.commands| + |ops|
    decreases |ops|
  {
    if ops != [] {
      RunKeepsConsistent(Apply(g, ops[0]), ops[1..]);
    }
  }

  /** Two toggles return to the preset the gripper was on. */
  lemma ToggleTwiceAtPreset(g: GripperState)
    requires Consistent(g)
    requires g.servo.position == OpenPosition || g.servo.position == ClosedPosition
    ensures AfterToggle(AfterToggle(g)).servo.position == g.servo.position
    ensures AfterToggle(AfterToggle(g)).isOpen == g.isOpen
  {
  }
}
