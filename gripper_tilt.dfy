/** GripperTiltSubsystem: the servo that tilts the gripper, with three presets
    and nudges in steps of 0.05 (a higher position tilts further down). */
module GripperTilt {
  import opened Bounded

  const TiltUpPosition: real := 0.0
  const TiltMiddlePosition: real := 0.5
  const TiltDownPosition: real := 1.0
  const Increment: real := 0.05

  class GripperTiltSubsystem {
    var currentPosition: real
    /** Every value sent to the tilt servo, oldest first. */
    ghost var commands: seq<real>

    ghost function State(): Servo
      reads this
    {
      Servo(currentPosition, commands)
    }

    ghost predicate Valid()
      reads this
    {
      WellFormed(State())
    }

    /** The position starts at the middle preset; the constructor's call of
        setToMiddle is commented out, so the servo is not commanded. */
    constructor ()
      ensures Valid()
      ensures currentPosition == TiltMiddlePosition && commands == []
    {
      currentPosition := TiltMiddlePosition;
      commands := [];
    }

    method TiltUp()
      modifies this
      ensures Valid()
      ensures State() == GoTo(old(State()), TiltUpPosition)
    {
      commands := commands + [TiltUpPosition];
      currentPosition := TiltUpPosition;
    }

    method TiltDown()
      modifies this
      ensures Valid()
      ensures State() == GoTo(old(State()), TiltDownPosition)
    {
      commands := commands + [TiltDownPosition];
      currentPosition := TiltDownPosition;
    }

    method SetToMiddle()
      modifies this
      ensures Valid()
      ensures State() == GoTo(old(State()), TiltMiddlePosition)
    {
      commands := commands + [TiltMiddlePosition];
      currentPosition := TiltMiddlePosition;
    }

    method IncreasePosition()
      requires Valid()
      modifies this
      ensures Valid()
      ensures State() == NudgeUp(old(State()), Increment)
    {
      currentPosition := Raise(currentPosition, Increment);
      commands := commands + [currentPosition];
    }

    method DecreasePosition()
      requires Valid()
      modifies this
      ensures Valid()
      ensures State() == NudgeDown(old(State()), Increment)
    {
      currentPosition := Lower(currentPosition, Increment);
      commands := commands + [currentPosition];
    }
  }

  /** The tilt's public operations, as values. */
  datatype Op = Up | Down | Middle | Increase | Decrease

  function Apply(s: Servo, op: Op): Servo {
    match op
    case Up => GoTo(s, TiltUpPosition)
    case Down => GoTo(s, TiltDownPosition)
    case Middle => GoTo(s, TiltMiddlePosition)
    case Increase => NudgeUp(s, Increment)
    case Decrease => NudgeDown(s, Increment)
  }

  function Run(s: Servo, ops: seq<Op>): Servo
    decreases |ops|
  {
    if ops == [] then s else Run(Apply(s, ops[0]), ops[1..])
  }

  /** Any sequence of operations keeps the tilt in [0.0, 1.0] with the servo
      last sent the stored position, and each operation commands the servo
      exactly once. */
  lemma {:induction false} RunKeepsWellFormed(s: Servo, ops: seq<Op>)
    requires WellFormed(s)
    ensures WellFormed(Run(s, ops))
    ensures |Run(s, ops).commands| == |s.commands| + |ops|
    decreases |ops|
  {
    if ops != [] {
      RunKeepsWellFormed(Apply(s, ops[0]), ops[1..]);
    }
  }

  /** The last preset of a sequence decides the position: whatever comes
      before it, a run ending in a preset ends exactly at that preset. */
  lemma {:induction false} RunEndingInPreset(s: Servo, ops: seq<Op>, last: Op)
    requires last.Up? || last.Down? || last.Middle?
    ensures Run(s, ops + [last]).position
         == if last.Up? then TiltUpPosition else if last.Down? then TiltDownPosition else TiltMiddlePosition
    decreases |ops|
  {
    if ops == [] {
      assert ops + [last] == [last];
    } else {
      assert (ops + [last])[1..] == ops[1..] + [last];
      RunEndingInPreset(Apply(s, ops[0]), ops[1..], last);
    }
  }
}
