/** ArmSubsystem: the servo that rotates the arm, nudged in steps of 0.05. */
module Arm {
  import opened Bounded

  const Increment: real := 0.05
  const Middle: real := 0.5

  class ArmSubsystem {
    var servoPosition: real
    /** Every value sent to the arm servo, oldest first. */
    ghost var commands: seq<real>

    ghost function State(): Servo
      reads this
    {
      Servo(servoPosition, commands)
    }

    ghost predicate Valid()
      reads this
    {
      WellFormed(State())
    }

    /** The position starts at the middle; the servo is then swept to 0.0,
        1.0 and back to 0.5, which leaves the stored position untouched. */
    constructor ()
      ensures Valid()
      ensures servoPosition == Middle && commands == [0.0, 1.0, 0.5]
    {
      servoPosition := Middle;
      commands := [0.0, 1.0, 0.5];
    }

    method InitializeToMiddle()
      modifies this
      ensures Valid()
      ensures State() == GoTo(old(State()), Middle)
    {
      servoPosition := Middle;
      commands := commands + [servoPosition];
    }

    method IncreasePosition()
      requires Valid()
      modifies this
      ensures Valid()
      ensures State() == NudgeUp(old(State()), Increment)
    {
      servoPosition := Raise(servoPosition, Increment);
      commands := commands + [servoPosition];
    }

    method DecreasePosition()
      requires Valid()
      modifies this
      ensures Valid()
      ensures State() == NudgeDown(old(State()), Increment)
    {
      servoPosition := Lower(servoPosition, Increment);
      commands := commands + [servoPosition];
    }
  }

  /** The arm's public operations, as values. */
  datatype Op = Increase | Decrease | ToMiddle

  function Apply(s: Servo, op: Op): Servo {
    match op
    case Increase => NudgeUp(s, Increment)
    case Decrease => NudgeDown(s, Increment)
    case ToMiddle => GoTo(s, Middle)
  }

  function Run(s: Servo, ops: seq<Op>): Servo
    decreases |ops|
  {
    if ops == [] then s else Run(Apply(s, ops[0]), ops[1..])
  }

  /** Any sequence of operations keeps the arm in [0.0, 1.0] with the servo
      last sent the stored position, and each operation commands the servo
      exactly once. */
  lemma {:induction false} RunKeepsWellFormed(s: Servo, ops: seq<Op>)
    requires WellFormed(s)
    ensures WellFormed(Run(s, ops))
    ensures |Run(s, ops).commands| == |s.commands| + |ops|
    decreases |ops|
  {
    if ops != [] {
      RunKeepsWellFormed(Apply(s, ops[0]), ops[1..]);
    }
  }

  /** Decrease undoes Increase wherever Increase did not saturate. */
  lemma DecreaseUndoesIncrease(s: Servo)
    requires InRange(s.position) && s.position + Increment <= Highest
    ensures NudgeDown(NudgeUp(s, Increment), Increment).position == s.position
  {
  }
}
