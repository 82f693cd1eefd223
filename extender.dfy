/** ExtenderSubsystem: the servo of the linear extender, moved in steps of 0.1
    or sent to a preset. An incremental move commands the servo only when the
    clamped position actually changes. */
module Extender {
  import opened Bounded

  const RetractedPosition: real := 0.0
  const ExtendedPosition: real := 1.0
  const Increment: real := 0.1
  const MiddlePosition: real := (RetractedPosition + ExtendedPosition) / 2.0

  /** `extend()`: one step out, and nothing at all when already at the end. */
  function AfterExtend(s: Servo): (r: Servo)
    ensures WellFormed(s) ==> WellFormed(r)
    ensures r.position == Raise(s.position, Increment)
    ensures r == s <==> s.position == ExtendedPosition
    ensures r != s ==> r.commands == s.commands + [r.position]
  {
    var next := Raise(s.position, Increment);
    if next != s.position then MoveTo(s, next) else s
  }

  /** `retract()`: one step in, and nothing at all when already at the end. */
  function AfterRetract(s: Servo): (r: Servo)
    ensures WellFormed(s) ==> WellFormed(r)
    ensures r.position == Lower(s.position, Increment)
    ensures r == s <==> s.position == RetractedPosition
    ensures r != s ==> r.commands == s.commands + [r.position]
  {
    var next := Lower(s.position, Increment);
    if next != s.position then MoveTo(s, next) else s
  }

  class ExtenderSubsystem {
    var currentPosition: real
    /** Every value sent to the extender servo, oldest first. */
    ghost var commands: seq<real>

    ghost function State(): Servo
      reads this
    {
      Servo(currentPosition, commands)
    }

    ghost predicate Valid()
      reads this
    {
      WellFormed(State())
    }

    /** Starts retracted, and the servo is commanded to the retracted position. */
    constructor ()
      ensures Valid()
      ensures currentPosition == RetractedPosition && commands == [RetractedPosition]
    {
      currentPosition := RetractedPosition;
      commands := [currentPosition];
    }

    method Extend()
      requires Valid()
      modifies this
      ensures Valid()
      ensures State() == AfterExtend(old(State()))
    {
      var next := Raise(currentPosition, Increment);
      if next != currentPosition {
        currentPosition := next;
        commands := commands + [currentPosition];
      }
    }

    method Retract()
      requires Valid()
      modifies this
      ensures Valid()
      ensures State() == AfterRetract(old(State()))
    {
      var next := Lower(currentPosition, Increment);
      if next != currentPosition {
        currentPosition := next;
        commands := commands + [currentPosition];
      }
    }

    method GoToExtended()
      modifies this
      ensures Valid()
      ensures State() == GoTo(old(State()), ExtendedPosition)
    {
      currentPosition := ExtendedPosition;
      commands := commands + [currentPosition];
    }

    method GoToRetracted()
      modifies this
      ensures Valid()
      ensures State() == GoTo(old(State()), RetractedPosition)
    {
      currentPosition := RetractedPosition;
      commands := commands + [currentPosition];
    }

    /** Sends the extender to the midpoint of its range, which is 0.5. */
    method InitializeToMiddle()
      modifies this
      ensures Valid() && currentPosition == 0.5
      ensures State() == GoTo(old(State()), MiddlePosition)
    {
      currentPosition := (RetractedPosition + ExtendedPosition) / 2.0;
      commands := commands + [currentPosition];
    }

    function GetCurrentPosition(): (p: real)
      reads this
      requires Valid()
      ensures InRange(p)
      ensures p == RetractedPosition <==> IsFullyRetracted()
      ensures p == ExtendedPosition <==> IsFullyExtended()
    {
      currentPosition
    }

    /** A threshold read `position <= 0.0`; under the invariant it holds
        exactly at the retracted preset. */
    function IsFullyRetracted(): (r: bool)
      reads this
      requires Valid()
      ensures r <==> currentPosition == RetractedPosition
    {
      currentPosition <= RetractedPosition
    }

    /** A threshold read `position >= 1.0`; under the invariant it holds
        exactly at the extended preset. */
    function IsFullyExtended(): (r: bool)
      reads this
      requires Valid()
      ensures r <==> currentPosition == ExtendedPosition
    {
      currentPosition >= ExtendedPosition
    }
  }

  /** The extender's public operations, as values. */
  datatype Op = Extend | Retract | ToExtended | ToRetracted | ToMiddle

  function Apply(s: Servo, op: Op): Servo {
    match op
    case Extend => AfterExtend(s)
    case Retract => AfterRetract(s)
    case ToExtended => GoTo(s, ExtendedPosition)
    case ToRetracted => GoTo(s, RetractedPosition)
    case ToMiddle => GoTo(s, MiddlePosition)
  }

  function Run(s: Servo, ops: seq<Op>): Servo
    decreases |ops|
  {
    if ops == [] then s else Run(Apply(s, ops[0]), ops[1..])
  }

  /** Any sequence of operations keeps the extender in [0.0, 1.0] with the
      servo last sent the stored position; each operation sends at most one
      command. */
  lemma {:induction false} RunKeepsWellFormed(s: Servo, ops: seq<Op>)
    requires WellFormed(s)
    ensures WellFormed(Run(s, ops))
    ensures |Run(s, ops).commands| <= |s.commands| + |ops|
    decreases |ops|
  {
    if ops != [] {
      RunKeepsWellFormed(Apply(s, ops[0]), ops[1..]);
    }
  }

  /** Retract undoes Extend wherever Extend did not saturate. */
  lemma RetractUndoesExtend(s: Servo)
    requires InRange(s.position) && s.position + Increment <= ExtendedPosition
    ensures AfterRetract(AfterExtend(s)).position == s.position
  {
  }

  /** Extending n times from fully retracted, with n steps still inside the
      range, reaches exactly n * 0.1 and sends exactly n commands. */
  lemma {:induction false} ExtendRepeatedly(s: Servo, n: nat)
    requires s.position == RetractedPosition
    requires n as real * Increment <= ExtendedPosition
    ensures Run(s, seq(n, _ => Extend)).position == n as real * Increment
    ensures |Run(s, seq(n, _ => Extend)).commands| == |s.commands| + n
    decreases n
  {
    if n > 0 {
      var ops := seq(n, _ => Extend);
      var rest := seq(n - 1, _ => Extend);
      assert ops == rest + [Extend];
      RunAppend(s, rest, Extend);
      ExtendRepeatedly(s, n - 1);
    }
  }

  /** Running a sequence and then one more operation is running the longer sequence. */
  lemma {:induction false} RunAppend(s: Servo, ops: seq<Op>, op: Op)
    ensures Run(s, ops + [op]) == Apply(Run(s, ops), op)
    decreases |ops|
  {
    if ops == [] {
      assert ops + [op] == [op];
    } else {
      assert (ops + [op])[1..] == ops[1..] + [op];
      RunAppend(Apply(s, ops[0]), ops[1..], op);
    }
  }
}
