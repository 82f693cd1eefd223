/** Gamepad: the controller's sample as the control loop reads it, and the
    stick-shaping helpers (deadband, sign-preserving square). */
module Gamepad {

  /** One reading of the ten digital buttons that drive the manipulators. */
  datatype Buttons = Buttons(
    a: bool, b: bool, x: bool, y: bool,
    leftBumper: bool, rightBumper: bool,
    back: bool, start: bool,
    leftStick: bool, rightStick: bool)

  /** No button pressed: the value every previous-state flag starts with. */
  const Released: Buttons := Buttons(false, false, false, false, false, false, false, false, false, false)

  /** The names of the ten buttons. */
  datatype Button = A | B | X | Y | LeftBumper | RightBumper | Back | Start | LeftStick | RightStick

  /** Whether button `k` is down in the reading `b`. */
  function Pressed(b: Buttons, k: Button): bool {
    match k
    case A => b.a
    case B => b.b
    case X => b.x
    case Y => b.y
    case LeftBumper => b.leftBumper
    case RightBumper => b.rightBumper
    case Back => b.back
    case Start => b.start
    case LeftStick => b.leftStick
    case RightStick => b.rightStick
  }

  /** The reading `b` with button `k` up and every other button as it was. */
  function Without(b: Buttons, k: Button): (r: Buttons)
    ensures !Pressed(r, k)
  {
    Buttons(b.a && k != A, b.b && k != B, b.x && k != X, b.y && k != Y,
            b.leftBumper && k != LeftBumper, b.rightBumper && k != RightBumper,
            b.back && k != Back, b.start && k != Start,
            b.leftStick && k != LeftStick, b.rightStick && k != RightStick)
  }

  /** One reading of the analog axes the drive code uses. */
  datatype Axes = Axes(leftX: real, leftY: real, rightX: real)

  const DefaultDeadband: real := 0.05

  function Abs(v: real): real {
    if v < 0.0 then -v else v
  }

  /** `applyDeadband(value, deadband)`: readings whose magnitude is below the
      deadband become 0.0; every other reading passes through unchanged. */
  function ApplyDeadband(value: real, deadband: real): (r: real)
    ensures r == 0.0 || r == value
    ensures r == 0.0 <==> Abs(value) < deadband || value == 0.0
    ensures Abs(r) < deadband ==> r == 0.0
  {
    if Abs(value) < deadband then 0.0 else value
  }

  /** `applyDeadband(value)`: the same filter with the default deadband 0.05. */
  function ApplyDefaultDeadband(value: real): (r: real)
    ensures r == 0.0 <==> Abs(value) < DefaultDeadband
    ensures r != 0.0 ==> r == value
  {
    ApplyDeadband(value, DefaultDeadband)
  }

  /** `squareInput(value)`: `Math.copySign(value * value, value)`, the square
      carrying the sign of the reading. */
  function SquareInput(value: real): (r: real)
    ensures r == Abs(value) * value
  {
    if value < 0.0 then -(value * value) else value * value
  }

  /** The magnitude of the shaped value is the square of the reading. */
  lemma SquareInputMagnitude(value: real)
    ensures Abs(SquareInput(value)) == value * value
  {
    var m := Abs(value);
    assert Abs(m * value) == m * m;
    assert m * m == value * value;
  }

  /** The shaped value has the sign of the reading and is zero only at zero. */
  lemma SquareInputSign(value: real)
    ensures SquareInput(value) < 0.0 <==> value < 0.0
    ensures SquareInput(value) == 0.0 <==> value == 0.0
  {
    var m := Abs(value);
    if value < 0.0 {
      assert m * value < 0.0 * value;
    } else if value > 0.0 {
      assert m * value > 0.0 * value;
    }
  }

  /** Inside [-1, 1] the shaped value is never larger in magnitude than the
      reading: finer control near the centre. */
  lemma SquareInputFineControl(value: real)
    requires Abs(value) <= 1.0
    ensures Abs(SquareInput(value)) <= Abs(value)
  {
    var m := Abs(value);
    assert Abs(m * value) == m * m;
    assert m * m <= 1.0 * m;
    assert Abs(SquareInput(value)) == m * m <= m;
  }

  /** Full deflection still gives full power. */
  lemma SquareInputFullPower()
    ensures SquareInput(1.0) == 1.0 && SquareInput(-1.0) == -1.0
  {
  }

  /** Squaring is odd: mirrored stick positions give mirrored outputs. */
  lemma SquareInputOdd(value: real)
    ensures SquareInput(-value) == -SquareInput(value)
  {
    assert (-value) * (-value) == value * value;
  }

  /** Squaring keeps the order of stick positions, so the shaped output never
      reverses the operator's intent. */
  lemma SquareInputMonotone(u: real, v: real)
    requires u <= v
    ensures SquareInput(u) <= SquareInput(v)
  {
    if 0.0 <= u {
      SquareInputMonotoneNonNegative(u, v);
    } else if v < 0.0 {
      SquareInputMonotoneNonNegative(-v, -u);
      SquareInputOdd(u);
      SquareInputOdd(v);
    } else {
      SquareInputSign(u);
      SquareInputSign(v);
    }
  }

  lemma SquareInputMonotoneNonNegative(u: real, v: real)
    requires 0.0 <= u <= v
    ensures SquareInput(u) <= SquareInput(v)
  {
    assert u * u <= u * v by { assert u * (v - u) >= 0.0 * (v - u); }
    assert u * v <= v * v by { assert v * (v - u) >= 0.0 * (v - u); }
  }

  /** Deadbanding twice with the same deadband is deadbanding once. */
  lemma DeadbandIdempotent(value: real, deadband: real)
    ensures ApplyDeadband(ApplyDeadband(value, deadband), deadband) == ApplyDeadband(value, deadband)
  {
  }
}
