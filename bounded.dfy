/** The position model shared by the four servo-driven manipulators (arm,
    gripper, gripper tilt, extender): a target position clamped to the servo's
    range [0.0, 1.0], together with the log of every value sent to the servo.
    Positions are exact reals; the source's doubles and their rounding are not
    modelled. */
module Bounded {

  /** Both ends of the servo range. */
  const Lowest: real := 0.0
  const Highest: real := 1.0

  predicate InRange(p: real) {
    Lowest <= p <= Highest
  }

  /** `Math.min(1.0, p + step)`: one step up, saturating at the top. */
  function Raise(p: real, step: real): (r: real)
    requires step > 0.0
    ensures r <= Highest && r <= p + step
    ensures r == Highest || r == p + step
    ensures InRange(p) ==> InRange(r) && p <= r
    ensures r == p <==> p == Highest
  {
    if Highest <= p + step then Highest else p + step
  }

  /** `Math.max(0.0, p - step)`: one step down, saturating at the bottom. */
  function Lower(p: real, step: real): (r: real)
    requires step > 0.0
    ensures r >= Lowest && r >= p - step
    ensures r == Lowest || r == p - step
    ensures InRange(p) ==> InRange(r) && r <= p
    ensures r == p <==> p == Lowest
  {
    if Lowest >= p - step then Lowest else p - step
  }

  /** An actuator as the control loop sees it: the stored target position and
      the values sent to its servo so far, oldest first. */
  datatype Servo = Servo(position: real, commands: seq<real>)

  /** The servo was last sent the stored position (or has not been sent anything). */
  predicate Synced(s: Servo) {
    s.commands == [] || s.commands[|s.commands| - 1] == s.position
  }

  /** The invariant every actuator keeps. */
  predicate WellFormed(s: Servo) {
    InRange(s.position) && Synced(s)
  }

  /** Store a position and send it to the servo (`position = p; servo.set(p)`). */
  function MoveTo(s: Servo, p: real): Servo {
    Servo(p, s.commands + [p])
  }

  /** An incremental move up: clamp, store, and always command the servo. */
  function NudgeUp(s: Servo, step: real): (r: Servo)
    requires step > 0.0
    ensures WellFormed(s) ==> WellFormed(r)
    ensures InRange(s.position) ==> s.position <= r.position
    ensures r.position == s.position <==> s.position == Highest
    ensures r.position == Raise(s.position, step)
    ensures r.commands == s.commands + [r.position]
  {
    MoveTo(s, Raise(s.position, step))
  }

  /** An incremental move down: clamp, store, and always command the servo. */
  function NudgeDown(s: Servo, step: real): (r: Servo)
    requires step > 0.0
    ensures WellFormed(s) ==> WellFormed(r)
    ensures InRange(s.position) ==> r.position <= s.position
    ensures r.position == s.position <==> s.position == Lowest
    ensures r.position == Lower(s.position, step)
    ensures r.commands == s.commands + [r.position]
  {
    MoveTo(s, Lower(s.position, step))
  }

  /** A preset: store a fixed in-range position and command the servo. The
      result is well formed whatever the previous state was. */
  function GoTo(s: Servo, target: real): (r: Servo)
    requires InRange(target)
    ensures WellFormed(r)
    ensures r.position == target
    ensures r.commands == s.commands + [target]
  {
    MoveTo(s, target)
  }
}
