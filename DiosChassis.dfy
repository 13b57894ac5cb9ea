/**
 * The drive base of the "dios" robot: a four-wheel mecanum chassis.  Tank
 * commands saturate each side; mecanum commands mix two diagonal speeds with
 * a rotation and scale all four wheels together into the PWM range.
 *
 * The cosines of the heading are inputs: `cos(heading + pi/4)` and
 * `cos(heading - pi/4)` are taken as reals in [-1, 1].
 */
module DiosChassis {
  import opened Numeric

  /** The speeds sent to the four chassis motors. */
  datatype Wheels = Wheels(frontLeft: int, frontRight: int, rearLeft: int, rearRight: int)

  /**
   * ChassisSet: each side is saturated to ±127 on its own, the left value
   * goes to both left motors and the right value to both right motors.
   */
  function ChassisSet(left: int, right: int): (w: Wheels)
    ensures w.frontLeft == w.rearLeft && w.frontRight == w.rearRight
    ensures Abs(w.frontLeft) <= PwmMax && Abs(w.frontRight) <= PwmMax
    ensures Abs(left) <= PwmMax ==> w.frontLeft == left
    ensures Abs(right) <= PwmMax ==> w.frontRight == right
    ensures Abs(left) > PwmMax ==> w.frontLeft == (if left < 0 then -PwmMax else PwmMax)
    ensures Abs(right) > PwmMax ==> w.frontRight == (if right < 0 then -PwmMax else PwmMax)
  {
    var l := if Abs(left) > PwmMax then (if left < 0 then -PwmMax else PwmMax) else left;
    var r := if Abs(right) > PwmMax then (if right < 0 then -PwmMax else PwmMax) else right;
    Wheels(l, r, l, r)
  }

  /** `(int)(speed * cos)`: a diagonal speed, truncated toward zero. */
  function Diagonal(speed: int, cosine: real): (d: int)
    requires -1.0 <= cosine <= 1.0
    ensures Abs(d) <= Abs(speed)
    ensures speed == 0 ==> d == 0
  {
    var p := speed as real * cosine;
    assert -(Abs(speed) as real) <= p <= Abs(speed) as real by {
      var a := Abs(speed) as real;
      MulNonneg(a, 1.0 - cosine);
      MulNonneg(a, 1.0 + cosine);
      assert p == a * cosine || p == -(a * cosine);
    }
    Trunc(p)
  }

  /**
   * The wheel mix: the front-right and rear-left wheels run on the right
   * diagonal, the rear-right and front-left on the left one, and rotation is
   * added on the right side and subtracted on the left.
   */
  function Mix(rightDiag: int, leftDiag: int, rotation: int): (w: Wheels)
    ensures w.frontRight + w.rearLeft == 2 * rightDiag && w.frontRight - w.rearLeft == 2 * rotation
    ensures w.rearRight + w.frontLeft == 2 * leftDiag && w.rearRight - w.frontLeft == 2 * rotation
  {
    Wheels(leftDiag - rotation, rightDiag + rotation, rightDiag - rotation, leftDiag + rotation)
  }

  /**
   * The divisor of the joint scaling: start from 127 and raise it to each
   * wheel's magnitude in turn (front right, rear right, front left, rear
   * left) when that magnitude is larger.
   */
  function ScaleDivisor(w: Wheels): (m: int)
    ensures m >= PwmMax
    ensures m >= Abs(w.frontLeft) && m >= Abs(w.frontRight) && m >= Abs(w.rearLeft) && m >= Abs(w.rearRight)
    ensures m == PwmMax || m == Abs(w.frontLeft) || m == Abs(w.frontRight) || m == Abs(w.rearLeft) || m == Abs(w.rearRight)
  {
    var m0 := PwmMax;
    var m1 := if Abs(w.frontRight) > m0 then Abs(w.frontRight) else m0;
    var m2 := if Abs(w.rearRight) > m1 then Abs(w.rearRight) else m1;
    var m3 := if Abs(w.frontLeft) > m2 then Abs(w.frontLeft) else m2;
    if Abs(w.rearLeft) > m3 then Abs(w.rearLeft) else m3
  }

  /** Every wheel multiplied by `127.0 / max` and truncated toward zero. */
  function Scale(w: Wheels, max: int): Wheels
    requires max >= PwmMax
  {
    Wheels(ScaleToPwm(w.frontLeft, max), ScaleToPwm(w.frontRight, max),
           ScaleToPwm(w.rearLeft, max), ScaleToPwm(w.rearRight, max))
  }

  /** The wheel speeds before scaling: speed and rotation saturated to ±127, then mixed. */
  function Unscaled(speed: int, rotation: int, cosRight: real, cosLeft: real): Wheels
    requires -1.0 <= cosRight <= 1.0 && -1.0 <= cosLeft <= 1.0
  {
    var s := Saturate(speed, PwmMax);
    var r := Saturate(rotation, PwmMax);
    Mix(Diagonal(s, cosRight), Diagonal(s, cosLeft), r)
  }

  /**
   * ChassisSetMecanum with the two cosines of the heading as inputs: the
   * mixed wheels scaled together by `127 / max(127, |wheel|...)`.
   */
  function Mecanum(speed: int, rotation: int, cosRight: real, cosLeft: real): Wheels
    requires -1.0 <= cosRight <= 1.0 && -1.0 <= cosLeft <= 1.0
  {
    var w := Unscaled(speed, rotation, cosRight, cosLeft);
    Scale(w, ScaleDivisor(w))
  }

  /** Every wheel within the PWM range. */
  predicate InRange(w: Wheels)
  {
    Abs(w.frontLeft) <= PwmMax && Abs(w.frontRight) <= PwmMax && Abs(w.rearLeft) <= PwmMax && Abs(w.rearRight) <= PwmMax
  }

  /** A speed `after` that runs the same way as `before`, no faster. */
  predicate Slowed(before: int, after: int)
  {
    Abs(after) <= Abs(before) && (before >= 0 ==> after >= 0) && (before <= 0 ==> after <= 0)
  }

  /**
   * What the joint scaling promises: every wheel ends within ±127, keeps
   * its direction and does not speed up; a mix already within ±127 passes
   * unchanged, and otherwise the fastest wheel runs at full speed.
   */
  lemma {:induction false} ScaleBounds(u: Wheels)
    ensures InRange(Scale(u, ScaleDivisor(u)))
    ensures var w := Scale(u, ScaleDivisor(u));
      Slowed(u.frontLeft, w.frontLeft) && Slowed(u.frontRight, w.frontRight)
      && Slowed(u.rearLeft, w.rearLeft) && Slowed(u.rearRight, w.rearRight)
    ensures InRange(u) ==> Scale(u, ScaleDivisor(u)) == u
    ensures !InRange(u) ==> var w := Scale(u, ScaleDivisor(u));
      Abs(w.frontLeft) == PwmMax || Abs(w.frontRight) == PwmMax || Abs(w.rearLeft) == PwmMax || Abs(w.rearRight) == PwmMax
  {
    var m := ScaleDivisor(u);
    ScaleToPwmBounds(u.frontLeft, m);
    ScaleToPwmBounds(u.frontRight, m);
    ScaleToPwmBounds(u.rearLeft, m);
    ScaleToPwmBounds(u.rearRight, m);
  }

  /** Whatever the heading, speed and rotation, every mecanum wheel command is within ±127. */
  lemma MecanumInRange(speed: int, rotation: int, cosRight: real, cosLeft: real)
    requires -1.0 <= cosRight <= 1.0 && -1.0 <= cosLeft <= 1.0
    ensures InRange(Mecanum(speed, rotation, cosRight, cosLeft))
  {
    ScaleBounds(Unscaled(speed, rotation, cosRight, cosLeft));
  }

  /**
   * A pure translation (no rotation) is never scaled: each wheel gets its
   * diagonal speed, front right with rear left and rear right with front
   * left.
   */
  lemma TranslationUnscaled(speed: int, cosRight: real, cosLeft: real)
    requires -1.0 <= cosRight <= 1.0 && -1.0 <= cosLeft <= 1.0
    ensures var s := Saturate(speed, PwmMax);
      Mecanum(speed, 0, cosRight, cosLeft) == Wheels(Diagonal(s, cosLeft), Diagonal(s, cosRight), Diagonal(s, cosRight), Diagonal(s, cosLeft))
  {
    ScaleBounds(Unscaled(speed, 0, cosRight, cosLeft));
  }

  /** A pure rotation (speed 0) spins in place: the right wheels get the saturated rotation, the left wheels its negation. */
  lemma RotationInPlace(rotation: int, cosRight: real, cosLeft: real)
    requires -1.0 <= cosRight <= 1.0 && -1.0 <= cosLeft <= 1.0
    ensures var r := Saturate(rotation, PwmMax);
      Mecanum(0, rotation, cosRight, cosLeft) == Wheels(-r, r, -r, r)
  {
    ScaleBounds(Unscaled(0, rotation, cosRight, cosLeft));
  }
}
