/**
 * The joystick routine of the "dios" robot: each stick's angle (in
 * hundredths of a degree, already rounded) is bucketed into a compass
 * sector, and an ordered table of sector pairs picks a tank or a mecanum
 * command.
 *
 * The stick angles (atan), the rounding (roundf) and the averaged
 * hypotenuse (sqrt) are inputs.
 */
module DiosMechop {
  import opened Numeric
  import opened Joystick

  /** STRAFE_CONST: the divisor of the strafing correction. */
  const StrafeConst: int := 254

  /**
   * thetaSector on the rounded angle `ltheta` (degrees times 100): the
   * if-chain of buckets 0, -45, -90, -135, 180, 45, 90, 135, else -1.
   */
  function ThetaSector(ltheta: int): (s: int)
  {
    if -2250 <= ltheta <= 2250 then 0
    else if -6750 <= ltheta < -2250 then -45
    else if -11250 <= ltheta < -6750 then -90
    else if -15750 <= ltheta < -11250 then -135
    else if (-180 <= ltheta < -15750) || (15750 < ltheta <= 180) then 180
    else if 2250 < ltheta <= 6750 then 45
    else if 6750 < ltheta <= 11250 then 90
    else if 11250 < ltheta <= 15750 then 135
    else -1
  }

  /**
   * The 180 bucket compares hundredths of a degree with 180, so both its
   * ranges are empty: 180 is never returned, every angle beyond ±157.50
   * degrees is an error (-1), and the sectors are otherwise mirror images.
   */
  lemma {:induction false} SectorValues(ltheta: int)
    ensures ThetaSector(ltheta) in {0, 45, 90, 135, -45, -90, -135, -1}
    ensures ThetaSector(ltheta) != 180
    ensures ThetaSector(ltheta) == -1 <==> ltheta < -15750 || 15750 < ltheta
    ensures -15750 <= ltheta <= 15750 ==> ThetaSector(-ltheta) == -ThetaSector(ltheta)
    ensures -15750 <= ltheta <= 15750 ==> Abs(ltheta - 100 * ThetaSector(ltheta)) <= 2250
  {
    if -180 <= ltheta < -15750 || 15750 < ltheta <= 180 {
      assert false;
    }
  }

  /**
   * Which branch of JoystickControl's table a pair of sectors selects
   * (heading 0 is forward and pi/2 strafes left).
   */
  datatype Branch =
    | Forward | Backward | StrafeRightward | StrafeLeftward | SpinRight | SpinLeft
    | NorthEast | NorthWest | SouthEast | SouthWest | StrafeRightTank | StrafeLeftTank | Stop

  /** The ordered sector table of JoystickControl: the first condition that holds wins. */
  function Decide(theta1: int, theta2: int): (b: Branch)
    ensures theta1 == theta2 == 90 <==> b == Forward
    ensures theta1 == theta2 == -90 <==> b == Backward
    ensures theta1 == theta2 == 0 <==> b == StrafeRightward
  {
    if theta1 == 90 && theta2 == 90 then Forward
    else if theta1 == -90 && theta2 == -90 then Backward
    else if theta1 == 0 && theta2 == 0 then StrafeRightward
    else if theta1 == 180 && theta2 == 180 then StrafeLeftward
    else if theta1 == 90 && theta2 == -90 then SpinRight
    else if theta1 == -90 && theta2 == 90 then SpinLeft
    else if theta1 == 45 && theta2 == 45 then NorthEast
    else if theta1 == 135 && theta2 == 135 then NorthWest
    else if theta1 == -45 && theta2 == -45 then SouthEast
    else if theta1 == -135 && theta2 == -135 then SouthWest
    else if (theta1 == 90 || theta1 == -90) && theta2 == 0 then StrafeRightTank
    else if theta1 == 180 && (theta2 == 90 || theta2 == -90) then StrafeLeftTank
    else Stop
  }

  /**
   * The strafing correction `(int)(v * (1.0 - abs(w / 254.0)))`: `abs` is
   * the integer one, so `w / 254.0` is first truncated toward zero.
   */
  function Corrected(v: int, w: int): (r: int)
    ensures Abs(w) < StrafeConst ==> r == v
    ensures StrafeConst <= Abs(w) < 2 * StrafeConst ==> r == 0
  {
    var factor := 1 - Abs(Trunc(w as real / StrafeConst as real));
    TruncOfQuotient(w, StrafeConst);
    v * factor
  }

  /**
   * JoystickControl with the two sectors and the averaged hypotenuse as
   * inputs: each branch's command, the speed of the straight branches being
   * aJoy of the two x axes.
   */
  function Control(l3: int, l4: int, r1: int, r2: int, theta1: int, theta2: int, hypo: int): (c: Command)
  {
    var a := AJoy(r1, l4);
    match Decide(theta1, theta2)
    case Forward => Tank(a, a)
    case Backward => Tank(-a, -a)
    case StrafeRightward => Mecanum(Heading(-2), AJoy(l4, r1), 0)
    case StrafeLeftward => Mecanum(Heading(2), AJoy(l4, r1), 0)
    case SpinRight => Tank(a, -a)
    case SpinLeft => Tank(-a, a)
    case NorthEast => Mecanum(Heading(-1), hypo, 0)
    case NorthWest => Mecanum(Heading(1), hypo, 0)
    case SouthEast => Mecanum(Heading(-3), hypo, 0)
    case SouthWest => Mecanum(Heading(3), hypo, 0)
    case StrafeRightTank => Tank(l3, Corrected(l3, r1))
    case StrafeLeftTank => Tank(Corrected(r2, l4), r2)
    case Stop => Tank(0, 0)
  }

  /**
   * The straight and spinning branches: both sticks up drive forward at
   * aJoy(r1, l4), both down drive back at that speed, and opposite sticks
   * spin in place at it; unmatched sector pairs stop the chassis.
   */
  lemma {:induction false} StraightAndSpin(l3: int, l4: int, r1: int, r2: int, theta1: int, theta2: int, hypo: int)
    ensures var a, c := AJoy(r1, l4), Control(l3, l4, r1, r2, theta1, theta2, hypo);
      && (theta1 == 90 && theta2 == 90 ==> c == Tank(a, a))
      && (theta1 == -90 && theta2 == -90 ==> c == Tank(-a, -a))
      && (theta1 == 90 && theta2 == -90 ==> c == Tank(a, -a))
      && (theta1 == -90 && theta2 == 90 ==> c == Tank(-a, a))
      && (Decide(theta1, theta2) == Stop ==> c == Tank(0, 0))
  {
  }

  /**
   * With the sectors that thetaSector can produce, the branches that test
   * for sector 180 are dead: the chassis never strafes left by mecanum and
   * never takes the strafe-left tank branch.
   */
  lemma DeadBranches(ltheta1: int, ltheta2: int)
    ensures Decide(ThetaSector(ltheta1), ThetaSector(ltheta2)) != StrafeLeftward
    ensures Decide(ThetaSector(ltheta1), ThetaSector(ltheta2)) != StrafeLeftTank
  {
    SectorValues(ltheta1);
    SectorValues(ltheta2);
  }

  /**
   * For joystick values (magnitude at most 127) the strafe-right correction
   * vanishes: the right side gets the same speed as the left.
   */
  lemma StrafeRightUncorrected(l3: int, l4: int, r1: int, r2: int, hypo: int)
    requires Abs(r1) <= PwmMax
    ensures Control(l3, l4, r1, r2, 90, 0, hypo) == Tank(l3, l3)
    ensures Control(l3, l4, r1, r2, -90, 0, hypo) == Tank(l3, l3)
  {
  }
}
