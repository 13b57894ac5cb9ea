/**
 * The joystick routine of the "vulcan" robot: each stick's angle (in
 * milliradians, already rounded) is cut into sectors of 393 milliradians,
 * and an ordered table of sector pairs picks a tank or a mecanum command.
 *
 * The stick angles (atan), the rounding (roundf) and the averaged
 * hypotenuse (sqrt) are inputs.
 */
module VulcanMechop {
  import opened Numeric
  import opened Joystick

  /** Sticks whose four axes all stay below this magnitude stop the chassis. */
  const Threshold: int := 25

  /** The width of a sector, in milliradians: about pi/8. */
  const SectorWidth: int := 393

  /** thetaSector: the rounded milliradian angle divided by 393, truncated toward zero. */
  function ThetaSector(rounded: int): (s: int)
    ensures Abs(s) == Abs(rounded) / SectorWidth
    ensures s * rounded >= 0
  {
    Quot(rounded, SectorWidth)
  }

  /**
   * An angle in [-pi, pi] falls in a sector from -7 to 7; because the
   * quotient truncates toward zero, sector 0 spans both sides of zero and
   * mirrored angles land in mirrored sectors.
   */
  lemma SectorRange(rounded: int)
    requires -3142 <= rounded <= 3142
    ensures -7 <= ThetaSector(rounded) <= 7
    ensures ThetaSector(rounded) == 0 <==> -SectorWidth < rounded < SectorWidth
    ensures ThetaSector(-rounded) == -ThetaSector(rounded)
  {
  }

  /** Which branch of JoystickControl's table a pair of sectors selects (the dead-zone test comes first). */
  datatype Branch = TankDrive | StrafeRight | StrafeLeft | NorthEast | NorthWest | SouthEast | SouthWest | Default

  predicate AbsIn(x: int, a: int, b: int)
  {
    Abs(x) == a || Abs(x) == b
  }

  predicate In(x: int, a: int, b: int)
  {
    x == a || x == b
  }

  /** The ordered sector table of JoystickControl: the first condition that holds wins. */
  function Decide(left: int, right: int): (b: Branch)
    ensures AbsIn(left, 3, 4) && AbsIn(right, 3, 4) <==> b == TankDrive
    ensures b == StrafeRight <==> AbsIn(left, 0, 1) && AbsIn(right, 0, 1)
    ensures b == StrafeLeft <==> AbsIn(left, 6, 7) && AbsIn(right, 6, 7)
    ensures b == NorthEast <==> In(left, 1, 2) && In(right, 1, 2) && !(AbsIn(left, 0, 1) && AbsIn(right, 0, 1))
    ensures b == NorthWest <==> In(left, 5, 6) && In(right, 5, 6) && !(AbsIn(left, 6, 7) && AbsIn(right, 6, 7))
    ensures b == SouthEast <==> In(left, -1, -2) && In(right, -1, -2) && !(AbsIn(left, 0, 1) && AbsIn(right, 0, 1))
    ensures b == SouthWest <==> In(left, -5, -6) && In(right, -5, -6) && !(AbsIn(left, 6, 7) && AbsIn(right, 6, 7))
    ensures b == NorthEast ==> left == 2 || right == 2
    ensures b == NorthWest ==> left == 5 || right == 5
    ensures b == Default ==> !(In(left, 1, 2) && In(right, 1, 2)) && !(In(left, -1, -2) && In(right, -1, -2))
  {
    if AbsIn(left, 3, 4) && AbsIn(right, 3, 4) then TankDrive
    else if AbsIn(left, 0, 1) && AbsIn(right, 0, 1) then StrafeRight
    else if AbsIn(left, 7, 6) && AbsIn(right, 7, 6) then StrafeLeft
    else if In(left, 2, 1) && In(right, 2, 1) then NorthEast
    else if In(left, 5, 6) && In(right, 5, 6) then NorthWest
    else if In(left, -2, -1) && In(right, -2, -1) then SouthEast
    else if In(left, -5, -6) && In(right, -5, -6) then SouthWest
    else Default
  }

  /**
   * JoystickControl(r1, r2, l3, l4) with the two sectors and the averaged
   * hypotenuse as inputs: the dead zone stops the chassis; otherwise the
   * branch's command, with tank drive (and the default) taking the left
   * stick's y and the right stick's y.
   */
  function Control(r1: int, r2: int, l3: int, l4: int, left: int, right: int, hypo: int): (c: Command)
    ensures Abs(l3) < Threshold && Abs(l4) < Threshold && Abs(r1) < Threshold && Abs(r2) < Threshold ==> c == Command.Tank(0, 0)
  {
    if Abs(l3) < Threshold && Abs(l4) < Threshold && Abs(r1) < Threshold && Abs(r2) < Threshold then Command.Tank(0, 0)
    else
      match Decide(left, right)
      case TankDrive => Command.Tank(l3, r2)
      case StrafeRight => Mecanum(Heading(2), AJoy(l4, r1), 0)
      case StrafeLeft => Mecanum(Heading(-2), AJoy(l4, r1), 0)
      case NorthEast => Mecanum(Heading(1), hypo, 0)
      case NorthWest => Mecanum(Heading(-1), hypo, 0)
      case SouthEast => Mecanum(Heading(-3), hypo, 0)
      case SouthWest => Mecanum(Heading(3), hypo, 0)
      case Default => Command.Tank(l3, r2)
  }

  /**
   * Outside the dead zone the routine either drives tank-style on the two
   * y axes or drives a mecanum heading without rotation; strafing runs at
   * the mean magnitude of the two x axes.
   */
  lemma ControlShape(r1: int, r2: int, l3: int, l4: int, left: int, right: int, hypo: int)
    requires !(Abs(l3) < Threshold && Abs(l4) < Threshold && Abs(r1) < Threshold && Abs(r2) < Threshold)
    ensures var c := Control(r1, r2, l3, l4, left, right, hypo);
      c == Command.Tank(l3, r2) || (c.Mecanum? && c.rotation == 0)
    ensures var c := Control(r1, r2, l3, l4, left, right, hypo);
      AbsIn(left, 0, 1) && AbsIn(right, 0, 1) ==> c == Mecanum(Heading(2), AJoy(l4, r1), 0)
    ensures var c := Control(r1, r2, l3, l4, left, right, hypo);
      c.Mecanum? && (c.heading == Heading(2) || c.heading == Heading(-2)) ==> c.speed == AJoy(l4, r1)
    ensures var c := Control(r1, r2, l3, l4, left, right, hypo);
      Decide(left, right) == StrafeLeft ==> c == Mecanum(Heading(-2), AJoy(l4, r1), 0)
    ensures var c := Control(r1, r2, l3, l4, left, right, hypo);
      Decide(left, right) == Default ==> c == Command.Tank(l3, r2)
    ensures var c := Control(r1, r2, l3, l4, left, right, hypo);
      Decide(left, right) in {NorthEast, NorthWest, SouthEast, SouthWest} ==> c.Mecanum? && c.speed == hypo && c.rotation == 0
  {
  }

  /**
   * The order of the table matters: both sticks in sector 1 strafe, even
   * though sector 1 is also listed for the north-east diagonal, and both in
   * sector 6 strafe the other way rather than go north-west.
   */
  lemma FirstMatchWins()
    ensures Decide(1, 1) == StrafeRight
    ensures Decide(6, 6) == StrafeLeft
    ensures Decide(1, 2) == NorthEast
    ensures Decide(5, 6) == NorthWest
  {
  }
}
