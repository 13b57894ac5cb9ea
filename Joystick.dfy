/**
 * What both robots' joystick routines have in common: the drive command a
 * routine issues, and the average stick magnitude `aJoy` that both mechop
 * files define in the same way.
 */
module Joystick {
  import opened Numeric

  /** The heading passed to ChassisSetMecanum, as a multiple of pi/4. */
  datatype Heading = Heading(quarters: int)

  /** A drive command: ChassisSet with a left and a right speed, or ChassisSetMecanum with heading, speed and rotation. */
  datatype Command = Tank(left: int, right: int) | Mecanum(heading: Heading, speed: int, rotation: int)

  /** aJoy: the mean of two axis magnitudes, truncated (both are non-negative, so C's `/` agrees with Dafny's). */
  function AJoy(val1: int, val2: int): (a: int)
    ensures 0 <= a
    ensures Abs(val1) + Abs(val2) - 1 <= 2 * a <= Abs(val1) + Abs(val2)
    ensures a <= Max(Abs(val1), Abs(val2))
  {
    (Abs(val1) + Abs(val2)) / 2
  }
}
