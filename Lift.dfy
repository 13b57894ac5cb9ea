/**
 * The lift of the "vulcan" robot: the limit-switch interlock and speed caps
 * applied before its motors are driven, and the filtered, re-zeroed
 * potentiometer readings that tell how high each side is.
 *
 * Limit switches are booleans meaning "pressed" (the digital input reads
 * LOW); raw potentiometer values are parameters.
 */
module Lift {
  import opened Numeric
  import opened Pid

  /** What one side of the lift sends, through MotorSet, to each of its three motors. */
  datatype SideDrive = SideDrive(value: int, immediate: bool)

  /** The cap on upward speed of each side. */
  const UpCap: int := 100

  /** The floor LiftSet puts under downward speed. */
  const DownFloor: int := -90

  /**
   * LiftSetLeft / LiftSetRight (both sides run the same code on their own
   * motors): driving down onto the pressed bottom switch or up into the
   * pressed top switch sends 0 immediately; otherwise values above 100 are
   * capped at 100 and every other value passes unchanged, with the
   * caller's `immediate`.
   */
  function SideCommand(value: int, immediate: bool, bottomPressed: bool, topPressed: bool): (d: SideDrive)
    ensures (bottomPressed && value < 0) || (topPressed && value > 0) <==> d == SideDrive(0, true)  && value != 0
    ensures !((bottomPressed && value < 0) || (topPressed && value > 0)) ==>
      d.immediate == immediate && d.value == (if value > UpCap then UpCap else value)
    ensures d.value <= UpCap
    ensures value >= 0 ==> 0 <= d.value <= value
    ensures value < 0 ==> d.value == value || d.value == 0
  {
    if (bottomPressed && value < 0) || (topPressed && value > 0) then SideDrive(0, true)
    else if value > UpCap then SideDrive(UpCap, immediate)
    else SideDrive(value, immediate)
  }

  /** What LiftSet sends to the left and to the right motors. */
  datatype LiftDrive = LiftDrive(left: SideDrive, right: SideDrive)

  /**
   * LiftSet: values below -90 are raised to -90 and the result is sent to
   * both sides, so every lift motor gets a value in [-90, 100], the two
   * sides get the same value, and the switches can only stop a side.
   */
  function LiftSet(value: int, immediate: bool, bottomPressed: bool, topPressed: bool): (d: LiftDrive)
    ensures DownFloor <= d.left.value <= UpCap && DownFloor <= d.right.value <= UpCap
    ensures d.left == d.right
    ensures DownFloor <= value <= UpCap && !bottomPressed && !topPressed ==> d.left == SideDrive(value, immediate)
    ensures value < DownFloor && !bottomPressed ==> d.left == SideDrive(DownFloor, immediate)
  {
    var v := if value < DownFloor then DownFloor else value;
    LiftDrive(SideCommand(v, immediate, bottomPressed, topPressed), SideCommand(v, immediate, bottomPressed, topPressed))
  }

  /** The sum of a window of samples. */
  function Sum(s: seq<int>): int
  {
    if |s| == 0 then 0 else Sum(s[..|s| - 1]) + s[|s| - 1]
  }

  /** A window whose samples lie in [lo, hi] sums to between |s|·lo and |s|·hi. */
  lemma {:induction false} SumBounds(s: seq<int>, lo: int, hi: int)
    requires forall k :: 0 <= k < |s| ==> lo <= s[k] <= hi
    ensures |s| * lo <= Sum(s) <= |s| * hi
  {
    if |s| > 0 {
      SumBounds(s[..|s| - 1], lo, hi);
      assert (|s| - 1) * lo + lo == |s| * lo;
      assert (|s| - 1) * hi + hi == |s| * hi;
    }
  }

  /** The size of the moving-average window. */
  const Window: int := 10

  /**
   * The filtered reading is an average of the window truncated toward
   * zero: it lies within the range of the samples it averages, so ten
   * equal samples give exactly that sample.
   */
  lemma {:induction false} AverageWithinSamples(s: seq<int>, lo: int, hi: int)
    requires |s| == Window
    requires forall k :: 0 <= k < |s| ==> lo <= s[k] <= hi
    ensures lo <= Quot(Sum(s), Window) <= hi
  {
    SumBounds(s, lo, hi);
    var t := Sum(s);
    if t >= 0 {
      assert Quot(t, Window) == t / Window;
    } else {
      assert Quot(t, Window) == -((-t) / Window);
    }
  }

  /** The sample a side stores: the left potentiometer counts down (`-(raw - zero)`), the right one up (`raw - zero`). */
  function Sample(left: bool, raw: int, zero: int): (v: int)
    ensures left ==> v == zero - raw
    ensures !left ==> v == raw - zero
    ensures raw == zero ==> v == 0
  {
    if left then -(raw - zero) else raw - zero
  }

  /**
   * LiftGetCalibratedPotentiometerLeft / Right: the static state of one
   * side's filter, a window of the last ten samples and the zero point.
   */
  class Potentiometer {
    const left: bool
    var zeroValue: int
    var prevValues: array<int>

    predicate Valid()
      reads this
    {
      prevValues.Length == Window
    }

    /** The left side starts from zero point 1435, the right from -210; the window starts all zero. */
    constructor (left: bool)
      ensures Valid() && fresh(prevValues) && this.left == left
      ensures zeroValue == if left then 1435 else -210
      ensures prevValues[..] == seq(Window, _ => 0)
    {
      this.left := left;
      zeroValue := if left then 1435 else -210;
      prevValues := new int[Window](_ => 0);
    }

    /**
     * One reading: the window drops its oldest sample and takes the new
     * one, and the result is the window's sum divided by 10 truncated
     * toward zero.  When the bottom switch is pressed, the zero point is
     * re-taken from a second raw reading and the result is 0.
     */
    method Read(raw: int, rawAgain: int, bottomPressed: bool) returns (out: int)
      requires Valid()
      modifies this, prevValues
      ensures Valid() && prevValues == old(prevValues)
      ensures prevValues[..] == old(prevValues[1..]) + [Sample(left, raw, old(zeroValue))]
      ensures !bottomPressed ==> out == Quot(Sum(prevValues[..]), Window) && zeroValue == old(zeroValue)
      ensures bottomPressed ==> out == 0 && zeroValue == rawAgain
    {
      ghost var before := prevValues[..];
      for i := 0 to Window - 1
        invariant Valid() && prevValues == old(prevValues) && zeroValue == old(zeroValue)
        invariant forall m :: 0 <= m < i ==> prevValues[m] == before[m + 1]
        invariant forall m :: i <= m < Window ==> prevValues[m] == before[m]
      {
        prevValues[i] := prevValues[i + 1];
      }
      prevValues[Window - 1] := Sample(left, raw, zeroValue);
      assert forall m :: 0 <= m < Window ==> prevValues[..][m] == (before[1..] + [Sample(left, raw, zeroValue)])[m];

      var sum := 0;
      for i := 0 to Window
        invariant sum == Sum(prevValues[..i])
      {
        assert prevValues[..i + 1][..i] == prevValues[..i];
        sum := sum + prevValues[i];
      }
      assert prevValues[..Window] == prevValues[..];

      out := Trunc(sum as real / Window as real);
      TruncOfQuotient(sum, Window);

      if bottomPressed {
        zeroValue := rawAgain;
        out := 0;
      }
    }
  }

  /**
   * liftComputePotentiometerDifference: the right side's calibrated value
   * minus the left side's, each filter taking one reading.
   */
  method PotentiometerDifference(rightPot: Potentiometer, leftPot: Potentiometer,
                                 rightRaw: int, rightRawAgain: int, leftRaw: int, leftRawAgain: int, bottomPressed: bool)
    returns (difference: int)
    requires rightPot.Valid() && leftPot.Valid()
    requires rightPot != leftPot && rightPot.prevValues != leftPot.prevValues
    requires !rightPot.left && leftPot.left
    modifies rightPot, rightPot.prevValues, leftPot, leftPot.prevValues
    ensures rightPot.Valid() && leftPot.Valid()
    ensures bottomPressed ==> difference == 0
    ensures !bottomPressed ==> difference == Quot(Sum(rightPot.prevValues[..]), Window) - Quot(Sum(leftPot.prevValues[..]), Window)
    ensures rightPot.prevValues[..] == old(rightPot.prevValues[1..]) + [rightRaw - old(rightPot.zeroValue)]
    ensures leftPot.prevValues[..] == old(leftPot.prevValues[1..]) + [old(leftPot.zeroValue) - leftRaw]
    ensures !bottomPressed ==> rightPot.zeroValue == old(rightPot.zeroValue) && leftPot.zeroValue == old(leftPot.zeroValue)
    ensures bottomPressed ==> rightPot.zeroValue == rightRawAgain && leftPot.zeroValue == leftRawAgain
  {
    var r := rightPot.Read(rightRaw, rightRawAgain, bottomPressed);
    var l := leftPot.Read(leftRaw, leftRawAgain, bottomPressed);
    difference := r - l;
  }

  /** LiftSetHeight: sets the lift controller's goal and reports false, whatever happens. */
  method LiftSetHeight(controller: PIDController, value: int) returns (reached: bool)
    modifies controller
    ensures !reached
    ensures controller.Goal == value
    ensures old(controller.Goal) != value ==> controller.integral == 0 && controller.prevError == 0
    ensures old(controller.Goal) == value ==> controller.integral == old(controller.integral) && controller.prevError == old(controller.prevError)
    ensures controller.Constants() == old(controller.Constants()) && controller.prevTime == old(controller.prevTime)
  {
    controller.SetGoal(value);
    return false;
  }
}
