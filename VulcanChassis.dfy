/**
 * The drive base of the "vulcan" robot: two motors per side, a line
 * follower per side, and two PID controllers (one per side) that drive to
 * encoder goals.
 *
 * Sensor values (IR line followers, encoders, PID sensor readings) are
 * parameters; motor commands are results.
 */
module VulcanChassis {
  import opened Numeric
  import opened Pid

  /** The colour of the field tile a line is on; each has its own IR threshold. */
  datatype Tile = Red | Blue | Grey

  datatype Side = Left | Right

  /** What a side sends to its front and its rear motor. */
  datatype SideMotors = SideMotors(front: int, rear: int)

  /**
   * ChassisSetLeft / ChassisSetRight: the speed is saturated to ±127 and the
   * same value sent to the side's front and rear motors.
   */
  function ChassisSetSide(speed: int): (m: SideMotors)
    ensures m.front == m.rear
    ensures Abs(m.front) <= PwmMax
    ensures Abs(speed) <= PwmMax ==> m.front == speed
    ensures speed > PwmMax ==> m.front == PwmMax
    ensures speed < -PwmMax ==> m.front == -PwmMax
  {
    var s := if Abs(speed) > PwmMax then (if speed < 0 then -PwmMax else PwmMax) else speed;
    SideMotors(s, s)
  }

  /** The speeds ChassisSet sends to the four motors. */
  datatype ChassisMotors = ChassisMotors(frontLeft: int, frontRight: int, rearLeft: int, rearRight: int)

  /**
   * ChassisSet: each side is saturated on its own, then sent to that
   * side's front and rear motors.
   */
  function ChassisSet(left: int, right: int): (m: ChassisMotors)
    ensures m.frontLeft == m.rearLeft == Saturate(left, PwmMax)
    ensures m.frontRight == m.rearRight == Saturate(right, PwmMax)
  {
    var l := if Abs(left) > PwmMax then (if left < 0 then -PwmMax else PwmMax) else left;
    var r := if Abs(right) > PwmMax then (if right < 0 then -PwmMax else PwmMax) else right;
    ChassisMotors(l, r, l, r)
  }

  /**
   * The two sides are clamped independently, not scaled together: a
   * request of (254, 127), meant as "left twice as fast", drives both
   * sides at the same speed.
   */
  lemma ChassisSetLosesRatio()
    ensures ChassisSet(254, 127) == ChassisMotors(127, 127, 127, 127)
  {
  }

  /** The IR threshold of a side on a tile: 200 on red and blue, 700 otherwise. */
  function IRThreshold(side: Side, tile: Tile): (t: int)
    ensures tile == Grey ==> t == 700
    ensures tile != Grey ==> t == 200
  {
    match (side, tile)
    case (Left, Red) => 200
    case (Left, Blue) => 200
    case (Left, Grey) => 700
    case (Right, Red) => 200
    case (Right, Blue) => 200
    case (Right, Grey) => 700
  }

  /** ChassisHasIRLineLeft / Right: a line is seen when the reading is below the tile's threshold. */
  function HasIRLine(side: Side, tile: Tile, reading: int): (seen: bool)
    ensures seen <==> reading < IRThreshold(side, tile)
    ensures reading < 200 ==> seen
    ensures reading >= 700 ==> !seen
  {
    match tile
    case Red => reading < IRThreshold(side, Red)
    case Blue => reading < IRThreshold(side, Blue)
    case _ => reading < IRThreshold(side, Grey)
  }

  /** ChassisGetIMERight: the right encoder is mounted mirrored, so its count is negated. */
  function GetIMERight(count: int): (r: int)
    ensures r + count == 0
  {
    -count
  }

  /**
   * ChassisGoToGoalContinuous: both controllers get their goals and both
   * take a step (the non-short-circuit `&` forces the right step even when
   * the left is off target); the outputs handed to the motors are
   * returned, and the result is the conjunction.
   */
  method GoToGoalContinuous(leftController: PIDController, rightController: PIDController, left: int, right: int,
                            leftInput: int, leftAfter: int, rightInput: int, rightAfter: int, now: int)
    returns (leftOutput: int, rightOutput: int, bothOnTarget: bool)
    requires leftController != rightController
    requires leftController.CanStep(now) && rightController.CanStep(now)
    modifies leftController, rightController
    ensures GoalSetAndStepped(leftController, left, leftInput, now, leftOutput)
    ensures GoalSetAndStepped(rightController, right, rightInput, now, rightOutput)
    ensures bothOnTarget <==> Abs(left - leftAfter) < leftController.AcceptableTolerance && Abs(right - rightAfter) < rightController.AcceptableTolerance
  {
    leftController.SetGoal(left);
    rightController.SetGoal(right);
    leftOutput, rightOutput, bothOnTarget := GoalStep(leftController, rightController, GoalCycle(leftInput, leftAfter, rightInput, rightAfter, now));
  }

  /** One cycle of ChassisGoToGoalCompletion: both sides' readings and the clock. */
  datatype GoalCycle = GoalCycle(leftInput: int, leftAfter: int, rightInput: int, rightAfter: int, now: int)

  /** A cycle on which both sides end within tolerance of their goals. */
  predicate Good(leftGoal: int, leftTolerance: int, rightGoal: int, rightTolerance: int, c: GoalCycle)
  {
    Abs(leftGoal - c.leftAfter) < leftTolerance && Abs(rightGoal - c.rightAfter) < rightTolerance
  }

  /** The number of good cycles in a run, consecutive or not. */
  function CountGood(leftGoal: int, leftTolerance: int, rightGoal: int, rightTolerance: int, cycles: seq<GoalCycle>): (n: nat)
    ensures n <= |cycles|
  {
    if |cycles| == 0 then 0
    else
      var last := if Good(leftGoal, leftTolerance, rightGoal, rightTolerance, cycles[|cycles| - 1]) then 1 else 0;
      CountGood(leftGoal, leftTolerance, rightGoal, rightTolerance, cycles[..|cycles| - 1]) + last
  }

  /** Good cycles add up across a run: an off-target stretch in between does not reset the count. */
  lemma {:induction false} CountGoodAppend(lg: int, lt: int, rg: int, rt: int, a: seq<GoalCycle>, b: seq<GoalCycle>)
    ensures CountGood(lg, lt, rg, rt, a + b) == CountGood(lg, lt, rg, rt, a) + CountGood(lg, lt, rg, rt, b)
    decreases |b|
  {
    if |b| > 0 {
      assert (a + b)[..|a + b| - 1] == a + b[..|b| - 1];
      CountGoodAppend(lg, lt, rg, rt, a, b[..|b| - 1]);
    } else {
      assert a + b == a;
    }
  }

  /** Counting one more cycle adds one exactly when that cycle is good. */
  lemma CountGoodSnoc(lg: int, lt: int, rg: int, rt: int, cycles: seq<GoalCycle>, k: nat)
    requires k < |cycles|
    ensures CountGood(lg, lt, rg, rt, cycles[..k + 1]) ==
      CountGood(lg, lt, rg, rt, cycles[..k]) + (if Good(lg, lt, rg, rt, cycles[k]) then 1 else 0)
  {
    assert cycles[..k + 1][..k] == cycles[..k];
  }

  /** One side's view of a run: that side's two readings and the shared clock, cycle by cycle. */
  function SideCycles(cycles: seq<GoalCycle>, side: Side): seq<Cycle>
  {
    seq(|cycles|, k requires 0 <= k < |cycles| =>
      match side
      case Left => Cycle(cycles[k].leftInput, cycles[k].leftAfter, cycles[k].now)
      case Right => Cycle(cycles[k].rightInput, cycles[k].rightAfter, cycles[k].now))
  }

  /** Every cycle's clock gives both controllers a usable derivative divisor. */
  predicate GoalClock(leftPrevTime: int, rightPrevTime: int, cycles: seq<GoalCycle>)
  {
    && (|cycles| > 0 ==> Denominator(cycles[0].now, leftPrevTime) != 0 && Denominator(cycles[0].now, rightPrevTime) != 0)
    && forall k :: 0 < k < |cycles| ==> Denominator(cycles[k].now, ToUnsigned32(cycles[k - 1].now)) != 0
  }

  /** The number of good cycles ChassisGoToGoalCompletion waits for. */
  const GoodCycles: int := 50

  /**
   * One cycle of ChassisGoToGoalCompletion: both controllers take a step,
   * whose outputs are returned, and the cycle is good when both report
   * being on target.
   */
  method GoalStep(leftController: PIDController, rightController: PIDController, c: GoalCycle)
    returns (leftOutput: int, rightOutput: int, bothOn: bool)
    requires leftController != rightController
    requires leftController.CanStep(c.now) && rightController.CanStep(c.now)
    modifies leftController, rightController
    ensures Stepped(leftController, c.leftInput, c.now, leftOutput)
    ensures Stepped(rightController, c.rightInput, c.now, rightOutput)
    ensures bothOn == Good(leftController.Goal, leftController.AcceptableTolerance, rightController.Goal, rightController.AcceptableTolerance, c)
  {
    var leftOn, rightOn;
    leftOutput, leftOn := leftController.ExecuteContinuous(c.leftInput, c.leftAfter, c.now);
    rightOutput, rightOn := rightController.ExecuteContinuous(c.rightInput, c.rightAfter, c.now);
    bothOn := leftOn && rightOn;
  }

  /**
   * ChassisGoToGoalCompletion over a finite run of readings: both goals
   * are set, then both sides step every cycle until 50 cycles (not
   * necessarily consecutive) have had both sides on target, or the
   * readings run out.  The outputs handed to each side's motors are
   * returned, one per cycle run, and each controller ends in the running
   * state of Run over its side of the cycles run, from the state SetGoal
   * left.
   */
  method GoToGoalCompletion(leftController: PIDController, rightController: PIDController, left: int, right: int,
                            cycles: seq<GoalCycle>)
    returns (executed: nat, goodCount: nat, leftOutputs: seq<int>, rightOutputs: seq<int>)
    requires leftController != rightController
    requires GoalClock(leftController.prevTime, rightController.prevTime, cycles)
    modifies leftController, rightController
    ensures executed <= |cycles| && goodCount <= GoodCycles
    ensures goodCount == CountGood(left, leftController.AcceptableTolerance, right, rightController.AcceptableTolerance, cycles[..executed])
    ensures goodCount == GoodCycles || executed == |cycles|
    ensures goodCount == GoodCycles ==>
      CountGood(left, leftController.AcceptableTolerance, right, rightController.AcceptableTolerance, cycles[..executed - 1]) == GoodCycles - 1
    ensures leftController.Goal == left && rightController.Goal == right
    ensures leftController.Constants() == old(leftController.Constants()) && rightController.Constants() == old(rightController.Constants())
    ensures Tracks(leftController, AfterSetGoal(old(leftController.Goal), left, old(leftController.State())), SideCycles(cycles, Left)[..executed], leftOutputs)
    ensures Tracks(rightController, AfterSetGoal(old(rightController.Goal), right, old(rightController.State())), SideCycles(cycles, Right)[..executed], rightOutputs)
  {
    leftController.SetGoal(left);
    rightController.SetGoal(right);
    executed, goodCount, leftOutputs, rightOutputs := StepToGoodCycles(leftController, rightController, cycles);
  }

  /**
   * The loop of ChassisGoToGoalCompletion, from the controllers' current
   * goals and running states: it stops after the 50th good cycle or when
   * the readings run out.
   */
  method StepToGoodCycles(leftController: PIDController, rightController: PIDController, cycles: seq<GoalCycle>)
    returns (executed: nat, goodCount: nat, leftOutputs: seq<int>, rightOutputs: seq<int>)
    requires leftController != rightController
    requires GoalClock(leftController.prevTime, rightController.prevTime, cycles)
    modifies leftController, rightController
    ensures executed <= |cycles| && goodCount <= GoodCycles
    ensures goodCount == CountGood(leftController.Goal, leftController.AcceptableTolerance, rightController.Goal, rightController.AcceptableTolerance, cycles[..executed])
    ensures goodCount == GoodCycles || executed == |cycles|
    ensures goodCount == GoodCycles ==>
      CountGood(leftController.Goal, leftController.AcceptableTolerance, rightController.Goal, rightController.AcceptableTolerance, cycles[..executed - 1]) == GoodCycles - 1
    ensures leftController.Goal == old(leftController.Goal) && rightController.Goal == old(rightController.Goal)
    ensures leftController.Constants() == old(leftController.Constants()) && rightController.Constants() == old(rightController.Constants())
    ensures Tracks(leftController, old(leftController.State()), SideCycles(cycles, Left)[..executed], leftOutputs)
    ensures Tracks(rightController, old(rightController.State()), SideCycles(cycles, Right)[..executed], rightOutputs)
  {
    var left, right := leftController.Goal, rightController.Goal;
    var lt, rt := leftController.AcceptableTolerance, rightController.AcceptableTolerance;
    ghost var leftStart, rightStart := leftController.State(), rightController.State();
    ghost var leftCycles, rightCycles := SideCycles(cycles, Left), SideCycles(cycles, Right);
    GoalClockSides(leftStart.prevTime, rightStart.prevTime, cycles);
    goodCount, executed, leftOutputs, rightOutputs := 0, 0, [], [];
    ghost var previous := 0;
    while goodCount < GoodCycles && executed < |cycles|
      invariant executed <= |cycles| && goodCount <= GoodCycles
      invariant leftController.Goal == left && rightController.Goal == right
      invariant leftController.Constants() == old(leftController.Constants()) && rightController.Constants() == old(rightController.Constants())
      invariant lt == leftController.AcceptableTolerance && rt == rightController.AcceptableTolerance
      invariant Tracks(leftController, leftStart, leftCycles[..executed], leftOutputs)
      invariant Tracks(rightController, rightStart, rightCycles[..executed], rightOutputs)
      invariant goodCount == CountGood(left, lt, right, rt, cycles[..executed])
      invariant executed > 0 ==> previous == CountGood(left, lt, right, rt, cycles[..executed - 1]) < GoodCycles
      invariant executed > 0 ==> goodCount <= previous + 1
    {
      CountGoodSnoc(left, lt, right, rt, cycles, executed);
      previous := goodCount;
      var bothOn;
      leftOutputs, rightOutputs, bothOn := TrackedGoalStep(leftController, rightController, cycles, executed, leftStart, rightStart, leftOutputs, rightOutputs);
      if bothOn {
        goodCount := goodCount + 1;
      }
      executed := executed + 1;
    }
  }

  /**
   * Cycle k of the loop of ChassisGoToGoalCompletion: both controllers,
   * having run the first k cycles, step on cycle k and append their
   * outputs.
   */
  method TrackedGoalStep(leftController: PIDController, rightController: PIDController, cycles: seq<GoalCycle>, k: nat,
                         ghost leftStart: Running, ghost rightStart: Running, leftOutputs: seq<int>, rightOutputs: seq<int>)
    returns (leftOutputs': seq<int>, rightOutputs': seq<int>, bothOn: bool)
    requires leftController != rightController && k < |cycles|
    requires ClockUsable(leftStart.prevTime, SideCycles(cycles, Left)) && ClockUsable(rightStart.prevTime, SideCycles(cycles, Right))
    requires Tracks(leftController, leftStart, SideCycles(cycles, Left)[..k], leftOutputs)
    requires Tracks(rightController, rightStart, SideCycles(cycles, Right)[..k], rightOutputs)
    modifies leftController, rightController
    ensures leftController.Goal == old(leftController.Goal) && rightController.Goal == old(rightController.Goal)
    ensures leftController.Constants() == old(leftController.Constants()) && rightController.Constants() == old(rightController.Constants())
    ensures Tracks(leftController, leftStart, SideCycles(cycles, Left)[..k + 1], leftOutputs')
    ensures Tracks(rightController, rightStart, SideCycles(cycles, Right)[..k + 1], rightOutputs')
    ensures bothOn == Good(leftController.Goal, leftController.AcceptableTolerance, rightController.Goal, rightController.AcceptableTolerance, cycles[k])
  {
    RunSnoc(leftController.Constants(), leftController.Goal, leftStart, SideCycles(cycles, Left), k);
    RunSnoc(rightController.Constants(), rightController.Goal, rightStart, SideCycles(cycles, Right), k);
    var leftOutput, rightOutput;
    leftOutput, rightOutput, bothOn := GoalStep(leftController, rightController, cycles[k]);
    leftOutputs', rightOutputs' := leftOutputs + [leftOutput], rightOutputs + [rightOutput];
  }

  /** The clock condition of a run gives each side's controller a usable clock over its own view of the run. */
  lemma GoalClockSides(leftPrevTime: int, rightPrevTime: int, cycles: seq<GoalCycle>)
    requires GoalClock(leftPrevTime, rightPrevTime, cycles)
    ensures ClockUsable(leftPrevTime, SideCycles(cycles, Left)) && ClockUsable(rightPrevTime, SideCycles(cycles, Right))
  {
  }

  /** The number of rising edges (off → on, or on at the start) in a run of line readings. */
  function Edges(ons: seq<bool>): nat
  {
    if |ons| == 0 then 0
    else Edges(ons[..|ons| - 1]) + (if ons[|ons| - 1] && (|ons| == 1 || !ons[|ons| - 2]) then 1 else 0)
  }

  /** The two flags ChassisAlignToLine keeps per side: on the line last cycle, and crossed an odd number of times. */
  datatype LineTrack = LineTrack(hasHad: bool, hasPassed: bool)

  /** One cycle's update of a side's flags: a new contact toggles `hasPassed`; leaving the line clears `hasHad`. */
  function TrackStep(t: LineTrack, on: bool): LineTrack
  {
    if on && !t.hasHad then LineTrack(true, !t.hasPassed)
    else if !on then LineTrack(false, t.hasPassed)
    else t
  }

  /** A side's flags after a run of readings, starting from both false. */
  function Track(ons: seq<bool>): LineTrack
  {
    if |ons| == 0 then LineTrack(false, false) else TrackStep(Track(ons[..|ons| - 1]), ons[|ons| - 1])
  }

  /**
   * The flags mean what their names say: `hasHad` is the last reading, and
   * `hasPassed` is set exactly when the side has crossed onto the line an
   * odd number of times, so it toggles once per crossing however long the
   * side stays on the line.
   */
  lemma {:induction false} TrackCountsEdges(ons: seq<bool>)
    ensures Track(ons).hasHad == (|ons| > 0 && ons[|ons| - 1])
    ensures Track(ons).hasPassed == (Edges(ons) % 2 == 1)
  {
    if |ons| > 0 {
      var init := ons[..|ons| - 1];
      TrackCountsEdges(init);
      if |ons| > 1 {
        assert init[|init| - 1] == ons[|ons| - 2];
      }
    }
  }

  /**
   * The speed ChassisAlignToLine gives a side: 0 while on the line,
   * otherwise its initial speed, reversed while `hasPassed`, saturated by
   * ChassisSetLeft/Right.
   */
  function SideSpeed(initial: int, on: bool, t: LineTrack): (s: int)
    ensures on ==> s == 0
    ensures !on && !t.hasPassed ==> s == Saturate(initial, PwmMax)
    ensures !on && t.hasPassed ==> s == Saturate(-initial, PwmMax)
  {
    if on then 0 else ChassisSetSide(if t.hasPassed then -initial else initial).front
  }

  /** A side's readings: the line test applied to each raw IR value. */
  function Ons(side: Side, tile: Tile, readings: seq<int>): (ons: seq<bool>)
    ensures |ons| == |readings|
  {
    if |readings| == 0 then []
    else Ons(side, tile, readings[..|readings| - 1]) + [HasIRLine(side, tile, readings[|readings| - 1])]
  }

  /** The number of cycles with both sides on the line. */
  function CountBoth(lefts: seq<bool>, rights: seq<bool>): (n: nat)
    requires |lefts| == |rights|
    ensures n <= |lefts|
  {
    if |lefts| == 0 then 0
    else
      var last := if lefts[|lefts| - 1] && rights[|rights| - 1] then 1 else 0;
      CountBoth(lefts[..|lefts| - 1], rights[..|rights| - 1]) + last
  }

  /** The speeds sent to the left and right sides in one cycle. */
  datatype Drive = Drive(left: int, right: int)

  /** What the alignment loop has built up after some cycles: both sides' flags, the good-cycle count, the commands sent. */
  datatype AlignProgress = AlignProgress(left: LineTrack, right: LineTrack, good: nat, sent: seq<Drive>)

  /** One cycle of the alignment loop: update both sides' flags, count the cycle if both are on the line, send both speeds. */
  function AlignNext(left: int, right: int, p: AlignProgress, onLeft: bool, onRight: bool): AlignProgress
  {
    var l := TrackStep(p.left, onLeft);
    var r := TrackStep(p.right, onRight);
    AlignProgress(l, r, p.good + (if onLeft && onRight then 1 else 0),
                  p.sent + [Drive(SideSpeed(left, onLeft, l), SideSpeed(right, onRight, r))])
  }

  /** The alignment loop's progress after its first k cycles of readings. */
  function AlignRun(left: int, right: int, tile: Tile, leftIR: seq<int>, rightIR: seq<int>, k: nat): (p: AlignProgress)
    requires k <= |leftIR| == |rightIR|
    ensures |p.sent| == k && p.good <= k
    decreases k
  {
    if k == 0 then AlignProgress(LineTrack(false, false), LineTrack(false, false), 0, [])
    else AlignNext(left, right, AlignRun(left, right, tile, leftIR, rightIR, k - 1),
                   HasIRLine(Left, tile, leftIR[k - 1]), HasIRLine(Right, tile, rightIR[k - 1]))
  }

  /** The readings of the first k cycles are those of the first k - 1 and then cycle k's. */
  lemma OnsSnoc(side: Side, tile: Tile, readings: seq<int>, k: nat)
    requires 0 < k <= |readings|
    ensures Ons(side, tile, readings[..k]) == Ons(side, tile, readings[..k - 1]) + [HasIRLine(side, tile, readings[k - 1])]
  {
    assert readings[..k][..k - 1] == readings[..k - 1];
  }

  lemma TrackSnoc(ons: seq<bool>, on: bool)
    ensures Track(ons + [on]) == TrackStep(Track(ons), on)
  {
    assert (ons + [on])[..|ons|] == ons;
  }

  lemma CountBothSnoc(lefts: seq<bool>, rights: seq<bool>, l: bool, r: bool)
    requires |lefts| == |rights|
    ensures CountBoth(lefts + [l], rights + [r]) == CountBoth(lefts, rights) + (if l && r then 1 else 0)
  {
    assert (lefts + [l])[..|lefts|] == lefts;
    assert (rights + [r])[..|rights|] == rights;
  }

  /** Cycle k + 1 of the alignment loop is one AlignNext step on cycle k's readings. */
  lemma AlignRunStep(left: int, right: int, tile: Tile, leftIR: seq<int>, rightIR: seq<int>, k: nat)
    requires k < |leftIR| == |rightIR|
    ensures AlignRun(left, right, tile, leftIR, rightIR, k + 1)
      == AlignNext(left, right, AlignRun(left, right, tile, leftIR, rightIR, k), HasIRLine(Left, tile, leftIR[k]), HasIRLine(Right, tile, rightIR[k]))
  {
  }

  /**
   * After k cycles each side's flags are those of its readings so far, the
   * good count is the number of cycles with both sides on the line, and one
   * command was sent per cycle.
   */
  lemma {:induction false} AlignRunTracks(left: int, right: int, tile: Tile, leftIR: seq<int>, rightIR: seq<int>, k: nat)
    requires k <= |leftIR| == |rightIR|
    ensures AlignRun(left, right, tile, leftIR, rightIR, k).left == Track(Ons(Left, tile, leftIR[..k]))
    ensures AlignRun(left, right, tile, leftIR, rightIR, k).right == Track(Ons(Right, tile, rightIR[..k]))
    ensures AlignRun(left, right, tile, leftIR, rightIR, k).good == CountBoth(Ons(Left, tile, leftIR[..k]), Ons(Right, tile, rightIR[..k]))
  {
    if k > 0 {
      AlignRunTracks(left, right, tile, leftIR, rightIR, k - 1);
      var lefts := Ons(Left, tile, leftIR[..k - 1]);
      var rights := Ons(Right, tile, rightIR[..k - 1]);
      var onLeft, onRight := HasIRLine(Left, tile, leftIR[k - 1]), HasIRLine(Right, tile, rightIR[k - 1]);
      OnsSnoc(Left, tile, leftIR, k);
      OnsSnoc(Right, tile, rightIR, k);
      TrackSnoc(lefts, onLeft);
      TrackSnoc(rights, onRight);
      CountBothSnoc(lefts, rights, onLeft, onRight);
    }
  }

  /** Later cycles only append: the first j commands are fixed once sent. */
  lemma {:induction false} AlignRunPrefix(left: int, right: int, tile: Tile, leftIR: seq<int>, rightIR: seq<int>, j: nat, k: nat)
    requires j <= k <= |leftIR| == |rightIR|
    ensures AlignRun(left, right, tile, leftIR, rightIR, k).sent[..j] == AlignRun(left, right, tile, leftIR, rightIR, j).sent
    decreases k
  {
    var after := AlignRun(left, right, tile, leftIR, rightIR, k).sent;
    if j < k {
      AlignRunPrefix(left, right, tile, leftIR, rightIR, j, k - 1);
      var before := AlignRun(left, right, tile, leftIR, rightIR, k - 1).sent;
      assert after == before + [after[k - 1]];
      assert after[..j] == before[..j];
    } else {
      assert after[..j] == after;
    }
  }

  /**
   * The command of cycle j: a side on the line gets 0; a side off it gets
   * its initial speed, reversed when it has crossed onto the line an odd
   * number of times up to that cycle, saturated to ±127.
   */
  lemma AlignCommand(left: int, right: int, tile: Tile, leftIR: seq<int>, rightIR: seq<int>, j: nat, k: nat)
    requires j < k <= |leftIR| == |rightIR|
    ensures AlignRun(left, right, tile, leftIR, rightIR, k).sent[j].left ==
      if HasIRLine(Left, tile, leftIR[j]) then 0
      else if Edges(Ons(Left, tile, leftIR[..j + 1])) % 2 == 1 then Saturate(-left, PwmMax)
      else Saturate(left, PwmMax)
    ensures AlignRun(left, right, tile, leftIR, rightIR, k).sent[j].right ==
      if HasIRLine(Right, tile, rightIR[j]) then 0
      else if Edges(Ons(Right, tile, rightIR[..j + 1])) % 2 == 1 then Saturate(-right, PwmMax)
      else Saturate(right, PwmMax)
  {
    var p := AlignRun(left, right, tile, leftIR, rightIR, k);
    var q := AlignRun(left, right, tile, leftIR, rightIR, j + 1);
    AlignRunPrefix(left, right, tile, leftIR, rightIR, j + 1, k);
    assert p.sent[j] == p.sent[..j + 1][j] == q.sent[j];
    AlignRunLast(left, right, tile, leftIR, rightIR, j + 1);
    AlignRunTracks(left, right, tile, leftIR, rightIR, j + 1);
    var lefts, rights := Ons(Left, tile, leftIR[..j + 1]), Ons(Right, tile, rightIR[..j + 1]);
    TrackCountsEdges(lefts);
    TrackCountsEdges(rights);
    assert q.left.hasPassed == (Edges(lefts) % 2 == 1);
    assert q.right.hasPassed == (Edges(rights) % 2 == 1);
  }

  /** The command of the last of k cycles is each side's speed from its flags after that cycle. */
  lemma AlignRunLast(left: int, right: int, tile: Tile, leftIR: seq<int>, rightIR: seq<int>, k: nat)
    requires 0 < k <= |leftIR| == |rightIR|
    ensures var p := AlignRun(left, right, tile, leftIR, rightIR, k);
      p.sent[k - 1] == Drive(SideSpeed(left, HasIRLine(Left, tile, leftIR[k - 1]), p.left),
                             SideSpeed(right, HasIRLine(Right, tile, rightIR[k - 1]), p.right))
  {
  }

  /** One side's flag update in a cycle of ChassisAlignToLine (the same code is written out for each side). */
  method UpdateSide(hasHad: bool, hasPassed: bool, on: bool) returns (hasHad': bool, hasPassed': bool)
    ensures LineTrack(hasHad', hasPassed') == TrackStep(LineTrack(hasHad, hasPassed), on)
  {
    hasHad', hasPassed' := hasHad, hasPassed;
    if on && !hasHad {
      hasPassed' := !hasPassed;
      hasHad' := true;
    } else if !on {
      hasHad' := false;
    }
  }

  /** One side's speed in a cycle of ChassisAlignToLine: stopped on the line, else the initial speed, reversed once passed. */
  method SideCommand(initial: int, on: bool, hasHad: bool, hasPassed: bool) returns (speed: int)
    ensures speed == SideSpeed(initial, on, LineTrack(hasHad, hasPassed))
  {
    speed := if on then 0 else ChassisSetSide(if hasPassed then -initial else initial).front;
  }

  /** The number of both-on-line cycles ChassisAlignToLine waits for. */
  const AlignedCycles: int := 20

  /**
   * ChassisAlignToLine over a finite run of IR readings (one per side per
   * cycle): each side drives at its initial speed, reverses on every new
   * crossing of the line, and stops while on it; after 20 cycles (not
   * necessarily consecutive) with both sides on the line the chassis is
   * stopped.  `sent` holds the per-cycle commands (AlignCommand says what
   * each is) and then, when the loop finished, the final stop.
   */
  method AlignToLine(left: int, right: int, tile: Tile, leftIR: seq<int>, rightIR: seq<int>)
    returns (sent: seq<Drive>, executed: nat, finished: bool)
    requires |leftIR| == |rightIR|
    ensures executed <= |leftIR|
    ensures finished <==> AlignRun(left, right, tile, leftIR, rightIR, executed).good == AlignedCycles
    ensures finished ==> executed > 0 && AlignRun(left, right, tile, leftIR, rightIR, executed - 1).good < AlignedCycles
    ensures !finished ==> executed == |leftIR| && sent == AlignRun(left, right, tile, leftIR, rightIR, executed).sent
    ensures finished ==> sent == AlignRun(left, right, tile, leftIR, rightIR, executed).sent + [Drive(0, 0)]
  {
    var hasPassedLeft, hasPassedRight := false, false;
    var hasHadLeft, hasHadRight := false, false;
    var goodCount := 0;
    sent, executed := [], 0;
    ghost var progress := AlignRun(left, right, tile, leftIR, rightIR, 0);
    ghost var before := 0;
    while goodCount < AlignedCycles && executed < |leftIR|
      invariant executed <= |leftIR| && goodCount <= AlignedCycles
      invariant progress == AlignRun(left, right, tile, leftIR, rightIR, executed)
      invariant progress == AlignProgress(LineTrack(hasHadLeft, hasPassedLeft), LineTrack(hasHadRight, hasPassedRight), goodCount, sent)
      invariant executed > 0 ==> before == AlignRun(left, right, tile, leftIR, rightIR, executed - 1).good < AlignedCycles
      decreases |leftIR| - executed
    {
      var onRight := HasIRLine(Right, tile, rightIR[executed]);
      var onLeft := HasIRLine(Left, tile, leftIR[executed]);
      hasHadRight, hasPassedRight := UpdateSide(hasHadRight, hasPassedRight, onRight);
      hasHadLeft, hasPassedLeft := UpdateSide(hasHadLeft, hasPassedLeft, onLeft);
      var leftSpeed := SideCommand(left, onLeft, hasHadLeft, hasPassedLeft);
      var rightSpeed := SideCommand(right, onRight, hasHadRight, hasPassedRight);
      before := goodCount;
      if onLeft && onRight {
        goodCount := goodCount + 1;
      }
      sent := sent + [Drive(leftSpeed, rightSpeed)];
      AlignRunStep(left, right, tile, leftIR, rightIR, executed);
      progress := AlignNext(left, right, progress, onLeft, onRight);
      executed := executed + 1;
    }
    finished := goodCount >= AlignedCycles;
    if finished {
      var stop := ChassisSet(0, 0);
      sent := sent + [Drive(stop.frontLeft, stop.frontRight)];
    }
  }
}
