/**
 * The single-loop PID controller of the smart motor library.
 *
 * A controller keeps its goal, the gains, the integral bounds, the
 * tolerance band and three pieces of running state (integral, previous
 * error, previous time).  One step accumulates the error into the integral,
 * clamps it, zeroes integral and output inside the tolerance band, adds a
 * derivative term computed from the clock, and remembers the error and the
 * time.  The sensor (`Call`) and actuator (`Execute`) hooks of the source are
 * parameters and results here; the clock `micros()` is a parameter.
 */
module Pid {
  import opened Numeric

  /** Microseconds per second, the factor the derivative divides by. */
  const MicrosPerSecond: int := 1000000

  /** The constants of a controller: the part of its record that no step changes. */
  datatype Config = Config(
    Kp: real, Ki: real, Kd: real,
    MaxIntegral: int, MinIntegral: int,
    AcceptableTolerance: int)

  /** The tolerance as the step sees it: `abs` of the `unsigned int` field read back as an `int`. */
  function StepTolerance(tolerance: int): (t: nat)
    ensures 0 <= tolerance < I32 ==> t == tolerance
  {
    Abs(ToSigned32(tolerance))
  }

  /**
   * The integral after one step: the error is added, the sum is clamped
   * below to MinIntegral and otherwise above to MaxIntegral, and inside the
   * tolerance band it is reset to 0.
   */
  function NextIntegral(integral: int, error: int, minIntegral: int, maxIntegral: int, tolerance: nat): (r: int)
    ensures Abs(error) < tolerance ==> r == 0
    ensures Abs(error) >= tolerance && minIntegral <= maxIntegral ==> minIntegral <= r <= maxIntegral
    ensures Abs(error) >= tolerance && minIntegral <= integral + error <= maxIntegral ==> r == integral + error
    ensures Abs(error) >= tolerance && integral + error < minIntegral ==> r == minIntegral
    ensures Abs(error) >= tolerance && minIntegral <= integral + error && integral + error > maxIntegral ==> r == maxIntegral
  {
    var sum := integral + error;
    var clamped := if sum < minIntegral then minIntegral else if sum > maxIntegral then maxIntegral else sum;
    if Abs(error) < tolerance then 0 else clamped
  }

  /**
   * The divisor of the derivative: the elapsed microseconds times 1000000,
   * both factors and the product on `unsigned long`.
   */
  function Denominator(now: int, prevTime: int): (d: int)
    ensures 0 <= d < U32
  {
    (Elapsed32(now, prevTime) * MicrosPerSecond) % U32
  }

  /** The derivative term: `abs(error - prevError)` divided by the denominator. */
  function Derivative(error: int, prevError: int, now: int, prevTime: int): (d: nat)
    requires Denominator(now, prevTime) != 0
    ensures d * Denominator(now, prevTime) <= Abs(error - prevError)
    ensures Abs(error - prevError) < (d + 1) * Denominator(now, prevTime)
  {
    DivBounds(Abs(error - prevError), Denominator(now, prevTime));
    Abs(error - prevError) / Denominator(now, prevTime)
  }

  /**
   * When the clock advanced by fewer than 4295 microseconds (so that
   * elapsed * 1000000 does not wrap), the denominator is exactly
   * elapsed * 1000000, and any change of error smaller than that gives a
   * derivative of 0.
   */
  lemma {:induction false} DerivativeVanishes(error: int, prevError: int, now: int, prevTime: int)
    requires 0 <= prevTime < now
    requires (now - prevTime) * MicrosPerSecond < U32
    requires Abs(error - prevError) < (now - prevTime) * MicrosPerSecond
    ensures Denominator(now, prevTime) == (now - prevTime) * MicrosPerSecond
    ensures Derivative(error, prevError, now, prevTime) == 0
  {
    var e := now - prevTime;
    var p := e * MicrosPerSecond;
    AtMostProduct(e, MicrosPerSecond);
    assert Elapsed32(now, prevTime) == e;
    SmallRemainder(p, U32);
    SmallQuotient(Abs(error - prevError), p);
  }

  lemma AtMostProduct(a: nat, b: int)
    requires b >= 1
    ensures a <= a * b
  {
  }

  lemma SmallRemainder(a: int, m: int)
    requires 0 <= a < m
    ensures a % m == a
  {
  }

  lemma SmallQuotient(a: int, m: int)
    requires 0 <= a < m
    ensures a / m == 0
  {
  }

  /** The output of one step: the truncated P + I + D sum, or 0 inside the tolerance band. */
  function StepOutput(c: Config, error: int, integral: int, derivative: int): (out: int)
    ensures Abs(error) < StepTolerance(c.AcceptableTolerance) ==> out == 0
  {
    if Abs(error) < StepTolerance(c.AcceptableTolerance) then 0
    else Trunc(Weighted(c, error, integral, derivative))
  }

  /** The weighted sum of the three terms, before the cast to `int`. */
  function Weighted(c: Config, error: int, integral: int, derivative: int): real
  {
    c.Kp * error as real + c.Ki * integral as real + c.Kd * derivative as real
  }

  /** With only a proportional gain, the output outside the band is Kp * error truncated toward zero. */
  lemma ProportionalOnly(c: Config, error: int, integral: int, derivative: int)
    requires c.Ki == 0.0 && c.Kd == 0.0
    ensures StepOutput(c, error, integral, derivative) ==
      if Abs(error) < StepTolerance(c.AcceptableTolerance) then 0 else Trunc(c.Kp * error as real)
  {
    assert c.Ki * integral as real == 0.0;
    assert c.Kd * derivative as real == 0.0;
    assert Weighted(c, error, integral, derivative) == c.Kp * error as real;
  }

  /** With non-negative gains, a non-negative error and a non-negative integral never give a negative output. */
  lemma {:induction false} OutputFollowsErrorSign(c: Config, error: int, integral: int, derivative: nat)
    requires c.Kp >= 0.0 && c.Ki >= 0.0 && c.Kd >= 0.0
    requires error >= 0 && integral >= 0
    ensures StepOutput(c, error, integral, derivative) >= 0
  {
    MulNonneg(c.Kp, error as real);
    MulNonneg(c.Ki, integral as real);
    MulNonneg(c.Kd, derivative as real);
  }

  /**
   * The tolerance band the step uses and the band ExecuteContinuous
   * compares against coincide for every tolerance a controller is created
   * with in [0, 2^31); a negative tolerance is stored as a huge unsigned
   * value, so ExecuteContinuous then reports "on target" for every reading
   * within 2^32 of the goal while the step still uses its magnitude.
   */
  lemma ToleranceBands(tolerance: int)
    requires -I32 <= tolerance < I32
    ensures 0 <= tolerance ==> StepTolerance(ToUnsigned32(tolerance)) == ToUnsigned32(tolerance) == tolerance
    ensures tolerance < 0 ==> StepTolerance(ToUnsigned32(tolerance)) == -tolerance
    ensures tolerance < 0 ==> ToUnsigned32(tolerance) == tolerance + U32
  {
  }

  class PIDController {
    var Goal: int
    var Kp: real
    var Ki: real
    var Kd: real
    var MaxIntegral: int
    var MinIntegral: int
    /** Held as the source's `unsigned int`. */
    var AcceptableTolerance: int
    var integral: int
    var prevError: int
    /** The `micros()` value of the last step, an `unsigned long`. */
    var prevTime: int

    function Constants(): Config
      reads this
    {
      Config(Kp, Ki, Kd, MaxIntegral, MinIntegral, AcceptableTolerance)
    }

    /** The running state of the record: the fields each step rewrites. */
    function State(): Running
      reads this
    {
      Running(integral, prevError, prevTime)
    }

    /** The clock reading `now` can be used for a step: the derivative's divisor is not zero. */
    predicate CanStep(now: int)
      reads this
    {
      Denominator(now, prevTime) != 0
    }

    /**
     * PIDControllerCreate: stores the gains, limits and tolerance (as an
     * `unsigned int`) and a goal of 0.  The integral, previous error and
     * previous time are not initialised by the source and are left
     * unspecified here.
     */
    constructor Create(Kp: real, Ki: real, Kd: real, MaxIntegral: int, MinIntegral: int, AcceptableTolerance: int)
      ensures Constants() == Config(Kp, Ki, Kd, MaxIntegral, MinIntegral, ToUnsigned32(AcceptableTolerance))
      ensures Goal == 0
    {
      this.Kp := Kp;
      this.Ki := Ki;
      this.Kd := Kd;
      this.MaxIntegral := MaxIntegral;
      this.MinIntegral := MinIntegral;
      this.AcceptableTolerance := ToUnsigned32(AcceptableTolerance);
      this.Goal := 0;
    }

    /** A by-value copy of a controller record, as C makes when a struct is passed or assigned. */
    constructor Copy(other: PIDController)
      ensures SameRecord(this, other)
    {
      Goal := other.Goal;
      Kp := other.Kp;
      Ki := other.Ki;
      Kd := other.Kd;
      MaxIntegral := other.MaxIntegral;
      MinIntegral := other.MinIntegral;
      AcceptableTolerance := other.AcceptableTolerance;
      integral := other.integral;
      prevError := other.prevError;
      prevTime := other.prevTime;
    }

    /** PIDControllerReset: goal, integral and previous error become 0; gains, limits, tolerance and time stay. */
    method Reset()
      modifies this
      ensures Goal == 0 && integral == 0 && prevError == 0
      ensures Constants() == old(Constants()) && prevTime == old(prevTime)
    {
      Goal := 0;
      integral := 0;
      prevError := 0;
    }

    /**
     * PIDControllerComputer: one step with a caller-supplied error.  The
     * new integral and the output are those of NextIntegral and StepOutput;
     * whichever branch is taken, the error and the time are remembered.
     */
    method Computer(error: int, now: int) returns (out: int)
      requires CanStep(now)
      modifies this
      ensures integral == NextIntegral(old(integral), error, MinIntegral, MaxIntegral, StepTolerance(AcceptableTolerance))
      ensures out == StepOutput(Constants(), error, integral, Derivative(error, old(prevError), now, old(prevTime)))
      ensures prevError == error && prevTime == ToUnsigned32(now)
      ensures Goal == old(Goal) && Constants() == old(Constants())
    {
      var tolerance := Abs(ToSigned32(AcceptableTolerance));
      assert tolerance == StepTolerance(AcceptableTolerance);
      integral := integral + error;
      if integral < MinIntegral {
        integral := MinIntegral;
      } else if integral > MaxIntegral {
        integral := MaxIntegral;
      }
      if Abs(error) < tolerance {
        integral := 0;
      }

      var derivative := Derivative(error, prevError, now, prevTime);

      out := Trunc(Weighted(Constants(), error, integral, derivative));

      if Abs(error) < tolerance {
        out := 0;
      }

      prevTime := ToUnsigned32(now);
      prevError := error;
    }

    /** PIDControllerCompute: a step on the error `Goal - input`, `input` being the sensor reading. */
    method Compute(input: int, now: int) returns (out: int)
      requires CanStep(now)
      modifies this
      ensures integral == NextIntegral(old(integral), Goal - input, MinIntegral, MaxIntegral, StepTolerance(AcceptableTolerance))
      ensures out == StepOutput(Constants(), Goal - input, integral, Derivative(Goal - input, old(prevError), now, old(prevTime)))
      ensures prevError == Goal - input && prevTime == ToUnsigned32(now)
      ensures Goal == old(Goal) && Constants() == old(Constants())
    {
      out := Computer(Goal - input, now);
    }

    /** The on-target test of ExecuteContinuous: `abs(Goal - input) < AcceptableTolerance`, compared unsigned. */
    predicate OnTarget(input: int)
      reads this
    {
      Abs(Goal - input) < AcceptableTolerance
    }

    /**
     * PIDControllerExecuteContinuous: computes a step from the reading
     * `input`, hands the output to the actuator (returned here as
     * `output`), then reads the sensor again (`inputAfter`) and reports
     * whether that second reading is within the tolerance of the goal.
     */
    method ExecuteContinuous(input: int, inputAfter: int, now: int) returns (output: int, onTarget: bool)
      requires CanStep(now)
      modifies this
      ensures onTarget == OnTarget(inputAfter)
      ensures onTarget <==> Abs(Goal - inputAfter) < AcceptableTolerance
      ensures output == StepOutput(Constants(), Goal - input, integral, Derivative(Goal - input, old(prevError), now, old(prevTime)))
      ensures integral == NextIntegral(old(integral), Goal - input, MinIntegral, MaxIntegral, StepTolerance(AcceptableTolerance))
      ensures prevError == Goal - input && prevTime == ToUnsigned32(now)
      ensures Goal == old(Goal) && Constants() == old(Constants())
      ensures Stepped(this, input, now, output)
    {
      output := Compute(input, now);
      onTarget := Abs(Goal - inputAfter) < AcceptableTolerance;
    }

    /**
     * PIDControllerExecuteCompletion over a finite run of sensor readings:
     * it keeps calling ExecuteContinuous while that reports "on target" and
     * stops at the first cycle that is off target (or when the readings run
     * out).  `executed` is the number of cycles run and `outputs` the
     * outputs handed to the actuator, one per cycle run; the running state
     * at the end is that of Run over the cycles run.
     */
    method ExecuteCompletion(cycles: seq<Cycle>) returns (executed: nat, exited: bool, outputs: seq<int>)
      requires ClockUsable(prevTime, cycles)
      modifies this
      ensures executed <= |cycles|
      ensures forall k :: 0 <= k < executed - 1 ==> Abs(Goal - cycles[k].inputAfter) < AcceptableTolerance
      ensures exited <==> 0 < executed && Abs(Goal - cycles[executed - 1].inputAfter) >= AcceptableTolerance
      ensures !exited ==> executed == |cycles| && (executed > 0 ==> Abs(Goal - cycles[executed - 1].inputAfter) < AcceptableTolerance)
      ensures Goal == old(Goal) && Constants() == old(Constants())
      ensures State() == Run(Constants(), Goal, old(State()), cycles[..executed])
      ensures outputs == Outputs(Constants(), Goal, old(State()), cycles[..executed])
    {
      ghost var start := State();
      executed, exited, outputs := 0, false, [];
      while executed < |cycles|
        invariant executed <= |cycles|
        invariant Goal == old(Goal) && Constants() == old(Constants())
        invariant State() == Run(Constants(), Goal, start, cycles[..executed])
        invariant outputs == Outputs(Constants(), Goal, start, cycles[..executed])
        invariant !exited
        invariant forall k :: 0 <= k < executed ==> Abs(Goal - cycles[k].inputAfter) < AcceptableTolerance
      {
        var c := cycles[executed];
        RunSnoc(Constants(), Goal, start, cycles, executed);
        var output, onTarget := ExecuteContinuous(c.input, c.inputAfter, c.now);
        outputs := outputs + [output];
        executed := executed + 1;
        if !onTarget {
          exited := true;
          return;
        }
      }
    }

    /**
     * PIDControllerSetGoal: nothing happens when the goal is unchanged;
     * otherwise the controller is reset and the new goal stored.
     */
    method SetGoal(goal: int)
      modifies this
      ensures old(Goal) == goal ==> Goal == old(Goal) && integral == old(integral) && prevError == old(prevError)
      ensures old(Goal) != goal ==> Goal == goal && integral == 0 && prevError == 0
      ensures Constants() == old(Constants()) && prevTime == old(prevTime)
      ensures State() == AfterSetGoal(old(Goal), goal, old(State()))
    {
      if Goal == goal {
        return;
      }
      Reset();
      Goal := goal;
    }
  }

  /** Two controller records hold the same values in every field. */
  predicate SameRecord(c: PIDController, d: PIDController)
    reads c, d
  {
    && c.Constants() == d.Constants() && c.Goal == d.Goal && c.integral == d.integral
    && c.prevError == d.prevError && c.prevTime == d.prevTime
  }

  /**
   * Controller `c` has taken exactly one Compute step on the reading
   * `input` at clock `now`, returning `out`: goal and constants are kept,
   * the integral, previous error and time are those of the step, and `out`
   * is the step's output, all in terms of the state before the step.
   */
  twostate predicate Stepped(c: PIDController, input: int, now: int, out: int)
    reads c
  {
    && c.Goal == old(c.Goal) && c.Constants() == old(c.Constants())
    && Denominator(now, old(c.prevTime)) != 0
    && c.State() == AfterStep(c.Constants(), c.Goal, old(c.State()), input, now)
    && out == OutputOf(c.Constants(), c.Goal, old(c.State()), input, now)
  }

  /**
   * Controller `c` was given the goal `goal` by SetGoal and then took one
   * Compute step on `input` at clock `now`, returning `out`: a new goal
   * starts the step from a reset integral and previous error, the same goal
   * from the old ones.
   */
  twostate predicate GoalSetAndStepped(c: PIDController, goal: int, input: int, now: int, out: int)
    reads c
  {
    var start := AfterSetGoal(old(c.Goal), goal, old(c.State()));
    && c.Goal == goal && c.Constants() == old(c.Constants())
    && Denominator(now, old(c.prevTime)) != 0
    && c.State() == AfterStep(c.Constants(), goal, start, input, now)
    && out == OutputOf(c.Constants(), goal, start, input, now)
  }

  /** The running state of a controller: integral, previous error and the time of the last step. */
  datatype Running = Running(integral: int, prevError: int, prevTime: int)

  /** The running state SetGoal leaves: unchanged for the same goal, integral and previous error cleared for a new one. */
  function AfterSetGoal(goal0: int, goal: int, s: Running): Running
  {
    if goal0 == goal then s else Running(0, 0, s.prevTime)
  }

  /** The running state after one Compute step toward `goal` on the reading `input` at clock `now`. */
  function AfterStep(c: Config, goal: int, s: Running, input: int, now: int): Running
  {
    var error := goal - input;
    Running(NextIntegral(s.integral, error, c.MinIntegral, c.MaxIntegral, StepTolerance(c.AcceptableTolerance)), error, ToUnsigned32(now))
  }

  /** The output of that step: StepOutput over the new integral and the derivative against `s`. */
  function OutputOf(c: Config, goal: int, s: Running, input: int, now: int): int
    requires Denominator(now, s.prevTime) != 0
  {
    var error := goal - input;
    StepOutput(c, error, AfterStep(c, goal, s, input, now).integral, Derivative(error, s.prevError, now, s.prevTime))
  }

  /** One cycle of a run to completion: the reading used for the step, the reading after the output is applied, and the clock. */
  datatype Cycle = Cycle(input: int, inputAfter: int, now: int)

  /** Every cycle's clock reading gives a non-zero derivative divisor against the time the previous step stored. */
  predicate ClockUsable(prevTime: int, cycles: seq<Cycle>)
  {
    && (|cycles| > 0 ==> Denominator(cycles[0].now, prevTime) != 0)
    && forall k :: 0 < k < |cycles| ==> Denominator(cycles[k].now, ToUnsigned32(cycles[k - 1].now)) != 0
  }

  /**
   * The running state after one step per cycle, in order, from `s`: the
   * previous error and time are those of the last cycle, and once a step
   * has run the integral is 0 or within the integral bounds.
   */
  function Run(c: Config, goal: int, s: Running, cycles: seq<Cycle>): (r: Running)
    ensures |cycles| == 0 ==> r == s
    ensures |cycles| > 0 ==> r.prevError == goal - cycles[|cycles| - 1].input && r.prevTime == ToUnsigned32(cycles[|cycles| - 1].now)
    ensures |cycles| > 0 && c.MinIntegral <= c.MaxIntegral ==> r.integral == 0 || c.MinIntegral <= r.integral <= c.MaxIntegral
  {
    if |cycles| == 0 then s
    else
      var last := cycles[|cycles| - 1];
      AfterStep(c, goal, Run(c, goal, s, cycles[..|cycles| - 1]), last.input, last.now)
  }

  /** The outputs of those steps, one per cycle, in order. */
  function Outputs(c: Config, goal: int, s: Running, cycles: seq<Cycle>): (outs: seq<int>)
    requires ClockUsable(s.prevTime, cycles)
    ensures |outs| == |cycles|
  {
    if |cycles| == 0 then []
    else
      var init, last := cycles[..|cycles| - 1], cycles[|cycles| - 1];
      Outputs(c, goal, s, init) + [OutputOf(c, goal, Run(c, goal, s, init), last.input, last.now)]
  }

  /**
   * The k-th output of a run is the output of a single step taken from the
   * running state the first k cycles leave.
   */
  lemma {:induction false} OutputsAt(c: Config, goal: int, s: Running, cycles: seq<Cycle>, k: nat)
    requires ClockUsable(s.prevTime, cycles) && k < |cycles|
    ensures Denominator(cycles[k].now, Run(c, goal, s, cycles[..k]).prevTime) != 0
    ensures Outputs(c, goal, s, cycles)[k] == OutputOf(c, goal, Run(c, goal, s, cycles[..k]), cycles[k].input, cycles[k].now)
  {
    var init := cycles[..|cycles| - 1];
    if k == |cycles| - 1 {
      assert cycles[..k] == init;
    } else {
      assert init[..k] == cycles[..k];
      OutputsAt(c, goal, s, init, k);
    }
  }

  /**
   * Controller `c` has run the cycles `cycles` toward its goal from the
   * running state `start`, handing out `outputs`: its running state and
   * the outputs are those of Run and Outputs.
   */
  predicate Tracks(c: PIDController, start: Running, cycles: seq<Cycle>, outputs: seq<int>)
    reads c
  {
    && ClockUsable(start.prevTime, cycles)
    && c.State() == Run(c.Constants(), c.Goal, start, cycles)
    && outputs == Outputs(c.Constants(), c.Goal, start, cycles)
  }

  /** One more cycle extends a run by one step and one output. */
  lemma RunSnoc(c: Config, goal: int, s: Running, cycles: seq<Cycle>, k: nat)
    requires ClockUsable(s.prevTime, cycles) && k < |cycles|
    ensures Denominator(cycles[k].now, Run(c, goal, s, cycles[..k]).prevTime) != 0
    ensures Run(c, goal, s, cycles[..k + 1]) == AfterStep(c, goal, Run(c, goal, s, cycles[..k]), cycles[k].input, cycles[k].now)
    ensures Outputs(c, goal, s, cycles[..k + 1])
      == Outputs(c, goal, s, cycles[..k]) + [OutputOf(c, goal, Run(c, goal, s, cycles[..k]), cycles[k].input, cycles[k].now)]
  {
    assert cycles[..k + 1][..k] == cycles[..k];
  }
}
