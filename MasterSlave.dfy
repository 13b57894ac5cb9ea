/**
 * The master/slave synchronising controller: two PID controllers driving
 * two sides of one mechanism (the master and the slave) plus a third,
 * the equalizer, whose output is added to the slave to keep it level with
 * the master.  Outputs come either from the master and slave controllers
 * (closed loop) or from one manual value, and are then scaled together so
 * that neither exceeds the PWM range.
 *
 * The controller's mutex is a boolean input to each operation; sensor
 * reads (`Call`) are parameters, and the outputs handed to `Execute` are
 * results.
 */
module MasterSlave {
  import opened Numeric
  import opened Pid

  /** The pair of values handed to the master's and the slave's `Execute`. */
  datatype Outputs = Outputs(master: int, slave: int)

  /** The common divisor of a cycle: 127, raised to |master| and then to |slave| when those are larger. */
  function JointDivisor(master: int, slave: int): (d: int)
    ensures d >= PwmMax && d >= Abs(master) && d >= Abs(slave)
    ensures d == PwmMax || d == Abs(master) || d == Abs(slave)
  {
    var d := PwmMax;
    var d := if Abs(master) > d then Abs(master) else d;
    if Abs(slave) > d then Abs(slave) else d
  }

  /** Both outputs multiplied by `127.0 / divisor` and truncated toward zero. */
  function JointScale(master: int, slave: int): Outputs
  {
    var d := JointDivisor(master, slave);
    Outputs(ScaleToPwm(master, d), ScaleToPwm(slave, d))
  }

  /**
   * Joint scaling keeps both outputs within ±127, keeps their signs, passes
   * a pair already within range unchanged, and drives the larger side to
   * exactly ±127 when it was out of range.
   */
  lemma {:induction false} JointScaleBounds(master: int, slave: int)
    ensures Abs(JointScale(master, slave).master) <= PwmMax && Abs(JointScale(master, slave).slave) <= PwmMax
    ensures Abs(JointScale(master, slave).master) <= Abs(master) && Abs(JointScale(master, slave).slave) <= Abs(slave)
    ensures master >= 0 ==> JointScale(master, slave).master >= 0
    ensures master <= 0 ==> JointScale(master, slave).master <= 0
    ensures slave >= 0 ==> JointScale(master, slave).slave >= 0
    ensures slave <= 0 ==> JointScale(master, slave).slave <= 0
    ensures Abs(master) <= PwmMax && Abs(slave) <= PwmMax ==> JointScale(master, slave) == Outputs(master, slave)
    ensures Abs(master) > PwmMax && Abs(master) >= Abs(slave) ==> Abs(JointScale(master, slave).master) == PwmMax
    ensures Abs(slave) > PwmMax && Abs(slave) >= Abs(master) ==> Abs(JointScale(master, slave).slave) == PwmMax
  {
    var d := JointDivisor(master, slave);
    ScaleToPwmBounds(master, d);
    ScaleToPwmBounds(slave, d);
    if Abs(master) <= PwmMax && Abs(slave) <= PwmMax {
      assert d == PwmMax;
    }
  }

  /**
   * The two outputs of one cycle from the three controller results: each
   * side takes its own result in closed loop and the manual value
   * otherwise, the equalizer result is added to the slave side only, and
   * the pair is scaled together.
   */
  function CycleOutputs(enabled: bool, manual: int, masterResult: int, slaveResult: int, equalizerResult: int): (o: Outputs)
    ensures Abs(o.master) <= PwmMax && Abs(o.slave) <= PwmMax
  {
    var m := if enabled then masterResult else manual;
    var s := (if enabled then slaveResult else manual) + equalizerResult;
    JointScaleBounds(m, s);
    JointScale(m, s)
  }

  /** In manual mode with no equalizer correction, master and slave receive the same value. */
  lemma ManualModeSynchronised(manual: int, masterResult: int, slaveResult: int)
    ensures CycleOutputs(false, manual, masterResult, slaveResult, 0).master == CycleOutputs(false, manual, masterResult, slaveResult, 0).slave
  {
  }

  /**
   * The equalizer corrects the slave only: when both sides are within
   * range the master receives its own value untouched and the slave its
   * value plus the correction.
   */
  lemma {:induction false} EqualizerCorrectsSlaveOnly(enabled: bool, manual: int, masterResult: int, slaveResult: int, equalizerResult: int)
    requires Abs(if enabled then masterResult else manual) <= PwmMax
    requires Abs((if enabled then slaveResult else manual) + equalizerResult) <= PwmMax
    ensures CycleOutputs(enabled, manual, masterResult, slaveResult, equalizerResult).master == (if enabled then masterResult else manual)
    ensures CycleOutputs(enabled, manual, masterResult, slaveResult, equalizerResult).slave == (if enabled then slaveResult else manual) + equalizerResult
  {
    JointScaleBounds(if enabled then masterResult else manual, (if enabled then slaveResult else manual) + equalizerResult);
  }

  /**
   * The master's output depends on the equalizer only through the common
   * divisor: while the master side dominates, any two equalizer results
   * give the master the same output.
   */
  lemma {:induction false} MasterIndependentOfEqualizer(masterResult: int, slaveResult: int, e1: int, e2: int)
    requires Abs(masterResult) >= PwmMax
    requires Abs(masterResult) >= Abs(slaveResult + e1) && Abs(masterResult) >= Abs(slaveResult + e2)
    ensures CycleOutputs(true, 0, masterResult, slaveResult, e1).master == CycleOutputs(true, 0, masterResult, slaveResult, e2).master
  {
    assert JointDivisor(masterResult, slaveResult + e1) == Abs(masterResult);
    assert JointDivisor(masterResult, slaveResult + e2) == Abs(masterResult);
  }

  class MasterSlaveController {
    var master: PIDController
    var slave: PIDController
    var equalizer: PIDController
    var enabledPrimaryPID: bool
    var manualPrimaryOutput: int

    /** The three controllers are distinct members of the record. */
    predicate Valid()
      reads this
    {
      master != slave && master != equalizer && slave != equalizer
    }

    /**
     * CreateMasterSlavePIDController: the three controllers are copied by
     * value into the new record; the manual output is left unspecified.
     */
    constructor Create(master: PIDController, slave: PIDController, equalizer: PIDController, enabledPrimaryPID: bool)
      ensures Valid()
      ensures fresh(this.master) && fresh(this.slave) && fresh(this.equalizer)
      ensures SameRecord(this.master, master) && SameRecord(this.slave, slave) && SameRecord(this.equalizer, equalizer)
      ensures this.enabledPrimaryPID == enabledPrimaryPID
    {
      var m := new PIDController.Copy(master);
      var s := new PIDController.Copy(slave);
      var e := new PIDController.Copy(equalizer);
      this.master := m;
      this.slave := s;
      this.equalizer := e;
      this.enabledPrimaryPID := enabledPrimaryPID;
    }

    /**
     * InitializeMasterSlaveController: both goals become the primary goal
     * and the manual output 0.  The goals are assigned directly, so the
     * controllers' integrals are not reset.
     */
    method Initialize(primaryGoal: int)
      requires Valid()
      modifies this, master, slave
      ensures Valid() && master == old(master) && slave == old(slave) && equalizer == old(equalizer)
      ensures master.Goal == primaryGoal && slave.Goal == primaryGoal && manualPrimaryOutput == 0
      ensures enabledPrimaryPID == old(enabledPrimaryPID)
      ensures master.Constants() == old(master.Constants()) && slave.Constants() == old(slave.Constants())
      ensures master.integral == old(master.integral) && slave.integral == old(slave.integral)
      ensures master.prevError == old(master.prevError) && slave.prevError == old(slave.prevError)
      ensures master.prevTime == old(master.prevTime) && slave.prevTime == old(slave.prevTime)
    {
      slave.Goal := primaryGoal;
      master.Goal := primaryGoal;
      manualPrimaryOutput := 0;
    }

    /**
     * One pass of the controller task.  Without the lock nothing happens.
     * Otherwise the master and slave controllers step only in closed loop,
     * the equalizer steps every time, and the returned pair is
     * CycleOutputs of those results.
     */
    method Cycle(lockTaken: bool, masterInput: int, slaveInput: int, equalizerInput: int, now: int)
      returns (ran: bool, masterResult: int, slaveResult: int, equalizerResult: int, out: Outputs)
      requires Valid()
      requires lockTaken ==> equalizer.CanStep(now)
      requires lockTaken && enabledPrimaryPID ==> master.CanStep(now) && slave.CanStep(now)
      modifies master, slave, equalizer
      ensures ran == lockTaken
      ensures !ran ==> unchanged(master, slave, equalizer)
      ensures ran ==> out == CycleOutputs(enabledPrimaryPID, manualPrimaryOutput, masterResult, slaveResult, equalizerResult)
      ensures ran && !enabledPrimaryPID ==> unchanged(master, slave)
      ensures ran && enabledPrimaryPID ==> Stepped(master, masterInput, now, masterResult) && Stepped(slave, slaveInput, now, slaveResult)
      ensures ran ==> Stepped(equalizer, equalizerInput, now, equalizerResult)
    {
      ran, masterResult, slaveResult, equalizerResult, out := false, 0, 0, 0, Outputs(0, 0);
      if !lockTaken {
        return;
      }
      ran := true;
      var masterOutput, slaveOutput;
      masterResult, slaveResult, masterOutput, slaveOutput := StepPrimaries(masterInput, slaveInput, now);

      equalizerResult := equalizer.Compute(equalizerInput, now);
      slaveOutput := slaveOutput + equalizerResult;

      out := ScaleOutputs(masterOutput, slaveOutput);
    }

    /**
     * The first half of a cycle: in closed loop the master and the slave
     * controllers step and their results are the outputs; otherwise both
     * outputs are the manual output.
     */
    method StepPrimaries(masterInput: int, slaveInput: int, now: int)
      returns (masterResult: int, slaveResult: int, masterOutput: int, slaveOutput: int)
      requires Valid()
      requires enabledPrimaryPID ==> master.CanStep(now) && slave.CanStep(now)
      modifies master, slave
      ensures !enabledPrimaryPID ==> unchanged(master, slave)
      ensures !enabledPrimaryPID ==> masterOutput == manualPrimaryOutput && slaveOutput == manualPrimaryOutput
      ensures enabledPrimaryPID ==> masterOutput == masterResult && slaveOutput == slaveResult
      ensures enabledPrimaryPID ==> Stepped(master, masterInput, now, masterResult) && Stepped(slave, slaveInput, now, slaveResult)
    {
      masterResult, slaveResult := 0, 0;
      if enabledPrimaryPID {
        masterResult := master.Compute(masterInput, now);
        slaveResult := slave.Compute(slaveInput, now);
        masterOutput, slaveOutput := masterResult, slaveResult;
      } else {
        masterOutput, slaveOutput := manualPrimaryOutput, manualPrimaryOutput;
      }
    }

    /** The end of a cycle: the divisor starts at 127 and grows to the larger magnitude; both outputs are scaled by it. */
    static method ScaleOutputs(masterOutput: int, slaveOutput: int) returns (out: Outputs)
      ensures out == JointScale(masterOutput, slaveOutput)
    {
      var max := PwmMax;
      if Abs(masterOutput) > max {
        max := Abs(masterOutput);
      }
      if Abs(slaveOutput) > max {
        max := Abs(slaveOutput);
      }
      out := Outputs(ScaleToPwm(masterOutput, max), ScaleToPwm(slaveOutput, max));
    }

    /**
     * MasterSlavePIDChangeGoal: with the lock, closed loop is enabled and
     * the master's goal set (twice); the slave's goal is not touched.
     */
    method ChangeGoal(primaryPIDGoal: int, lockTaken: bool)
      requires Valid()
      modifies this, master
      ensures Valid() && master == old(master) && slave == old(slave) && equalizer == old(equalizer)
      ensures !lockTaken ==> enabledPrimaryPID == old(enabledPrimaryPID) && master.Goal == old(master.Goal)
      ensures lockTaken ==> enabledPrimaryPID && master.Goal == primaryPIDGoal
      ensures slave.Goal == old(slave.Goal) && manualPrimaryOutput == old(manualPrimaryOutput)
      ensures master.Constants() == old(master.Constants()) && master.integral == old(master.integral)
      ensures master.prevError == old(master.prevError) && master.prevTime == old(master.prevTime)
    {
      if !lockTaken {
        return;
      }
      enabledPrimaryPID := true;
      master.Goal := primaryPIDGoal;
      master.Goal := primaryPIDGoal;
    }

    /**
     * MasterSlavePIDIncreaseGoal: with the lock, when coming from manual
     * mode closed loop is enabled and both goals are first set from two
     * successive readings of the master's sensor; then the delta is added
     * to both goals.
     */
    method IncreaseGoal(deltaGoal: int, lockTaken: bool, firstReading: int, secondReading: int)
      requires Valid()
      modifies this, master, slave
      ensures Valid() && master == old(master) && slave == old(slave) && equalizer == old(equalizer)
      ensures !lockTaken ==> enabledPrimaryPID == old(enabledPrimaryPID) && master.Goal == old(master.Goal) && slave.Goal == old(slave.Goal)
      ensures lockTaken ==> enabledPrimaryPID
      ensures lockTaken && old(enabledPrimaryPID) ==> master.Goal == old(master.Goal) + deltaGoal && slave.Goal == old(slave.Goal) + deltaGoal
      ensures lockTaken && !old(enabledPrimaryPID) ==> master.Goal == firstReading + deltaGoal && slave.Goal == secondReading + deltaGoal
      ensures manualPrimaryOutput == old(manualPrimaryOutput)
      ensures master.Constants() == old(master.Constants()) && slave.Constants() == old(slave.Constants())
      ensures master.integral == old(master.integral) && slave.integral == old(slave.integral)
      ensures master.prevError == old(master.prevError) && slave.prevError == old(slave.prevError)
      ensures master.prevTime == old(master.prevTime) && slave.prevTime == old(slave.prevTime)
    {
      if !lockTaken {
        return;
      }
      if !enabledPrimaryPID {
        enabledPrimaryPID := true;
        master.Goal := firstReading;
        slave.Goal := secondReading;
      }
      master.Goal := master.Goal + deltaGoal;
      slave.Goal := slave.Goal + deltaGoal;
    }

    /** MasterSlavePIDSetOutput: with the lock, manual mode with the given output; goals untouched. */
    method SetOutput(output: int, lockTaken: bool)
      modifies this
      ensures master == old(master) && slave == old(slave) && equalizer == old(equalizer)
      ensures !lockTaken ==> enabledPrimaryPID == old(enabledPrimaryPID) && manualPrimaryOutput == old(manualPrimaryOutput)
      ensures lockTaken ==> !enabledPrimaryPID && manualPrimaryOutput == output
    {
      if !lockTaken {
        return;
      }
      enabledPrimaryPID := false;
      manualPrimaryOutput := output;
    }
  }
}
