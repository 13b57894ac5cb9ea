/**
 * The Smart Motor Library: a table of ten motor records (one per Cortex
 * motor port), the commands that read and write it, and one pass of the
 * background task that ramps each port's output toward its commanded value.
 *
 * The PWM value a port is actually driven at (`motorGet`/`motorSet`) is a
 * second array.  Mutex acquisition is a boolean input; `millis()` is a
 * parameter.
 */
module SmartMotor {
  import opened Numeric

  /** Number of motor ports on the Cortex. */
  const Ports: int := 10

  /**
   * The `RecalculateCommanded` function pointer: NULL before the manager is
   * initialised, the identity `DefaultRecalculate`, or a user function
   * (identified by an opaque number).  The library stores it but never calls it.
   */
  datatype Recalculate = Unset | Default | Custom(id: nat)

  /**
   * One motor record.  `inverted` is the C `bool` seen as the integer it
   * holds: 0 (false) or 1 (true).
   */
  datatype Motor = Motor(recalculate: Recalculate, channel: int, inverted: int, commanded: int, skewPerMsec: real, lastUpdate: int)

  /** The zero-initialised record of a static `Motor`. */
  const Blank: Motor := Motor(Unset, 0, 0, 0, 0.0, 0)

  /** DefaultRecalculate: the identity on the commanded value. */
  function DefaultRecalculate(x: int): (r: int)
    ensures r - x == 0
  {
    x
  }

  /** Storing an `int` into a C `bool`: every non-zero value becomes 1. */
  function ToBool(x: int): (b: int)
    ensures b == 0 || b == 1
    ensures b == 0 <==> x == 0
  {
    if x == 0 then 0 else 1
  }

  /** The sign MotorConfigure computes, `inverted ? 1 : -1`, as stored into the `bool` field. */
  function StoredInversion(inverted: bool): (b: int)
    ensures b == 1
  {
    ToBool(if inverted then 1 else -1)
  }

  /** The sign MotorGet multiplies by: `inverted ? 1 : -1`. */
  function ReadSign(m: Motor): (s: int)
    ensures s == 1 || s == -1
    ensures s == 1 <==> m.inverted != 0
  {
    if m.inverted != 0 then 1 else -1
  }

  /** The record after MotorSet's bookkeeping with an already clamped value. */
  function Command(m: Motor, request: int): (r: Motor)
    ensures r.commanded == (if m.commanded == request then m.commanded else request * m.inverted)
    ensures r.(commanded := m.commanded) == m
  {
    if m.commanded == request then m else m.(commanded := request * m.inverted)
  }

  /**
   * A configured motor (its `bool` holds 1) reads back exactly the clamped
   * value it was set to; an unconfigured one (0) always reads back 0,
   * because the stored command is multiplied by 0.
   */
  lemma {:induction false} SetThenGet(m: Motor, request: int)
    requires m.inverted == 0 || m.inverted == 1
    requires m.inverted == 1 || m.commanded == 0
    ensures m.inverted == 1 ==> Command(m, Saturate(request, PwmMax)).commanded * ReadSign(m) == Saturate(request, PwmMax)
    ensures m.inverted == 0 ==> Command(m, Saturate(request, PwmMax)).commanded * ReadSign(m) == 0
  {
    var s := Saturate(request, PwmMax);
    if m.inverted == 0 {
      assert Command(m, s).commanded == 0;
    } else {
      assert Command(m, s).commanded == s;
    }
  }

  /** Whatever inversion is asked for, MotorConfigure stores the same record. */
  lemma ConfigureIgnoresInversion(m: Motor, channel: int, skew: real)
    ensures Configured(m, channel, true, skew) == Configured(m, channel, false, skew)
  {
  }

  /** The record MotorConfigure leaves in an addressed slot. */
  function Configured(m: Motor, channel: int, inverted: bool, skew: real): (r: Motor)
    ensures r.channel == channel && r.inverted == 1 && r.skewPerMsec == skew && r.recalculate == Default
    ensures r.commanded == m.commanded && r.lastUpdate == m.lastUpdate
  {
    m.(channel := channel, inverted := StoredInversion(inverted), skewPerMsec := skew, recalculate := Default)
  }

  /**
   * One ramp step of a port: with `skew * elapsed` the PWM change allowed
   * since the last update, the output snaps to the command when the gap is
   * smaller than that, and otherwise moves toward the command by the
   * allowance truncated toward zero.
   */
  function RampOutput(current: int, command: int, skew: real, elapsed: int): (out: int)
  {
    Approach(current, command, skew * elapsed as real)
  }

  /** Moving `current` toward `command` by at most `allowance`, truncated toward zero. */
  function Approach(current: int, command: int, allowance: real): int
  {
    if (Abs(command - current) as real) < allowance then command
    else current + Trunc(allowance * (if command - current > 0 then 1.0 else -1.0))
  }

  /**
   * With a non-negative allowance, one approach lands between the output
   * and the command and moves by at most the allowance; outside the
   * allowance it moves by exactly the allowance truncated toward zero.
   */
  lemma {:induction false} ApproachBetween(current: int, command: int, allowance: real)
    requires allowance >= 0.0
    ensures (Abs(Approach(current, command, allowance) - current) as real) <= allowance
    ensures (Abs(command - current) as real) >= allowance ==>
      Approach(current, command, allowance) == current + (if command > current then Trunc(allowance) else -Trunc(allowance))
    ensures current <= command ==> current <= Approach(current, command, allowance) <= command
    ensures command <= current ==> command <= Approach(current, command, allowance) <= current
    ensures Abs(command - Approach(current, command, allowance)) <= Abs(command - current)
    ensures allowance >= 1.0 && current != command ==> Abs(command - Approach(current, command, allowance)) < Abs(command - current)
    ensures (Abs(command - current) as real) < allowance ==> Approach(current, command, allowance) == command
  {
    if (Abs(command - current) as real) >= allowance {
      if command - current > 0 {
        assert allowance * 1.0 == allowance;
      } else {
        assert allowance * -1.0 == -allowance;
        assert Trunc(-allowance) == -Trunc(allowance);
      }
    }
  }

  /**
   * A ramp step never passes the command and never moves faster than the
   * skew allows: with a non-negative skew the new output lies between the
   * old output and the command, differs from the old output by at most
   * `skew * elapsed`, moves by exactly that allowance truncated toward zero
   * while the gap is at least the allowance, and is the command itself
   * whenever the gap is within it.
   */
  lemma {:induction false} RampNeverOvershoots(current: int, command: int, skew: real, elapsed: nat)
    requires skew >= 0.0
    ensures (Abs(RampOutput(current, command, skew, elapsed) - current) as real) <= skew * elapsed as real
    ensures (Abs(command - current) as real) >= skew * elapsed as real ==>
      RampOutput(current, command, skew, elapsed) == current + (if command > current then Trunc(skew * elapsed as real) else -Trunc(skew * elapsed as real))
    ensures Abs(command - RampOutput(current, command, skew, elapsed)) <= Abs(command - current)
    ensures current <= command ==> current <= RampOutput(current, command, skew, elapsed) <= command
    ensures command <= current ==> command <= RampOutput(current, command, skew, elapsed) <= current
    ensures (Abs(command - current) as real) < skew * elapsed as real ==> RampOutput(current, command, skew, elapsed) == command
  {
    var allowance := skew * elapsed as real;
    assert allowance >= 0.0 by {
      MulNonneg(skew, elapsed as real);
    }
    ApproachBetween(current, command, allowance);
  }

  /** A motor whose skew is 0 (the value of an unconfigured record) never moves toward its command. */
  lemma ZeroSkewNeverMoves(current: int, command: int, elapsed: int)
    requires current != command
    ensures RampOutput(current, command, 0.0, elapsed) == current
  {
    var k := 0.0 * elapsed as real;
    assert k == 0.0;
  }

  /** `n` successive ramp steps with the same allowance. */
  function Ramp(current: int, command: int, skew: real, elapsed: int, n: nat): int
    decreases n
  {
    if n == 0 then current else Ramp(RampOutput(current, command, skew, elapsed), command, skew, elapsed, n - 1)
  }

  /** When at least one PWM step is allowed per pass, the output reaches the command within |gap| passes and stays there. */
  lemma {:induction false} RampConverges(current: int, command: int, skew: real, elapsed: nat, n: nat)
    requires skew * elapsed as real >= 1.0
    requires Abs(command - current) <= n
    ensures Ramp(current, command, skew, elapsed, n) == command
    decreases n
  {
    if n > 0 {
      var next := RampOutput(current, command, skew, elapsed);
      ApproachBetween(current, command, skew * elapsed as real);
      assert Abs(command - next) <= n - 1;
      RampConverges(next, command, skew, elapsed, n - 1);
    }
  }

  /** What MotorConfigure and MotorChangeRecalculateCommanded did. */
  datatype ConfigureOutcome =
    | Rejected        // the channel failed the guard: nothing was written
    | Stored          // a slot of the table was written
    | OutOfBounds     // channel 0 or 11 passed the guard: the source writes outside the table; not performed here

  class MotorLibrary {
    /** The static `Motors[10]` table; port `c` is slot `c - 1`. */
    var motors: array<Motor>
    /** The PWM value each port is being driven at. */
    var outputs: array<int>

    predicate Valid()
      reads this
    {
      motors.Length == Ports && outputs.Length == Ports
    }

    /** The zero-initialised static table, with every port stopped. */
    constructor ()
      ensures Valid() && fresh(motors) && fresh(outputs)
      ensures forall k :: 0 <= k < Ports ==> motors[k] == Blank && outputs[k] == 0
    {
      motors := new Motor[Ports](_ => Blank);
      outputs := new int[Ports](_ => 0);
    }

    /** InitializeMotorManager, table part: every slot gets the identity recalculation; task and mutexes are not modelled. */
    method InitializeMotorManager()
      requires Valid()
      modifies motors
      ensures forall k :: 0 <= k < Ports ==> motors[k] == old(motors[k]).(recalculate := Default)
    {
      for k := 0 to Ports
        invariant forall q :: 0 <= q < k ==> motors[q] == old(motors[q]).(recalculate := Default)
        invariant forall q :: k <= q < Ports ==> motors[q] == old(motors[q])
      {
        motors[k] := motors[k].(recalculate := Default);
      }
    }

    /**
     * MotorSet: rejects a channel outside [1,10]; clamps the value to
     * [-127,127]; with `immediate` it needs the port's lock (else it fails
     * before changing anything) and drives the port at `set * inverted`;
     * then it stores `set * inverted` as the command unless the command
     * already equals the clamped value.
     */
    method MotorSet(channel: int, request: int, immediate: bool, lockTaken: bool) returns (ok: bool)
      requires Valid()
      modifies motors, outputs
      ensures ok <==> 1 <= channel <= Ports && (immediate ==> lockTaken)
      ensures !ok ==> motors[..] == old(motors[..]) && outputs[..] == old(outputs[..])
      ensures ok ==> motors[..] == old(motors[..])[channel - 1 := Command(old(motors[channel - 1]), Saturate(request, PwmMax))]
      ensures ok && immediate ==> outputs[..] == old(outputs[..])[channel - 1 := Saturate(request, PwmMax) * old(motors[channel - 1]).inverted]
      ensures ok && !immediate ==> outputs[..] == old(outputs[..])
    {
      if channel > Ports || channel < 1 {
        return false;
      }
      var value := request;
      if value > PwmMax {
        value := PwmMax;
      } else if value < -PwmMax {
        value := -PwmMax;
      }
      var slot := channel - 1;
      if immediate {
        if !lockTaken {
          return false;
        }
        outputs[slot] := value * motors[slot].inverted;
      }
      if motors[slot].commanded == value {
        return true;
      }
      motors[slot] := motors[slot].(commanded := value * motors[slot].inverted);
      return true;
    }

    /** MotorGet: 0 for a channel outside [1,10], else the command times `inverted ? 1 : -1`. */
    function MotorGet(channel: int): (r: int)
      requires Valid()
      reads this, motors
      ensures !(1 <= channel <= Ports) ==> r == 0
      ensures 1 <= channel <= Ports ==> Abs(r) == Abs(motors[channel - 1].commanded)
      ensures 1 <= channel <= Ports && motors[channel - 1].inverted != 0 ==> r == motors[channel - 1].commanded
    {
      if channel > Ports || channel < 1 then 0
      else motors[channel - 1].commanded * ReadSign(motors[channel - 1])
    }

    /**
     * MotorConfigure: its guard rejects only channels below 0 or above 11.
     * For 1..10 it stores channel, inversion (always 1, see
     * StoredInversion), skew and the identity recalculation in that slot
     * alone; for 0 and 11 the source writes one record before or after the
     * table, which is reported rather than performed.
     */
    method MotorConfigure(channel: int, inverted: bool, skewPerMsec: real) returns (outcome: ConfigureOutcome)
      requires Valid()
      modifies motors
      ensures outcome == Rejected <==> channel < 0 || channel > Ports + 1
      ensures outcome == OutOfBounds <==> channel == 0 || channel == Ports + 1
      ensures outcome != Stored ==> motors[..] == old(motors[..])
      ensures outcome == Stored ==> 1 <= channel <= Ports
      ensures outcome == Stored ==>
        motors[..] == old(motors[..])[channel - 1 := Configured(old(motors[channel - 1]), channel, inverted, skewPerMsec)]
    {
      if channel < 0 || channel > Ports + 1 {
        return Rejected;
      }
      var slot := channel - 1;
      if slot < 0 || slot >= Ports {
        return OutOfBounds;
      }
      motors[slot] := motors[slot].(channel := slot + 1, inverted := ToBool(if inverted then 1 else -1),
        skewPerMsec := skewPerMsec, recalculate := Default);
      return Stored;
    }

    /** MotorChangeRecalculateCommanded: same guard as MotorConfigure; stores the function in the addressed slot only. */
    method MotorChangeRecalculateCommanded(channel: int, func: Recalculate) returns (outcome: ConfigureOutcome)
      requires Valid()
      modifies motors
      ensures outcome == Rejected <==> channel < 0 || channel > Ports + 1
      ensures outcome == OutOfBounds <==> channel == 0 || channel == Ports + 1
      ensures outcome != Stored ==> motors[..] == old(motors[..])
      ensures outcome == Stored ==> 1 <= channel <= Ports
      ensures outcome == Stored ==>
        motors[..] == old(motors[..])[channel - 1 := old(motors[channel - 1]).(recalculate := func)]
    {
      if channel < 0 || channel > Ports + 1 {
        return Rejected;
      }
      var slot := channel - 1;
      if slot < 0 || slot >= Ports {
        return OutOfBounds;
      }
      motors[slot] := motors[slot].(recalculate := func);
      return Stored;
    }

    /**
     * One pass of MotorManagerTask over the ten ports at clock `now`.  A
     * port already at its command only has `lastUpdate` refreshed.  A port
     * off its command gets the ramped value when its lock is free
     * (`locks[k]`), with `lastUpdate` refreshed; when the lock is busy the
     * port is skipped entirely and `lastUpdate` keeps its old value.
     */
    method RampPass(now: int, locks: seq<bool>)
      requires Valid()
      requires |locks| == Ports
      modifies motors, outputs
      ensures forall k :: 0 <= k < Ports ==> motors[k].(lastUpdate := old(motors[k].lastUpdate)) == old(motors[k])
      ensures forall k :: 0 <= k < Ports ==>
        if old(outputs[k]) == old(motors[k].commanded) then
          outputs[k] == old(outputs[k]) && motors[k].lastUpdate == ToSigned32(now)
        else if locks[k] then
          outputs[k] == RampOutput(old(outputs[k]), old(motors[k].commanded), old(motors[k].skewPerMsec), Elapsed32(now, old(motors[k].lastUpdate)))
          && motors[k].lastUpdate == ToSigned32(now)
        else
          outputs[k] == old(outputs[k]) && motors[k].lastUpdate == old(motors[k].lastUpdate)
    {
      for k := 0 to Ports
        invariant forall q :: k <= q < Ports ==> motors[q] == old(motors[q]) && outputs[q] == old(outputs[q])
        invariant forall q :: 0 <= q < k ==> motors[q].(lastUpdate := old(motors[q].lastUpdate)) == old(motors[q])
        invariant forall q :: 0 <= q < k ==>
          if old(outputs[q]) == old(motors[q].commanded) then
            outputs[q] == old(outputs[q]) && motors[q].lastUpdate == ToSigned32(now)
          else if locks[q] then
            outputs[q] == RampOutput(old(outputs[q]), old(motors[q].commanded), old(motors[q].skewPerMsec), Elapsed32(now, old(motors[q].lastUpdate)))
            && motors[q].lastUpdate == ToSigned32(now)
          else
            outputs[q] == old(outputs[q]) && motors[q].lastUpdate == old(motors[q].lastUpdate)
      {
        if outputs[k] != motors[k].commanded {
          var current := outputs[k];
          var command := motors[k].commanded;
          var skew := motors[k].skewPerMsec;
          var elapsed := Elapsed32(now, motors[k].lastUpdate);
          var out := RampOutput(current, command, skew, elapsed);
          if !locks[k] {
            continue;
          }
          outputs[k] := out;
        }
        motors[k] := motors[k].(lastUpdate := ToSigned32(now));
      }
    }
  }

  /**
   * Every value MotorSet can leave as a command is within the PWM range:
   * a configured slot stores the clamped value, an unconfigured one 0.
   */
  lemma {:induction false} CommandInRange(m: Motor, request: int)
    requires m.inverted == 0 || m.inverted == 1
    ensures Abs(Command(m, Saturate(request, PwmMax)).commanded) <= PwmMax
  {
    var s := Saturate(request, PwmMax);
    if m.commanded != s {
      if m.inverted == 0 {
        assert s * m.inverted == 0;
      } else {
        assert s * m.inverted == s;
      }
    }
  }
}
