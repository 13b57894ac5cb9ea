# Olympic Steel Eagles robot code — a verified model of its control core

This project models, in Dafny, the decision and control logic of the
"ose" VEX robot code.

Two libraries are covered:

- **libsml**:
  - the single-loop PID controller;
  - the Smart Motor Library's ten-slot motor table and its output ramp;
  - the master/slave synchronising controller.
- **liblcd**:
  - text layout and scrolling on the 16x2 LCD;
  - the rotating menu;
  - the LCD manager's two cycle-text tables.

It also covers the robot-specific code of two robots, "vulcan" and "dios":

- the lift interlock and filtered potentiometers;
- tank and mecanum chassis commands;
- goal and line-alignment loops;
- press-once buttons;
- joystick sector dispatch.

## How the model is built

- **Pure decisions** are functions. Examples: clamps, sector tables, wheel
  mixing, the PID step's integral and output.
- **State changed in place** is a class:
  - PID controller records;
  - the motor table and output arrays;
  - the master/slave record;
  - the button flags;
  - the potentiometer window;
  - the menu;
  - the cycle-text tables.

  Each method's contract ties the new state to those functions.
- **Loops** are methods with invariants. Examples: the PID run to
  completion, the chassis goal and alignment loops, the LCD scroll, the
  free-slot scan. Each is proved against a specification function, such
  as CountGood, AlignRun, LeftFrame or FirstFree.
- **C arithmetic** is modelled explicitly:
  - in module `Numeric`, `(int)` casts and `/` truncate toward zero and
    `unsigned long` clock differences wrap modulo 2^32;
  - in module `LcdMenu`, the menu's `unsigned char` fields wrap modulo 256
    (`U8`).
- **Everything outside the code is a parameter or a result.** This covers
  hardware reads, the clock, the outcome of taking a mutex, and what is
  printed or sent to a motor.

## Behaviour of the source that the model keeps

- **MotorConfigure** stores `inverted ? 1 : -1` into a `bool`, so every
  configured motor has `inverted == 1`. A motor that was never configured
  has `inverted == 0`, and MotorSet then stores 0 as its command. The
  model keeps the C `bool` as the integer 0 or 1 and proves both cases.
- **Out-of-bounds accesses** are reported as a result instead of
  performed. There are four of them:
  - MotorConfigure and MotorChangeRecalculateCommanded accept channels 0
    and 11;
  - initButtons writes index 27 of a 27-entry array;
  - a centred 16-character string is copied past column 15;
  - addCycleText scans past a full table.
- **The right scroll** of `lcdprint_d` copies each column from its
  right-hand neighbour while walking from column 15 down. Every column
  therefore ends up holding the old column 15. Only the first frame shows
  the string; every later frame is fifteen copies of one character
  followed by another.
- **The equalizer correction** is added to the slave's output only
  (libsml/MasterSlavePIDController.c:39); the master's output never sees
  it. MasterIndependentOfEqualizer states the consequence.
- **MasterSlavePIDChangeGoal** assigns the master's goal twice and never
  the slave's. It also bypasses the PID goal reset: ChangeGoal leaves the
  slave's goal and the master's integral as they were.
- **Line 2 of the LCD manager** tests slot `j` but always prints slot 2.
- **ChassisSet** clamps each side on its own rather than keeping the
  left/right ratio.
- **The dios sector bucketing** never returns 180, because its 180 ranges
  compare hundredths of a degree with 180. The two branches that test for
  180 are therefore dead.

## Model

| member | source | states |
|---|---|---|
| Pid.StepTolerance | libsml/SingleThreadPIDController.c:125 | the band the step uses is the magnitude of the unsigned tolerance read back as an int; for tolerances in [0, 2^31) it is the tolerance itself |
| Pid.NextIntegral | libsml/SingleThreadPIDController.c:120-126 | inside the tolerance band the integral is 0; otherwise it lies in [MinIntegral, MaxIntegral] when Min <= Max, and equals the running sum when that is in range or the bound it crossed |
| Pid.Denominator | libsml/SingleThreadPIDController.c:129-130 | the derivative's divisor is a 32-bit unsigned value |
| Pid.Derivative | libsml/SingleThreadPIDController.c:129-130 | the derivative is non-negative and is the floor of abs(error change) over the divisor; it is defined only for a non-zero divisor |
| Pid.DerivativeVanishes | libsml/SingleThreadPIDController.c:129-130 | when no wrap occurs the divisor is elapsed microseconds times 10^6, so any error change smaller than that gives a derivative of 0 |
| Pid.StepOutput | libsml/SingleThreadPIDController.c:132-136 | the output is 0 whenever the error is inside the tolerance band |
| Pid.ProportionalOnly | libsml/SingleThreadPIDController.c:132-136 | with Ki = Kd = 0 the output outside the band is Kp times the error, truncated toward zero |
| Pid.OutputFollowsErrorSign | libsml/SingleThreadPIDController.c:132 | non-negative gains, error and integral never give a negative output |
| Pid.ToleranceBands | libsml/SingleThreadPIDController.c:162 | the on-target test and the step use the same band for tolerances in [0, 2^31); a negative tolerance is stored as a huge unsigned value |
| Pid.PIDController.Create | libsml/SingleThreadPIDController.c:65-78 | stores the gains, the limits and the tolerance as an unsigned int, with goal 0 |
| Pid.PIDController.Copy | libsml/MasterSlavePIDController.c:76-78 | a by-value struct copy carries every field over |
| Pid.PIDController.Reset | libsml/SingleThreadPIDController.c:86-91 | goal, integral and previous error become 0; gains, limits, tolerance and previous time are unchanged |
| Pid.PIDController.Computer | libsml/SingleThreadPIDController.c:118-142 | the new integral is NextIntegral and the output is StepOutput; the error and the time are stored whichever branch is taken; goal and constants are unchanged |
| Pid.PIDController.Compute | libsml/SingleThreadPIDController.c:101-104 | a step on the error Goal - input |
| Pid.PIDController.ExecuteContinuous | libsml/SingleThreadPIDController.c:159-165 | reports true iff the reading taken after the output is applied is strictly within the tolerance of the goal; the step is that of Compute, and the output handed to the actuator is its output (Stepped) |
| Pid.PIDController.ExecuteCompletion | libsml/SingleThreadPIDController.c:180-184 | every cycle run before the last was on target; it stops exactly at the first off-target cycle (exited) or after all readings, all on target; the integral, previous error and previous time at the end are Run over the cycles run from the state at the call, and the outputs handed to the actuator are Outputs of those cycles; goal and constants are unchanged |
| Pid.PIDController.SetGoal | libsml/SingleThreadPIDController.c:196-202 | the same goal changes nothing; a new goal leaves Goal = goal, integral = 0, prevError = 0; the running state is AfterSetGoal of the old one |
| Pid.Run | libsml/SingleThreadPIDController.c:118-142 | the running state after one step per cycle: after at least one step the previous error is the goal minus the last cycle's reading, the previous time is the last clock reading as an unsigned long, and the integral is 0 or within [MinIntegral, MaxIntegral] when Min <= Max; no cycles leave the state as it was |
| Pid.Outputs | libsml/SingleThreadPIDController.c:161 | one output per cycle run |
| Pid.OutputsAt | libsml/SingleThreadPIDController.c:161 | the k-th output handed to the actuator is the output of one step from the running state the first k cycles leave, and that step's clock is usable |
| Pid.RunSnoc | libsml/SingleThreadPIDController.c:182-183 | one more cycle extends the running state by one step and the outputs by that step's output |
| SmartMotor.DefaultRecalculate | libsml/SmartMotorLibrary.c:29-32 | the identity |
| SmartMotor.ToBool | include/sml/SmartMotorLibrary.h:109 | storing an int into the bool field gives 1 exactly for non-zero values |
| SmartMotor.StoredInversion | libsml/SmartMotorLibrary.c:176 | whatever inversion is asked for, the stored value is 1 |
| SmartMotor.ReadSign | libsml/SmartMotorLibrary.c:144 | the read sign is 1 iff the stored bool is non-zero, else -1 |
| SmartMotor.Command | libsml/SmartMotorLibrary.c:123-125 | the command is kept when it equals the clamped request, else it becomes request * inverted; nothing else in the record changes |
| SmartMotor.SetThenGet | libsml/SmartMotorLibrary.c:108-144 | a configured motor reads back exactly the clamped value it was set to; an unconfigured one reads back 0 |
| SmartMotor.CommandInRange | libsml/SmartMotorLibrary.c:108-125 | every command MotorSet stores has magnitude at most 127 |
| SmartMotor.Configured | libsml/SmartMotorLibrary.c:175-178 | a configured slot has the channel, inverted = 1, the skew and the identity recalculation; command and last update stay |
| SmartMotor.ConfigureIgnoresInversion | libsml/SmartMotorLibrary.c:176 | configuring with inverted = true and with inverted = false stores the same record |
| SmartMotor.ApproachBetween | libsml/SmartMotorLibrary.c:72-75 | with a non-negative allowance the new output lies between the old output and the command and differs from the old output by at most the allowance; while the gap is at least the allowance it moves by exactly the allowance truncated toward zero, toward the command; it reaches the command when the gap is within the allowance, and strictly closes the gap when the allowance is at least 1 |
| SmartMotor.RampNeverOvershoots | libsml/SmartMotorLibrary.c:72-75 | a ramp step never passes the command and never moves by more than skew * elapsed; while the gap is at least skew * elapsed it moves toward the command by exactly skew * elapsed truncated toward zero, and it snaps to the command when the gap is below that |
| SmartMotor.ZeroSkewNeverMoves | libsml/SmartMotorLibrary.c:72-75 | with skew 0 (an unconfigured slot) an output off its command never moves |
| SmartMotor.RampConverges | libsml/SmartMotorLibrary.c:66-84 | with at least one PWM step allowed per pass, the output reaches the command within abs(gap) passes |
| SmartMotor.MotorLibrary.constructor | libsml/SmartMotorLibrary.c:18 | the static table starts zeroed and every port stopped |
| SmartMotor.MotorLibrary.InitializeMotorManager | libsml/SmartMotorLibrary.c:37-45 | every slot gets the identity recalculation and nothing else changes |
| SmartMotor.MotorLibrary.MotorSet | libsml/SmartMotorLibrary.c:104-128 | fails iff the channel is outside [1,10] or an immediate set cannot take the lock, and then changes nothing; otherwise only the addressed slot's command and (when immediate) output change, by Command and the clamped value times inverted |
| SmartMotor.MotorLibrary.MotorGet | libsml/SmartMotorLibrary.c:138-145 | 0 outside [1,10]; otherwise the command's magnitude, and the command itself for a configured slot |
| SmartMotor.MotorLibrary.MotorConfigure | libsml/SmartMotorLibrary.c:168-179 | rejects channels below 0 or above 11; flags 0 and 11 as out of bounds; for 1..10 writes Configured into that slot alone |
| SmartMotor.MotorLibrary.MotorChangeRecalculateCommanded | libsml/SmartMotorLibrary.c:220-228 | the same guard as MotorConfigure; stores the function in the addressed slot only |
| SmartMotor.MotorLibrary.RampPass | libsml/SmartMotorLibrary.c:64-85 | a port at its command only has lastUpdate refreshed; a port off its command gets RampOutput when its lock is free; a busy lock skips the port, lastUpdate included; only lastUpdate changes in the records |
| MasterSlave.JointDivisor | libsml/MasterSlavePIDController.c:41-45 | the divisor is at least 127 and at least each magnitude, and is one of them |
| MasterSlave.JointScaleBounds | libsml/MasterSlavePIDController.c:47-50 | over exact reals, both scaled outputs are within +-127, keep their signs and do not grow; a pair within range passes unchanged; an out-of-range dominant side ends at exactly +-127 |
| MasterSlave.CycleOutputs | libsml/MasterSlavePIDController.c:36-50 | the two outputs of a cycle are within +-127 |
| MasterSlave.ManualModeSynchronised | libsml/MasterSlavePIDController.c:36-37 | in manual mode with no equalizer correction both sides receive the same value |
| MasterSlave.EqualizerCorrectsSlaveOnly | libsml/MasterSlavePIDController.c:39 | within range, the master gets its own value untouched and the slave its value plus the equalizer result |
| MasterSlave.MasterIndependentOfEqualizer | libsml/MasterSlavePIDController.c:39-49 | while the master side dominates, the equalizer result does not change the master's output |
| MasterSlave.MasterSlaveController.Create | libsml/MasterSlavePIDController.c:73-81 | the three controllers are copied by value into fresh records (SameRecord: every field equal to the argument's), with the mode given |
| MasterSlave.MasterSlaveController.Initialize | libsml/MasterSlavePIDController.c:94-103 | both goals become the primary goal and the manual output 0; the constants, integrals, previous errors and times of both controllers and the mode are unchanged |
| MasterSlave.MasterSlaveController.Cycle | libsml/MasterSlavePIDController.c:34-50 | without the lock nothing changes; otherwise, in closed loop, master and slave each take exactly one Compute step from their state before the call (Stepped), in manual mode both are untouched; the equalizer steps every time; the outputs are CycleOutputs of the results |
| MasterSlave.MasterSlaveController.StepPrimaries | libsml/MasterSlavePIDController.c:36-37 | in closed loop each side's output is its own PID step from its state before the call (Stepped); in manual mode both outputs are the manual output and neither controller changes |
| MasterSlave.MasterSlaveController.ScaleOutputs | libsml/MasterSlavePIDController.c:41-50 | the loop-free max and scale compute JointScale |
| MasterSlave.MasterSlaveController.ChangeGoal | libsml/MasterSlavePIDController.c:114-125 | with the lock, closed loop is enabled and the master's goal set; the slave's goal, the master's constants, integral, previous error and time are not touched |
| MasterSlave.MasterSlaveController.IncreaseGoal | libsml/MasterSlavePIDController.c:137-157 | with the lock, coming from manual both goals are first set from two master readings; then delta is added to both goals and closed loop is on; the rest of both controllers is unchanged |
| MasterSlave.MasterSlaveController.SetOutput | libsml/MasterSlavePIDController.c:168-178 | with the lock, manual mode with the given output; the controllers are untouched |
| Lift.SideCommand | vulcan/Lift.c:35-55 | driving down onto the pressed bottom switch or up onto the pressed top switch sends 0 immediately, and only then; otherwise the request is capped at 100 and keeps the caller's immediate flag |
| Lift.LiftSet | vulcan/Lift.c:214-220 | both sides get the same command, within [-90, 100]; values below -90 become -90 |
| Lift.SumBounds | vulcan/Lift.c:69-71 | a window of samples in [lo, hi] sums to between n * lo and n * hi |
| Lift.AverageWithinSamples | vulcan/Lift.c:73 | the truncated average of the ten samples lies within their range |
| Lift.Sample | vulcan/Lift.c:68 | the left sample is zero - raw and the right one raw - zero |
| Lift.Potentiometer.constructor | vulcan/Lift.c:64-65 | zero point 1435 on the left and -210 on the right; the window starts at zero |
| Lift.Potentiometer.Read | vulcan/Lift.c:62-82 | the window drops its oldest sample and appends the new one; the result is the window's sum / 10 truncated toward zero; with the bottom switch pressed the zero point is re-taken and the result is 0 |
| Lift.PotentiometerDifference | vulcan/Lift.c:243-246 | the right calibrated reading minus the left one, each window advanced by its new sample; with the bottom switch up the zero points stay, with it pressed both are re-taken and the difference is 0 |
| Lift.LiftSetHeight | vulcan/Lift.c:228-232 | the controller's goal becomes the value, resetting integral and previous error when new and keeping them when not; constants and time are kept; the result is always false |
| VulcanChassis.ChassisSetSide | vulcan/Chassis.c:33-40 | the speed is saturated to +-127, passes unchanged when in range, and goes to both motors of the side |
| VulcanChassis.ChassisSet | vulcan/Chassis.c:152-167 | each side is saturated on its own and sent to its front and rear motors |
| VulcanChassis.ChassisSetLosesRatio | vulcan/Chassis.c:156-160 | a request of (254, 127) drives both sides at 127 |
| VulcanChassis.IRThreshold | vulcan/Chassis.c:68-79 | the threshold is 700 on grey and 200 on red and blue |
| VulcanChassis.HasIRLine | vulcan/Chassis.c:68-79 | a line is seen iff the reading is below the tile's threshold |
| VulcanChassis.GetIMERight | vulcan/Chassis.c:103-108 | the right encoder count is negated |
| VulcanChassis.GoToGoalContinuous | vulcan/Chassis.c:229-236 | each side is given its goal by SetGoal and then takes one step (GoalSetAndStepped), the outputs being returned; the result is the conjunction of both on-target tests |
| VulcanChassis.CountGood | vulcan/Chassis.c:255-258 | the good-cycle count is at most the number of cycles |
| VulcanChassis.CountGoodAppend | vulcan/Chassis.c:255-258 | good cycles add up across a run: off-target cycles never reset the count |
| VulcanChassis.GoalStep | vulcan/Chassis.c:257 | each side takes exactly one step from its state before the cycle (Stepped); the cycle is good iff both sides end on target |
| VulcanChassis.GoToGoalCompletion | vulcan/Chassis.c:248-261 | both goals are set, then the loop runs until 50 good cycles (not necessarily consecutive) or the end of the readings; the count is CountGood of the cycles run, and the last cycle is the 50th good one; each controller's running state is Run over its side of the cycles run from the state SetGoal left, and the outputs handed to each side are Outputs of those cycles (Tracks) |
| VulcanChassis.StepToGoodCycles | vulcan/Chassis.c:253-260 | the loop from the controllers' current state: the same count, stopping and Tracks facts, with goals and constants unchanged |
| VulcanChassis.TrackedGoalStep | vulcan/Chassis.c:257-258 | one loop cycle: both sides step once, each extending its run and outputs by that cycle; the cycle is good iff both end on target |
| VulcanChassis.TrackCountsEdges | vulcan/Chassis.c:296-308 | hasHad is the last reading, and hasPassed holds iff the side crossed onto the line an odd number of times |
| VulcanChassis.SideSpeed | vulcan/Chassis.c:310-318 | a side on the line stops; otherwise it drives at its saturated initial speed, reversed while hasPassed |
| VulcanChassis.AlignRunTracks | vulcan/Chassis.c:294-320 | after k cycles each side's flags are those of its readings and the good count is the number of both-on-line cycles |
| VulcanChassis.AlignRunPrefix | vulcan/Chassis.c:294-324 | later cycles only append commands |
| VulcanChassis.AlignRunLast | vulcan/Chassis.c:310-318 | the command of the last cycle run is each side's SideSpeed from its flags after that cycle |
| VulcanChassis.AlignCommand | vulcan/Chassis.c:296-318 | the command of cycle j per side: 0 on the line, else the saturated initial speed, reversed after an odd number of crossings |
| VulcanChassis.UpdateSide | vulcan/Chassis.c:296-301 | one side's flag update is TrackStep |
| VulcanChassis.SideCommand | vulcan/Chassis.c:310-313 | one side's command is SideSpeed |
| VulcanChassis.AlignToLine | vulcan/Chassis.c:284-326 | the loop finishes exactly when 20 (not necessarily consecutive) both-on-line cycles are reached, the previous cycle being below 20; the commands sent are AlignRun's, followed by a stop when it finishes |
| DiosChassis.ChassisSet | dios/Chassis.c:30-46 | each side is saturated to +-127 on its own, passes unchanged in range, and goes to both of its motors |
| DiosChassis.Diagonal | dios/Chassis.c:71-72 | a diagonal speed is no faster than the speed |
| DiosChassis.Mix | dios/Chassis.c:74-77 | front right and rear left share the right diagonal, rear right and front left the left one, with rotation added on the right and subtracted on the left |
| DiosChassis.ScaleDivisor | dios/Chassis.c:79-87 | the divisor is at least 127 and every wheel's magnitude, and is one of them |
| DiosChassis.ScaleBounds | dios/Chassis.c:89-94 | over exact reals, every wheel ends within +-127, keeps its direction and does not speed up; a mix within range passes unchanged, else the fastest wheel runs at +-127 |
| DiosChassis.MecanumInRange | dios/Chassis.c:64-95 | every mecanum wheel command is within +-127 |
| DiosChassis.TranslationUnscaled | dios/Chassis.c:64-95 | with no rotation each wheel gets its diagonal speed unscaled |
| DiosChassis.RotationInPlace | dios/Chassis.c:64-95 | with speed 0 the chassis spins in place at the saturated rotation |
| Joystick.AJoy | vulcan/mechop.c:91-94 | aJoy is non-negative, the truncated mean of the two magnitudes, and at most the larger one |
| VulcanMechop.ThetaSector | vulcan/mechop.c:74-79 | the sector is the rounded milliradians divided by 393 truncated toward zero: same sign, magnitude the floor quotient |
| VulcanMechop.SectorRange | vulcan/mechop.c:78 | angles in [-pi, pi] fall in sectors -7..7; sector 0 spans (-393, 393); mirrored angles give mirrored sectors |
| VulcanMechop.Decide | vulcan/mechop.c:146-207 | each branch is characterised exactly: tank iff both sector magnitudes are in {3,4}, strafe right iff both in {0,1}, strafe left iff both in {6,7}, each diagonal iff both sectors are in its pair and the earlier strafe row does not match |
| VulcanMechop.Control | vulcan/mechop.c:139-143 | all four axes inside the dead zone stop the chassis |
| VulcanMechop.ControlShape | vulcan/mechop.c:145-238 | outside the dead zone the command is tank (l3, r2) or a mecanum heading without rotation; strafing runs at aJoy(l4, r1), diagonals at the hypotenuse, and the default is tank (l3, r2) |
| VulcanMechop.FirstMatchWins | vulcan/mechop.c:153-188 | both sticks in sector 1 strafe rather than go north-east; both in 6 strafe left rather than north-west |
| DiosMechop.SectorValues | dios/mechop.c:83-105 | the sector is one of 0, +-45, +-90, +-135, -1; never 180; -1 iff beyond +-157.50 degrees; mirrored; within 22.50 degrees of the angle |
| DiosMechop.Decide | dios/mechop.c:165-171 | (90,90) is forward, (-90,-90) backward and (0,0) strafe right, each exactly |
| DiosMechop.Corrected | dios/mechop.c:192-196 | the strafing correction is the identity below 254 and 0 from 254 to 507 |
| DiosMechop.StraightAndSpin | dios/mechop.c:165-178 | the straight and spin sector pairs drive (a,a), (-a,-a), (a,-a) and (-a,a) with a = aJoy(r1, l4); an unmatched pair stops |
| DiosMechop.DeadBranches | dios/mechop.c:172-173 | with sectors thetaSector can produce, the strafe-left branches are never taken |
| DiosMechop.StrafeRightUncorrected | dios/mechop.c:192-193 | for joystick values the strafe-right branch sends (l3, l3) |
| Buttons.GroupLocation | vulcan/buttons.c:82-134 | each of the twelve buttons lies in group 5 to 8; buttons 0 to 3 alternate down/up in groups 5 and 6 |
| Buttons.ButtonSource | vulcan/buttons.c:62-147 | indices 0-11 read joystick 1, 12-23 joystick 2 at index - 12, 24-26 the LCD left, centre and right buttons |
| Buttons.JoystickSourcesDistinct | vulcan/buttons.c:62-135 | different joystick indices read different buttons |
| Buttons.CheckStep | vulcan/buttons.c:149-157 | a new press only while down, and the flag afterwards is the level |
| Buttons.ChecksAreRisingEdges | vulcan/buttons.c:149-157 | checking once per cycle reports exactly the rising edges of the level |
| Buttons.HeldButtonFiresOnce | vulcan/buttons.c:152-157 | a button held across two checks fires on the first only |
| Buttons.ButtonFlags.constructor | vulcan/buttons.c:28 | the static flags start false |
| Buttons.ButtonFlags.InitButtons | vulcan/buttons.c:33-37 | every flag is cleared and the write to index 27 is reported as an overrun |
| Buttons.ButtonFlags.IsNewPress | vulcan/buttons.c:56-158 | the result and the new flag are CheckStep of the button's level; only that button's flag changes |
| LcdFunctions.Strlen | liblcd/LCDFunctions.c:29-34 | the count of characters before the first NUL |
| LcdFunctions.Subtract | liblcd/LCDFunctions.c:45-49 | a - b when a > b, else 0; never wraps |
| LcdFunctions.DrainIsFloored | liblcd/LCDFunctions.c:115 | charging 175 ms per frame, frame by frame, is the whole charge floored at 0 |
| LcdFunctions.CenterStart | liblcd/LCDFunctions.c:151 | centred text starts at (16 - len) / 2 for shorter strings and at 8 for a 16-character one |
| LcdFunctions.JustifiedRows | liblcd/LCDFunctions.c:143-158 | right and centred rows are 16 wide and hold the text unchanged, with centring padding differing by at most one |
| LcdFunctions.Justify | liblcd/LCDFunctions.c:142-164 | the row printed is Layout; the copy overruns the row exactly for a centred 16-character string |
| LcdFunctions.ScrollLeft | liblcd/LCDFunctions.c:119-135 | len - 14 frames, frame k being the 16 characters of the NUL-terminated string from k, so the last ends with the NUL |
| LcdFunctions.LeftFramesAreFrames | liblcd/LCDFunctions.c:126-135 | the accumulated frames are exactly the left-scroll frames |
| LcdFunctions.LeftFrameNext | liblcd/LCDFunctions.c:129-132 | the next frame drops column 0 and appends the next character |
| LcdFunctions.ShiftLeft | liblcd/LCDFunctions.c:129-132 | the shift leaves the old row from column 1, then the new character |
| LcdFunctions.ScrollRight | liblcd/LCDFunctions.c:100-116 | len - 14 frames: the last 16 characters, then frames of fifteen copies of the previous column-15 character and the next character leftward |
| LcdFunctions.ShiftRight | liblcd/LCDFunctions.c:109-112 | the shift leaves fifteen copies of the old column 15, then the new character |
| LcdFunctions.ScrollRightSmears | liblcd/LCDFunctions.c:106-112 | on "ABCDEFGHIJKLMNOPQ" the second frame is fifteen Qs and a B |
| LcdFunctions.Print | liblcd/LCDFunctions.c:83-174 | for a C string (no NUL inside), fails and prints nothing iff the line is not 1 or 2 or its lock is not taken; short strings print one Layout row; long ones scroll; the wait is the duration less 450 and 175 per later frame, floored at 0 |
| LcdMenu.ShiftedIndex | liblcd/lcdmenu.c:66 | the new index always fits an unsigned char |
| LcdMenu.ShiftStaysInMenu | liblcd/lcdmenu.c:63-69 | with a non-negative sum the new index is in the menu and is the old one moved by shift round numTitles |
| LcdMenu.RightThenLeft | liblcd/lcdmenu.c:60-66 | LCD_RIGHT then LCD_LEFT restores the index |
| LcdMenu.LeftThenRight | liblcd/lcdmenu.c:60-66 | LCD_LEFT then LCD_RIGHT restores the index |
| LcdMenu.FullTurn | liblcd/lcdmenu.c:66 | shifting by numTitles leaves the index unchanged |
| LcdMenu.ShiftBelowRangeLeavesMenu | liblcd/lcdmenu.c:56-66 | a shift making the sum negative (and not a multiple) lands outside the menu, near 255 |
| LcdMenu.Menu.Create | liblcd/lcdmenu.c:22-34 | the count is stored as an unsigned char and both indices start at 0 |
| LcdMenu.Menu.Shift | liblcd/lcdmenu.c:63-69 | only the shown index changes, to ShiftedIndex |
| LcdMenu.Menu.Decide | liblcd/lcdmenu.c:77-81 | the chosen index becomes the shown one; nothing else changes |
| LcdManager.FirstFree | liblcd/LCDManager.c:74 | the scan stops at the first NULL slot, every slot before it being taken |
| LcdManager.FirstFreeUnique | liblcd/LCDManager.c:74 | any index with those two properties is the scan's stopping point |
| LcdManager.AddIndex | liblcd/LCDManager.c:74-75 | the written slot is in [0, 8) and is the first free one unless capped at 7 |
| LcdManager.AddKeepsPacked | liblcd/LCDManager.c:74-76 | adding to a packed table with room writes the first free slot, keeps it packed and keeps the taken slots |
| LcdManager.AddToFullReplacesLast | liblcd/LCDManager.c:74-76 | adding to a full table overwrites slot 7 only |
| LcdManager.Wrap | liblcd/LCDManager.c:37-41 | an index wraps to 0 once it reaches 8 |
| LcdManager.Rotate | liblcd/LCDManager.c:30-52 | after an iteration both indices are in [0, 8] |
| LcdManager.LineTwoShowsSlotTwo | liblcd/LCDManager.c:50-52 | line 2 only ever prints slot 2, calling NULL when slot 2 is empty |
| LcdManager.FullLineCycles | liblcd/LCDManager.c:30-46 | with line 1 full, the index moves on every 1750 ms, slot 7 to slot 0, and the slot's text is printed |
| LcdManager.EmptySlotSkipped | liblcd/LCDManager.c:44-46 | an empty line-1 slot prints nothing and moves the index on at once |
| LcdManager.CycleTexts.constructor | liblcd/LCDManager.c:17-23 | static storage: empty slots, counters 0 |
| LcdManager.CycleTexts.AddCycleText | liblcd/LCDManager.c:66-88 | lines 1 and 2 get Added, and a full table reports the over-read; line 0, a bad line or no lock change nothing; the other line never changes |
| LcdManager.CycleTexts.AddToLine | liblcd/LCDManager.c:74-76 | the scan and write produce Added; an over-read happens iff the table is full |
| LcdManager.CycleTexts.ReplaceCycleText | liblcd/LCDManager.c:90-107 | with the lock, a valid position and line 1 or 2, exactly that slot changes; otherwise nothing does |
| LcdManager.CycleTexts.RotationStep | liblcd/LCDManager.c:28-55 | the counters and what each line shows are Rotate's |
| LcdManager.CycleTexts.Tick | liblcd/LCDManager.c:30-41 | when 1750 ms have passed on the 32-bit clock the time is noted and both indices advance; then both wrap |
| LcdManager.CycleTexts.ShowLines | liblcd/LCDManager.c:44-52 | line 1 is LineOne and line 2 is LineTwo of the wrapped indices |
| Numeric.Trunc | vulcan/Lift.c:73 | a C cast of a real to int rounds toward zero: it is within one of the value and never further from zero |
| Numeric.ToUnsigned32 | libsml/SingleThreadPIDController.c:75 | storing an int into an unsigned int keeps non-negative values and adds 2^32 to negative ones |
| Numeric.ToSigned32 | libsml/SingleThreadPIDController.c:125 | reading an unsigned int back as an int keeps values below 2^31 and subtracts 2^32 from the rest |
| Numeric.ScaleToPwmIsQuotient | libsml/MasterSlavePIDController.c:47-50 | over exact reals, (int)(x * (127 / max)) is the truncating quotient x * 127 / max |
| Numeric.Saturate | vulcan/Chassis.c:35-36 | the clamp to +-bound passes in-range values and maps others to the nearer bound |
| Numeric.Quot | vulcan/mechop.c:78 | C's int division truncates toward zero |
| Numeric.Rem | liblcd/lcdmenu.c:66 | C's int remainder takes the dividend's sign and is below the divisor in magnitude |
| Numeric.Elapsed32 | liblcd/LCDManager.c:30 | an unsigned long clock difference wraps modulo 2^32 and is the plain difference when no wrap occurs |
| Numeric.TruncOfQuotient | vulcan/Lift.c:73 | (int)(n / (double)d) is C's truncating integer quotient |
| Numeric.ScaleToPwmBounds | libsml/MasterSlavePIDController.c:47-50 | over exact reals, scaling by 127 / max for max >= 127 and max >= abs(x) keeps the sign, stays within +-127 and abs(x), is the identity in range and gives +-127 at the max |

## Left out

- **Tasks, mutexes and delays.** This covers `taskCreate`/`taskDelete`,
  `mutexCreate`/`Take`/`Give`, `delay` and the endless task loops. One
  iteration of each task loop is modelled. Whether a lock was obtained is
  a boolean input. The LCD manager task ignores that outcome, as the
  source does. StopMotorManager only deletes a task and is not modelled.
- **Floating point.** Gains, skew and the cosines are `real`, and `(int)`
  casts truncate exactly. Rounding of `double` arithmetic is not modelled.
  The cosines, `atan`, `sqrt`, `roundf` and the averaged hypotenuse are
  inputs. One consequence: the joint scaling `(int)(x * (127.0 / max))`
  of the master/slave task and of the dios mecanum mix is proved over exact
  reals. In the program, `127.0 / max` is rounded, so a dominant output of,
  say, 158 scales to 126.99999999999999 and is truncated to 126, not 127.
- **Signed overflow.** `int` arithmetic is modelled without overflow,
  which is undefined behaviour in C. This covers the integral sum
  (libsml/SingleThreadPIDController.c:120), the equalizer addition
  (libsml/MasterSlavePIDController.c:39), the goal increase
  (libsml/MasterSlavePIDController.c:149-150) and `request * inverted` in
  MotorSet. The model's integers are unbounded there.
- **liftComputeCorrectedSpeedLeft/Right** are not modelled. They divide by
  elapsed seconds in floating point, and they are only referenced from
  commented-out code.
- **Hardware and clock reads** are parameters, one per call:
  - `motorGet`/`motorSet`, `analogRead`, `digitalRead`, `imeGet`,
    `joystickGet*`, `lcdReadButtons`, `millis`/`micros`.
  - Where the source reads the same sensor or clock twice in one call,
    both reads get the same value. The exceptions are the re-zeroing
    potentiometer read, the after-step PID read and the master reads in
    IncreaseGoal, which are separate inputs.
- **Printing.** `lcdPrint`, `lcdSetText`, `vex_vsprintf` and the
  `lcdprintf`/`lcdprint_df`/`lcdprintv` wrappers are out of scope.
  lcdprint_d returns the frames instead of printing them. The sensor
  reads the master/slave task prints are not modelled.
- **Function pointers.**
  - The PID `Execute`/`Call` hooks are outputs and inputs.
  - `RecalculateCommanded` is stored but never called.
  - A `GetText` pointer is identified by a number, and what it returns is
    not modelled.
  - lcdmenuDisplay and lcdmenuExecute only print or call through pointers.
  - VivaLaRevolucion is a static function that nothing calls.
- **Menu.Shift** requires `numTitles > 0`, because the source divides by
  it. It also requires `shift` to be a `signed char`, as declared.
- **Pid.PIDController.Computer** requires a non-zero derivative divisor,
  because the source divides by it unguarded. ExecuteCompletion,
  GoToGoalCompletion and the master/slave Cycle carry the same
  requirement for every clock reading, and so do Outputs and OutputsAt.
- **Uninitialised fields.** PIDControllerCreate leaves integral, previous
  error and previous time unset, and the master/slave record's manual
  output is unset until initialisation. The model leaves them
  unspecified.
- **Out-of-bounds accesses.** The writes and reads named above are
  reported through a result and not performed. What the source would
  overwrite is not modelled.
- **Loops to completion.** ExecuteCompletion, GoToGoalCompletion and
  AlignToLine run over a finite sequence of readings and stop when the
  readings run out. Non-termination of the source's loops is not modelled.
- **Operator control, autonomous scripts and initialisation.** These
  sequence the modelled operations. They include the IME reset, the
  scoring mechanism and the recorder.
