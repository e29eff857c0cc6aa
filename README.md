# Team 3128 robot-common: a verified Dafny model of the core

This project models the core of Team 3128's shared FRC robot library (Java)
and proves properties of that model:

- **RobotMath** (`RobotMath.dfy`): angle normalisation and angular distance,
  motor direction to a target, sign, clamping, the joystick threshold,
  angular-to-linear conversion, squares, integer powers, and rounding/floor/ceil
  to `int`. Java `double` is `real`. Java `int` is the subset type `Int32`, and
  wrap-around on overflow is explicit (`Wrap32`). Java's truncating `%` is
  written out (`JavaRem360`).
- **SRXTankDrive** (`SRXTankDrive.dfy`): the tank drive and its autonomous move
  commands.
  - Each lead Talon SRX is a record: control mode, last set value, sensor
    position, closed-loop error, reversed output.
  - Every call the drive makes on a Talon is appended to a call trace. Each
    method states the exact calls it makes and the resulting Talon state.
  - The cached control mode (`configuredForTeleop`) keeps the invariant that
    when it claims percent output, both Talons are in percent output.
- **NarwhalRobot** (`NarwhalRobot.dfy`): start-up and one iteration of the
  `startCompetition` loop.
  - The iteration is a state machine over the four "initialised" flags. It
    appends the hooks it runs to an event trace.
  - The driver station's report, the "new control data" bit
    (`nextPeriodReady`), and what the user's hooks produce are inputs.
- **NarwhalSRX** (`NarwhalSRX.dfy`): the `Reverse` flag table and the
  current/autonomous/teleop mode setters. A null mode is an `Option`; using one
  throws `NullPointerException`.
- **Direction** (`Direction.dfy`, module `Enums`): the two-value enum and its
  involutive `opposite`.
- **JavaSemantics** (`JavaSemantics.dfy`): shared helpers for Java's integer
  widths, truncating division and remainder, and an `Option`/`Result`
  representation of null and of thrown exceptions.

`Angle.ROTATIONS` is taken as 360 and `Angle.DEGREES` as 1, the library's
degree-based units. `Angle.java` is not part of this model.

Where the code does something its documentation does not promise, the drive
and the loop model the code as written. Corrected definitions sit beside the
as-written ones and are proved separately (see "## Findings"). In particular:

- the drive's arcade outputs go through the as-written `clampPosNeg1`, which
  does not clamp;
- the arc-turn command uses centimetres as its target;
- `getRobotAngle` uses the as-written heading formula.

A move command started before any teleop call never switches the Talons to
position mode. The cache starts out false, so `configureForAuto` does nothing.
`SRXTankDrive.MoveBeforeTeleop` shows this: the targets are set while the
Talons are still in percent output.

The command constructors store `msec` as the timeout. WPILib's
`Command(double)` takes seconds; the model records the value as passed.
`CmdMoveDistance.initialize` never uses `power`.

## Model

| member | source | states |
|---|---|---|
| RobotMath.NormalizeAngle | src/org/team3128/common/util/RobotMath.java:20-24 | the normalised angle lies in [0, 360) |
| RobotMath.NormalizeAngleIsFloorMod | src/org/team3128/common/util/RobotMath.java:22 | the double Java remainder equals the floor-modulo angle - 360*floor(angle/360), for every sign of the angle |
| RobotMath.NormalizeAngleUnique | src/org/team3128/common/util/RobotMath.java:20-24 | the result is the unique value in [0, 360) that differs from the angle by a whole number of turns |
| RobotMath.NormalizeAnglePeriodic | src/org/team3128/common/util/RobotMath.java:20-24 | adding any whole number of turns does not change the normalised angle |
| RobotMath.NormalizeAngleIdempotent | src/org/team3128/common/util/RobotMath.java:20-24 | normalising twice is normalising once |
| RobotMath.AngleDistance | src/org/team3128/common/util/RobotMath.java:35-46 | the short way is at most 180 degrees either way; the long way is the difference of the normalised angles; always strictly within one turn |
| RobotMath.AngleDistanceLands | src/org/team3128/common/util/RobotMath.java:35-46 | turning from angle1 by the distance lands on angle2, modulo a turn |
| RobotMath.GetMotorDirToTarget | src/org/team3128/common/util/RobotMath.java:85-93 | NONE iff the normalised angles are within 0.001; otherwise CW iff the angular distance to the target is positive |
| RobotMath.Sgn | src/org/team3128/common/util/RobotMath.java:54-63 | 0 iff the input is 0, 1 for positive, -1 for negative input |
| RobotMath.SgnInt | src/org/team3128/common/util/RobotMath.java:65-73 | as written: 0 iff 0, 1 for positive, -1 for negative except INT_MIN, whose sign comes out as 1 |
| RobotMath.SgnIntOfIntMinIsPositive | src/org/team3128/common/util/RobotMath.java:72 | the as-written int sign of INT_MIN is +1 (Math.abs(INT_MIN) is INT_MIN) |
| RobotMath.SgnIntIntended | src/org/team3128/common/util/RobotMath.java:65-73 | corrected int sign: 0 iff 0, 1 for every positive, -1 for every negative input |
| RobotMath.ClampInt | src/org/team3128/common/util/RobotMath.java:102-109 | with sane bounds the result is within them, equals the value when it is within them, and is the violated bound otherwise; with inverted bounds it is the maximum |
| RobotMath.Clamp | src/org/team3128/common/util/RobotMath.java:118-121 | the same as ClampInt, over doubles |
| RobotMath.ClampIdempotent | src/org/team3128/common/util/RobotMath.java:118-121 | clamping a clamped value changes nothing |
| RobotMath.ClampPosNeg1 | src/org/team3128/common/util/RobotMath.java:129-132 | as written: returns its argument unchanged (the clamp's result is discarded) |
| RobotMath.ClampPosNeg1LeavesTwo | src/org/team3128/common/util/RobotMath.java:129-132 | 2.0 passes through the as-written clamp unchanged, while the corrected clamp gives 1.0 |
| RobotMath.ClampPosNeg1Intended | src/org/team3128/common/util/RobotMath.java:123-132 | corrected: the result lies in [-1, 1], equals the input inside it, and saturates at the violated bound outside it |
| RobotMath.Thresh | src/org/team3128/common/util/RobotMath.java:142-149 | the result is 0 or the value; it is 0 when the magnitude is below the threshold's, and the value is kept otherwise |
| RobotMath.ThreshIdempotent | src/org/team3128/common/util/RobotMath.java:142-149 | applying the threshold twice is applying it once |
| RobotMath.AngularDistToLinear | src/org/team3128/common/util/RobotMath.java:159-162 | a full turn covers one circumference, no turn covers nothing |
| RobotMath.AngularDistToLinearAdditive | src/org/team3128/common/util/RobotMath.java:159-162 | the conversion is additive in the angle |
| RobotMath.Square | src/org/team3128/common/util/RobotMath.java:174-177 | the square is non-negative and equals the product of the magnitudes |
| RobotMath.SquareInt | src/org/team3128/common/util/RobotMath.java:184-187 | exact and non-negative whenever the magnitude is at most 46340 |
| RobotMath.SquareIntWraps | src/org/team3128/common/util/RobotMath.java:184-187 | 65536 squared wraps to 0 in 32-bit arithmetic |
| RobotMath.PowAdd | src/org/team3128/common/util/RobotMath.java:229-238 | n^(a+b) = n^a * n^b for the reference power function |
| RobotMath.WrappedPowStep | src/org/team3128/common/util/RobotMath.java:234-235 | multiplying the wrapped power by n and wrapping again gives the wrapped next power |
| RobotMath.IntPow | src/org/team3128/common/util/RobotMath.java:229-238 | the loop returns number^power wrapped to 32 bits, and 1 for every power <= 0 |
| RobotMath.IntPowReal | src/org/team3128/common/util/RobotMath.java:245-254 | the loop returns number^power, and 1 for every power <= 0 |
| RobotMath.MathRound | src/org/team3128/common/util/RobotMath.java:264 | Math.round: within the long range the result is within 0.5 of d, ties rounding up; below or above it, the result saturates at Long.MIN_VALUE or Long.MAX_VALUE |
| RobotMath.Round | src/org/team3128/common/util/RobotMath.java:262-272 | as written: rounds half up when the result fits in (-2^31, 2^31); throws IllegalArgumentException above it and for -2^31 and below down to the long range; returns 0 once Math.round saturates at Long.MIN_VALUE |
| RobotMath.RoundAtTheEdges | src/org/team3128/common/util/RobotMath.java:266-271 | round(-2147483648.0) throws although the result fits in an int, and round(-1e19) returns 0 |
| RobotMath.RoundIntended | src/org/team3128/common/util/RobotMath.java:256-272 | corrected: succeeds iff the rounded value fits in an int, then is within 0.5 of d; throws IllegalArgumentException otherwise |
| RobotMath.Ceil | src/org/team3128/common/util/RobotMath.java:304-313 | as written: throws iff the ceiling exceeds INT_MAX; otherwise the ceiling, saturated to INT_MIN below the int range |
| RobotMath.Floor | src/org/team3128/common/util/RobotMath.java:321-331 | as written: throws iff the floor exceeds INT_MAX; otherwise the floor, saturated to INT_MIN below the int range |
| RobotMath.FloorCeilBelowRange | src/org/team3128/common/util/RobotMath.java:307-312 | floor(-1e10) and ceil(-1e10) both return INT_MIN instead of throwing |
| RobotMath.CeilIntended | src/org/team3128/common/util/RobotMath.java:298-313 | corrected: succeeds iff the ceiling fits in an int, and then is the least int not below d |
| RobotMath.FloorIntended | src/org/team3128/common/util/RobotMath.java:315-331 | corrected: succeeds iff the floor fits in an int, and then is the greatest int not above d |
| RobotMath.CastWholeToInt | src/org/team3128/common/util/RobotMath.java:312 | the (int) cast keeps every whole number in the int range |
| RobotMath.Abs | src/org/team3128/common/util/RobotMath.java:384-387 | the result is non-negative and is the number or its negation |
| RobotMath.AbsInt | src/org/team3128/common/util/RobotMath.java:374-377 | non-negative and equal to the number or its negation, except INT_MIN, which maps to itself |
| Enums.Direction.Opposite | src/org/team3128/common/util/enums/Direction.java:13-15 | the opposite differs from the direction: RIGHT gives LEFT and LEFT gives RIGHT |
| Enums.OppositeInvolution | src/org/team3128/common/util/enums/Direction.java:13-15 | the opposite of the opposite is the direction itself |
| NarwhalSRX.FromFlags | src/org/team3128/common/hardware/motor/NarwhalSRX.java:13-17 | every (inverted, sensor phase) pair is the flag pair of a mode: the table covers all four combinations |
| NarwhalSRX.Reverse.Inverted | src/org/team3128/common/hardware/motor/NarwhalSRX.java:13-19 | the setInverted column of the table: true for OUTPUT and BOTH, false for NONE and ENCODER |
| NarwhalSRX.Reverse.SensorPhase | src/org/team3128/common/hardware/motor/NarwhalSRX.java:13-19 | the setSensorPhase column of the table: true for ENCODER and BOTH, false for NONE and OUTPUT |
| NarwhalSRX.Reverse.Name | src/org/team3128/common/hardware/motor/NarwhalSRX.java:13-30 | getName returns the mode's display name, a non-empty capitalised word |
| NarwhalSRX.NamesDistinct | src/org/team3128/common/hardware/motor/NarwhalSRX.java:13-17 | no two modes share a display name |
| NarwhalSRX.FlagsDetermineMode | src/org/team3128/common/hardware/motor/NarwhalSRX.java:13-17 | two modes with the same flags are the same mode: the table is one-to-one |
| NarwhalSRX.FromFlagsOfMode | src/org/team3128/common/hardware/motor/NarwhalSRX.java:13-26 | recovering a mode from its flags gives back the mode |
| NarwhalSRX.NarwhalSrx.constructor | src/org/team3128/common/hardware/motor/NarwhalSRX.java:53-57 | current mode NONE, no autonomous or teleop mode, and the controller keeps the inversion and sensor phase it was built with, since no mode has been applied |
| NarwhalSRX.NarwhalSrx.WithModes | src/org/team3128/common/hardware/motor/NarwhalSRX.java:44-51 | the autonomous mode is stored and the teleop mode is applied as the current mode with its flags; the stored teleop mode stays unset, whatever flags the controller had before |
| NarwhalSRX.NarwhalSrx.SetReverseMode | src/org/team3128/common/hardware/motor/NarwhalSRX.java:64-69 | the current mode becomes the argument and the controller's flags become the mode's; a null mode is stored and then throws NullPointerException before the flags change |
| NarwhalSRX.NarwhalSrx.SetAutnomousReverseMode | src/org/team3128/common/hardware/motor/NarwhalSRX.java:71-73 | stores the autonomous mode, nothing else changes |
| NarwhalSRX.NarwhalSrx.SetTeleopReverseMode | src/org/team3128/common/hardware/motor/NarwhalSRX.java:75-77 | stores the teleop mode, nothing else changes |
| NarwhalSRX.NarwhalSrx.ConfigureAutonomous | src/org/team3128/common/hardware/motor/NarwhalSRX.java:79-81 | applies the stored autonomous mode, throwing NullPointerException when none is stored |
| NarwhalSRX.NarwhalSrx.ConfigureTeleop | src/org/team3128/common/hardware/motor/NarwhalSRX.java:83-85 | applies the stored teleop mode, throwing NullPointerException when none is stored |
| NarwhalSRX.ConstructedThenTeleop | src/org/team3128/common/hardware/motor/NarwhalSRX.java:44-51 | configureTeleop right after the three-argument constructor always throws NullPointerException, because that constructor never stores the teleop mode |
| SRXTankDrive.PerformConcat | src/org/team3128/common/drive/SRXTankDrive.java:223-231 | performing two call sequences in turn is performing their concatenation (what lets stopMovement compose configureForTeleop and tankDrive) |
| SRXTankDrive.PerformModeCalls | src/org/team3128/common/drive/SRXTankDrive.java:107-127 | a mode switch changes only the Talon's mode, and no switch leaves the Talon unchanged |
| SRXTankDrive.CmToEncDegrees | src/org/team3128/common/drive/SRXTankDrive.java:256-259 | cmToEncDegrees: the encoder degrees times circumference × gear ratio equal 360 × the centimetres, so one wheel circumference of travel (times the gear ratio) is 360 degrees |
| SRXTankDrive.EncDistanceToCm | src/org/team3128/common/drive/SRXTankDrive.java:267-270 | encDistanceToCm: 360 encoder degrees cover circumference × gear ratio centimetres, and 0 degrees cover none |
| SRXTankDrive.CmRoundTrip | src/org/team3128/common/drive/SRXTankDrive.java:256-270 | encDistanceToCm(cmToEncDegrees(x)) = x for a non-zero wheel circumference times gear ratio |
| SRXTankDrive.EncRoundTrip | src/org/team3128/common/drive/SRXTankDrive.java:256-270 | cmToEncDegrees(encDistanceToCm(x)) = x under the same condition |
| SRXTankDrive.EncDistanceIsAngularToLinear | src/org/team3128/common/drive/SRXTankDrive.java:267-270 | encDistanceToCm is angularDistToLinear for a wheel of circumference wheelCircumfrence * gearRatio |
| SRXTankDrive.RobotAngle | src/org/team3128/common/drive/SRXTankDrive.java:240-248 | the heading estimate lies in [0, 360) |
| SRXTankDrive.RobotAngleIntended | src/org/team3128/common/drive/SRXTankDrive.java:233-248 | the corrected heading estimate lies in [0, 360) |
| SRXTankDrive.ThrottleScale | src/org/team3128/common/drive/SRXTankDrive.java:153-166 | the scale is in [0.3, 0.8] or exactly 1, and equals (throttle+1)/2 wherever that lies in [0.3, 0.8] |
| SRXTankDrive.ThrottleScaleMonotone | src/org/team3128/common/drive/SRXTankDrive.java:153-166 | a higher throttle never gives a lower scale |
| SRXTankDrive.SignedInvolution | src/org/team3128/common/drive/SRXTankDrive.java:175-183 | negating on an inverted side twice gives back the value |
| SRXTankDrive.ArcadeOutputs | src/org/team3128/common/drive/SRXTankDrive.java:167-186 | arcadeDrive's powers: because clampPosNeg1 does not clamp, the left side gets forward − turn and the right side forward + turn, each negated when that side is inverted |
| SRXTankDrive.ArcadeRecoversInputs | src/org/team3128/common/drive/SRXTankDrive.java:140-187 | with the inversions undone, right + left is twice the scaled forward input and right - left is twice the scaled turn input |
| SRXTankDrive.ForwardDamping | src/org/team3128/common/drive/SRXTankDrive.java:146-153 | without full speed the forward input is 0.65 of its full-speed value |
| SRXTankDrive.ArcadeOutputsExceedUnit | src/org/team3128/common/drive/SRXTankDrive.java:169-186 | full stick, full throttle and full speed command -2 to the (inverted) right side |
| SRXTankDrive.ArcadeOutputsIntended | src/org/team3128/common/drive/SRXTankDrive.java:169-186 | with the documented clamp both powers lie in [-1, 1], and each equals the unclamped power when that is already in range |
| SRXTankDrive.TankOutputs | src/org/team3128/common/drive/SRXTankDrive.java:209-214 | undoing each side's inversion gives back the requested power |
| SRXTankDrive.SrxTankDrive.constructor | src/org/team3128/common/drive/SRXTankDrive.java:86-105 | stores the geometry, sets the turning circle to pi times the supplied diagonal, and ends un-reversed (right inverted) after reverseOutput on the right and then the left Talon |
| SRXTankDrive.NewSrxTankDrive | src/org/team3128/common/drive/SRXTankDrive.java:86-105 | throws IllegalArgumentException iff the gear ratio is not positive, and otherwise yields a fresh drive in a consistent state |
| SRXTankDrive.SrxTankDrive.SetGearRatio | src/org/team3128/common/drive/SRXTankDrive.java:71-74 | stores the gear ratio without checking it |
| SRXTankDrive.SrxTankDrive.ConfigureForTeleop | src/org/team3128/common/drive/SRXTankDrive.java:107-116 | switches both Talons to percent output exactly when the cache says they are not there, and keeps the cache truthful |
| SRXTankDrive.SrxTankDrive.ConfigureForAuto | src/org/team3128/common/drive/SRXTankDrive.java:118-127 | switches both Talons to position mode exactly when the cache says percent output, then clears the cache |
| SRXTankDrive.SrxTankDrive.ArcadeDrive | src/org/team3128/common/drive/SRXTankDrive.java:140-187 | makes the teleop switch if needed, then sets the arcade powers, left first; both Talons hold those powers afterwards |
| SRXTankDrive.SrxTankDrive.SetReversed | src/org/team3128/common/drive/SRXTankDrive.java:194-202 | the left side is inverted iff reversed and the right side iff not; reverseOutput goes to the right Talon and then the left, so exactly the two Talons' output reversal changes and a consistent control-mode cache stays consistent |
| SRXTankDrive.SrxTankDrive.TankDrive | src/org/team3128/common/drive/SRXTankDrive.java:209-214 | makes the teleop switch if needed, then sets each side's power, negated on the inverted side |
| SRXTankDrive.SrxTankDrive.ClearEncoders | src/org/team3128/common/drive/SRXTankDrive.java:216-220 | zeroes both positions and changes nothing else on the Talons |
| SRXTankDrive.SrxTankDrive.StopMovement | src/org/team3128/common/drive/SRXTankDrive.java:223-231 | after at most one mode switch, both Talons are in percent output with power 0 |
| SRXTankDrive.SrxTankDrive.GetRobotAngle | src/org/team3128/common/drive/SRXTankDrive.java:240-248 | the heading estimate from the two encoder positions lies in [0, 360) |
| SRXTankDrive.SideDone | src/org/team3128/common/drive/SRXTankDrive.java:343-344 | isFinished's per-side test: a side with no distance to go, or with no closed-loop error, is done |
| SRXTankDrive.MoveFinished | src/org/team3128/common/drive/SRXTankDrive.java:346-353 | isFinished's end-mode switch: either end mode finishes when both sides are done and neither finishes when no side is |
| SRXTankDrive.SideDoneInNativeUnits | src/org/team3128/common/drive/SRXTankDrive.java:338-354 | a side is done iff it has no distance to go or its closed-loop error is strictly within 256/9 native units (10 degrees) |
| SRXTankDrive.MoveFinishedInNativeUnits | src/org/team3128/common/drive/SRXTankDrive.java:338-354 | in native units, BOTH finishes iff every side with distance to go has an error strictly within 256/9, EITHER iff some side has no distance to go or such an error; with no time-out path, a BOTH move whose one side is 256/9 or more off a non-zero target is not finished |
| SRXTankDrive.ArcTurnFinishesWithMovingSide | src/org/team3128/common/drive/SRXTankDrive.java:338-354 | the arc turn's stationary side has no distance to go, so its BOTH end mode finishes exactly when the moving side is done |
| SRXTankDrive.ArcTurnTargets | src/org/team3128/common/drive/SRXTankDrive.java:395-410 | as written: only the side opposite the direction moves, by the arc length 2*pi*track*degs/360 in centimetres |
| SRXTankDrive.ArcTurnTargetsIntended | src/org/team3128/common/drive/SRXTankDrive.java:395-410 | corrected: the moving side's target, converted back to centimetres, is the arc length |
| SRXTankDrive.ArcTurnTargetsAgreeOnlyAt360 | src/org/team3128/common/drive/SRXTankDrive.java:400 | for a non-zero turn, the written and the corrected targets agree iff a wheel turn covers exactly 360 cm |
| SRXTankDrive.InPlaceTurnTargets | src/org/team3128/common/drive/SRXTankDrive.java:434-452 | the two sides get exactly opposite targets: the turn's share of the turning circle in encoder degrees, forward on the left for a right turn and on the right for a left turn |
| SRXTankDrive.TurnTargetsMirror | src/org/team3128/common/drive/SRXTankDrive.java:403-451 | turning the opposite direction swaps the two sides' targets, for arc and in-place turns |
| SRXTankDrive.ForwardTargets | src/org/team3128/common/drive/SRXTankDrive.java:467-480 | both sides get the same target, which converts back to the requested distance |
| SRXTankDrive.ForwardPower | src/org/team3128/common/drive/SRXTankDrive.java:469 | the power is 1 iff full speed is asked for, otherwise 0.5 |
| SRXTankDrive.ForwardMoveKeepsHeading | src/org/team3128/common/drive/SRXTankDrive.java:240-248 | a forward move that reaches its targets leaves the heading estimate at 0 |
| SRXTankDrive.InPlaceTurnTravel | src/org/team3128/common/drive/SRXTankDrive.java:434-452 | when an in-place turn reaches its targets, the sides' travel differs by twice the turn's share of the turning circle |
| SRXTankDrive.InPlaceTurnReportsDoubleAngle | src/org/team3128/common/drive/SRXTankDrive.java:240-248 | a right turn of degs that reaches its targets is reported by getRobotAngle as a turn of 2*degs |
| SRXTankDrive.InPlaceTurnIntendedHeading | src/org/team3128/common/drive/SRXTankDrive.java:240-248 | with the corrected heading the same turn reads degs (right) or -degs (left), modulo a turn |
| SRXTankDrive.CmdMoveDistance.constructor | src/org/team3128/common/drive/SRXTankDrive.java:308-316 | stores the end mode, both targets, the power and the timeout |
| SRXTankDrive.CmdMoveDistance.ArcTurn | src/org/team3128/common/drive/SRXTankDrive.java:395-410 | a BOTH-mode command whose targets are the as-written arc-turn targets and whose timeout is msec |
| SRXTankDrive.CmdMoveDistance.InPlaceTurn | src/org/team3128/common/drive/SRXTankDrive.java:434-452 | a BOTH-mode command with the in-place turn targets at the given power |
| SRXTankDrive.CmdMoveDistance.InPlaceTurnAtHalfPower | src/org/team3128/common/drive/SRXTankDrive.java:425-428 | the same with power 0.5 |
| SRXTankDrive.CmdMoveDistance.MoveForward | src/org/team3128/common/drive/SRXTankDrive.java:467-470 | a BOTH-mode command with the forward targets at power 1 or 0.5 |
| SRXTankDrive.CmdMoveDistance.MoveForwardAtPower | src/org/team3128/common/drive/SRXTankDrive.java:476-480 | a BOTH-mode command with the forward targets at the given power |
| SRXTankDrive.PerformInitializeCalls | src/org/team3128/common/drive/SRXTankDrive.java:318-335 | after initialize's calls a Talon is in position mode if it was switched, at position 0, with its own side's target, and otherwise unchanged |
| SRXTankDrive.CmdMoveDistance.Initialize | src/org/team3128/common/drive/SRXTankDrive.java:318-335 | the auto switch if the cache says percent output, zeroed encoders, then each side's target in rotations, left first; the Talons' resulting state |
| SRXTankDrive.CmdMoveDistance.IsFinished | src/org/team3128/common/drive/SRXTankDrive.java:338-354 | each side's done flag from this poll's closed-loop error, and the answer from the end mode |
| SRXTankDrive.CmdMoveDistance.End | src/org/team3128/common/drive/SRXTankDrive.java:357-366 | stops the drive, and kills the robot iff the command timed out |
| SRXTankDrive.CmdMoveDistance.Interrupted | src/org/team3128/common/drive/SRXTankDrive.java:370-373 | stops the drive |
| SRXTankDrive.MoveBeforeTeleop | src/org/team3128/common/drive/SRXTankDrive.java:318-325 | a move initialised straight after construction sets its targets while the Talons stay in percent output |
| NarwhalRobot.OnlyInitialized | src/org/team3128/common/NarwhalRobot.java:184-248 | entering a mode sets exactly that mode's flag |
| NarwhalRobot.DispatchedMode | src/org/team3128/common/NarwhalRobot.java:170-234 | priority order: disabled, else test, else autonomous, else teleop, each as an if-and-only-if |
| NarwhalRobot.SetupAutoChooserEvents | src/org/team3128/common/NarwhalRobot.java:298-308 | the chooser is always rebuilt and is published iff it holds more than one program |
| NarwhalRobot.AutoProgramToRun | src/org/team3128/common/NarwhalRobot.java:310-330 | a program runs iff the chooser holds at least one program and the selection is not null, and it is the selection |
| NarwhalRobot.RunAutoProgramEvents | src/org/team3128/common/NarwhalRobot.java:310-330 | exactly one event: the selected program starts, or the missing program is reported and nothing starts |
| NarwhalRobot.ManagerEvents | src/org/team3128/common/NarwhalRobot.java:375-394 | one call per listener manager, in list order |
| NarwhalRobot.ManagerEventsCalls | src/org/team3128/common/NarwhalRobot.java:375-394 | a listener-manager pass makes only calls of the kind asked for |
| NarwhalRobot.EntryEventsKinds | src/org/team3128/common/NarwhalRobot.java:173-251 | entering a mode only switches LiveWindow, builds or publishes the chooser, runs an Init hook, starts or reports the program, and recounts managers |
| NarwhalRobot.PeriodicEventsKinds | src/org/team3128/common/NarwhalRobot.java:190-257 | the periodic part does nothing entry-side and never waits; a mode's Periodic hook runs iff it is autonomous or new data arrived, and the scheduler runs iff the mode is autonomous |
| NarwhalRobot.OnlyInitializedIsConsistent | src/org/team3128/common/NarwhalRobot.java:184-188 | the flags after entering a mode are consistent |
| NarwhalRobot.OneFlagAfterIteration | src/org/team3128/common/NarwhalRobot.java:168-258 | from consistent flags, after an iteration exactly one flag is set: the handled mode's |
| NarwhalRobot.InitOnlyWhenFlagClear | src/org/team3128/common/NarwhalRobot.java:173-237 | a mode's Init hook runs iff the mode is handled and its flag was clear |
| NarwhalRobot.NoInitWhenStaying | src/org/team3128/common/NarwhalRobot.java:173-237 | a second iteration in the same mode runs no Init hook |
| NarwhalRobot.ChooserRebuiltOnDisabledEntry | src/org/team3128/common/NarwhalRobot.java:176-181 | the chooser is rebuilt iff Disabled is entered while the autonomous flag is set, and only then is it replaced |
| NarwhalRobot.PeriodicHooks | src/org/team3128/common/NarwhalRobot.java:190-274 | the disabled, test and teleop periodic hooks run iff their mode is handled and new control data arrived; the scheduler and autonomousPeriodic run on every autonomous iteration |
| NarwhalRobot.AutonomousOrder | src/org/team3128/common/NarwhalRobot.java:212-232 | on entry autonomousInit comes before runAutoProgram's start or report; every autonomous iteration ends with the scheduler run and then autonomousPeriodic |
| NarwhalRobot.TeleopEntryOrder | src/org/team3128/common/NarwhalRobot.java:237-244 | on entry teleopInit comes first, then a recount of every listener manager in list order |
| NarwhalRobot.TeleopTickOrder | src/org/team3128/common/NarwhalRobot.java:252-263 | with new data every listener manager is ticked in list order, then teleopPeriodic runs, then the loop waits for data |
| NarwhalRobot.WaitForDataUnlessAutonomous | src/org/team3128/common/NarwhalRobot.java:260-263 | the iteration ends by waiting for data iff the autonomous flag is clear afterwards, that is, iff the mode was not autonomous |
| NarwhalRobot.StartupFails | src/org/team3128/common/NarwhalRobot.java:122-165 | start-up exits with status 7 iff building the hardware or the listeners throws; listeners are set up iff the hardware was; the chooser is built iff both succeed |
| NarwhalRobot.Robot.constructor | src/org/team3128/common/NarwhalRobot.java:108-120 | at power-on no flag is set, there are no listener managers and nothing has happened |
| NarwhalRobot.Robot.Fail | src/org/team3128/common/NarwhalRobot.java:281-296 | exits with status 7 |
| NarwhalRobot.Robot.SetupAutoChooser | src/org/team3128/common/NarwhalRobot.java:298-308 | replaces the chooser and publishes it iff it holds more than one program |
| NarwhalRobot.Robot.RunAutoProgram | src/org/team3128/common/NarwhalRobot.java:310-330 | starts the program AutoProgramToRun picks, or reports that none can start |
| NarwhalRobot.Robot.AddListenerManager | src/org/team3128/common/NarwhalRobot.java:364-367 | appends the manager to the list |
| NarwhalRobot.Robot.RecountAllControls | src/org/team3128/common/NarwhalRobot.java:375-381 | the loop recounts every manager in list order |
| NarwhalRobot.Robot.TickListenerManagers | src/org/team3128/common/NarwhalRobot.java:384-394 | the loop ticks every manager in list order |
| NarwhalRobot.Robot.Startup | src/org/team3128/common/NarwhalRobot.java:122-165 | the start-up events, exit status 7 when a hook throws, and the chooser installed iff start-up succeeds |
| NarwhalRobot.Robot.EnterDisabled | src/org/team3128/common/NarwhalRobot.java:173-189 | LiveWindow off, the chooser rebuilt and replaced iff autonomous was initialised, disabledInit, then only the disabled flag set |
| NarwhalRobot.Robot.EnterTest | src/org/team3128/common/NarwhalRobot.java:197-204 | LiveWindow on, testInit, then only the test flag set |
| NarwhalRobot.Robot.EnterAutonomous | src/org/team3128/common/NarwhalRobot.java:212-228 | LiveWindow off, autonomousInit, then the selected program started or reported missing, then only the autonomous flag set |
| NarwhalRobot.Robot.EnterTeleop | src/org/team3128/common/NarwhalRobot.java:237-251 | LiveWindow off, teleopInit, every listener manager recounted in order, then only the teleop flag set |
| NarwhalRobot.Robot.Enter | src/org/team3128/common/NarwhalRobot.java:173-251 | nothing when the handled mode is already initialised; otherwise its Init sequence, the flag update and the chooser rebuild on disabled entry after autonomous |
| NarwhalRobot.Robot.TeleopTick | src/org/team3128/common/NarwhalRobot.java:252-257 | the program observed, every listener manager ticked in order, then teleopPeriodic |
| NarwhalRobot.Robot.Handle | src/org/team3128/common/NarwhalRobot.java:170-258 | the flags and chooser become the next ones for the report, and the trace grows by the entry events and then the periodic events of the dispatched mode |
| NarwhalRobot.Robot.Periodic | src/org/team3128/common/NarwhalRobot.java:190-257 | the periodic events of the handled mode |
| NarwhalRobot.Robot.Iterate | src/org/team3128/common/NarwhalRobot.java:168-264 | started only while no exit status is set, one iteration keeps the flags consistent, leaves exactly the handled mode's flag set, and appends exactly IterationEvents |
| NarwhalRobot.RunLoop | src/org/team3128/common/NarwhalRobot.java:168-264 | over any finite run of reports after a start-up that did not exit, with the chooser constructAutoPrograms fills on each iteration: the flags stay consistent and end as those of the last handled mode, the chooser is the one the iterations leave in turn, the trace grows by exactly the iterations' events in order, and the listener managers and exit status do not change |

## Left out

- Vendor and WPILib calls are abstracted. On the drive side, CANTalon and TalonSRX become Talon records and a call trace. DriverStation, Scheduler, SmartDashboard, LiveWindow, UsageReporting and FRCNetworkCommunicationsLibrary become events or inputs.
- The Talon's sensor position and closed-loop error are inputs that the hardware updates. The closed-loop controller itself is not modelled.
- Threads and sleeps are not modelled, because they are about concurrency and timing. This covers the dashboard update thread (`updateDashboardLoop`), the 100 ms sleep in `CmdMoveDistance.initialize` and the 200 ms sleep in `fail`.
- `Log` calls are left out, because they have no behavioural effect.
- `AutoUtils.killRobot` is a flag on the command. `System.exit(7)` is an exit status, after which nothing else happens.
- The user's hooks (`constructHardware`, `setupListeners`, `constructAutoPrograms`, the Init/Periodic hooks, `updateDashboard`) are abstract in the source. They appear as events, or as the inputs they produce. For `constructHardware` and `setupListeners` that input is whether they throw; for `constructAutoPrograms` it is the chooser it fills.
- `NarwhalRobot.Robot.Startup`, `NarwhalRobot.Robot.Iterate` and `NarwhalRobot.RunLoop` assume that every hook other than `constructHardware` and `setupListeners` returns normally. This covers `constructAutoPrograms`, the Init/Periodic hooks, the listener managers' `recountControls` and `tick`, and the autonomous program's `start`. In the source these run outside any try block, so an exception from one of them propagates out of `startCompetition` and ends the loop. The model has no such path.
- `GenericSendableChooser.getSelected` is the chooser's `selected` field. The dashboard's selection logic is not part of this model.
- Transcendental and logarithm functions in RobotMath are left out as floating-point library math. This covers `sin`/`cos`/`tan`, `asin`/`acos`/`atan`/`atan2` and `logN`.
- `Math.sqrt` is not modelled. The drive's constructor takes the square root as a parameter, required to be the non-negative root of track² + wheelBase².
- Floating point is modelled as exact reals, so NaN, infinities, -0.0, rounding error and the `float` precision of `degs` are left out. In particular, `ceil` and `floor` have no path for a non-finite argument.
- `SRXTankDrive.CmToEncDegrees` requires wheelCircumfrence × gearRatio ≠ 0. A zero divisor gives Infinity or NaN in Java, which reals cannot represent.
- `SRXTankDrive.RobotAngle` and `SRXTankDrive.SrxTankDrive.GetRobotAngle` require a non-zero turning circle, for the same reason.
- `SRXTankDrive.SrxTankDrive.constructor` requires a positive gear ratio. The throwing path is modelled by `SRXTankDrive.NewSrxTankDrive`.
- The Talons' control mode, inversion and sensor phase before any call are parameters of the constructors. The vendor defaults are not assumed. This includes `NarwhalSRX.NarwhalSrx.constructor`, which applies no flag, so its controller keeps the flags it is given.
- `NarwhalSRX.NarwhalSrx.WithModes` does not model a null autonomous or teleop argument; both are plain modes. A null mode is modelled on `SetReverseMode` and the other setters.
- `SRXTankDrive.CmdMoveDistance.ArcTurn`, `SRXTankDrive.CmdMoveDistance.InPlaceTurn` and `SRXTankDrive.CmdMoveDistance.IsFinished` do not model null enum arguments, because `Direction` and `MoveEndMode` are plain datatypes here. In the source, a null `dir` takes the LEFT branch of the arc and in-place turns. A null `endMode` makes `isFinished` throw NullPointerException at its switch.
- `SRXTankDrive.SrxTankDrive.GetGearRatio` is not modelled, because it is a plain field read.
- `CmdMoveDistance.execute` is not modelled, because it does nothing. The same goes for `CmdMoveForward.end`, which only calls the inherited `end`.
- The unused constant `thresh = 0.2` in SRXTankDrive is not modelled.
- `NarwhalRobot.Robot.Handle` chooses the mode with `DispatchedMode`, whose contract states the if-chain's priority order. It does not repeat the chain inline.
- Motion profiles, `SRXTankDrivePosition`, encoders, lights, vision and the test main classes are not part of this model.

## Findings

| source | as written | input that shows it | evidently intended | confidence | as-written member | corrected member |
|---|---|---|---|---|---|---|
| src/org/team3128/common/util/RobotMath.java:129-132 | `clampPosNeg1` discards the result of `clamp` and returns its argument | d = 2.0 returns 2.0 | return the value clamped to [-1, 1] | high, not executed | RobotMath.ClampPosNeg1LeavesTwo | RobotMath.ClampPosNeg1Intended |
| src/org/team3128/common/drive/SRXTankDrive.java:169-186 | arcadeDrive's powers are therefore not bounded by 1 | joyX = joyY = throttle = 1, full speed, default inversion: right power -2 | powers clamped to [-1, 1] | high, not executed | SRXTankDrive.ArcadeOutputsExceedUnit | SRXTankDrive.ArcadeOutputsIntended |
| src/org/team3128/common/util/RobotMath.java:65-73 | `sgn(int)` divides `Math.abs(n)` by n, and Math.abs(INT_MIN) is INT_MIN | n = -2147483648 gives 1 | -1 for every negative n | high, not executed | RobotMath.SgnIntOfIntMinIsPositive | RobotMath.SgnIntIntended |
| src/org/team3128/common/util/RobotMath.java:262-272 | `round` checks `Math.abs(long)` against INT_MAX | d = -2147483648.0 throws although the result fits; d = -1e19 returns 0 because Math.abs(Long.MIN_VALUE) is negative | succeed iff the rounded value fits in an int, and throw otherwise | high, not executed | RobotMath.RoundAtTheEdges | RobotMath.RoundIntended |
| src/org/team3128/common/util/RobotMath.java:304-331 | `ceil` and `floor` only check the upper bound, and the (int) cast saturates | d = -1e10 returns INT_MIN instead of throwing | throw when the result is below INT_MIN too | high, not executed | RobotMath.FloorCeilBelowRange | RobotMath.FloorIntended |
| src/org/team3128/common/drive/SRXTankDrive.java:240-248 | `getRobotAngle` divides the travel difference by the turning-circle circumference, which counts each side's travel twice | an in-place right turn of 90 degrees that reaches its targets reads 180 | divide by twice the circumference, so the turn reads 90 | medium, not executed | SRXTankDrive.InPlaceTurnReportsDoubleAngle | SRXTankDrive.InPlaceTurnIntendedHeading |
| src/org/team3128/common/drive/SRXTankDrive.java:400 | `CmdArcTurn` passes the arc length in centimetres where the move command expects encoder degrees | wheel circumference 48 cm, gear ratio 1, non-zero turn: the target is off by the factor 360/48 | convert the arc length with cmToEncDegrees, as the other commands do | medium, not executed | SRXTankDrive.ArcTurnTargetsAgreeOnlyAt360 | SRXTankDrive.ArcTurnTargetsIntended |
