/** A tank drive powered by two lead Talon SRX controllers (drive.SRXTankDrive):
    teleop arcade and tank driving in percent-output mode, unit conversions
    between centimetres and encoder degrees, a heading estimate from the two
    encoders, and the autonomous move commands that drive each side to a
    position target in closed-loop mode and finish when the sides are within
    tolerance. The CANTalon controllers are abstracted to records, and every
    call the drive makes on them is appended to a call trace. */
module SRXTankDrive {
  import opened JavaSemantics
  import RobotMath
  import Enums

  /** Degrees per rotation (Angle.ROTATIONS; Angle.DEGREES is 1). */
  const ROTATIONS: real := 360.0

  /** Math.PI, the double nearest to pi. */
  const PI: real := 3.141592653589793

  /** Forward stick damping applied unless the driver asks for full speed. */
  const FORWARD_DAMPING: real := 0.65

  /** Closed-loop error units per rotation reported by the controllers. */
  const NATIVE_UNITS_PER_ROTATION: real := 1024.0

  /** A side is done once its error is below this many wheel degrees. */
  const MOVEMENT_ERROR_THRESHOLD: real := 10.0

  // ---------------------------------------------------------------------------
  // The two Talon SRX controllers
  // ---------------------------------------------------------------------------

  datatype Side = LeftSide | RightSide

  /** CANTalon control modes the drive uses. */
  datatype ControlMode = PercentVbus | Position

  /** What the model keeps of a lead Talon: its control mode, the last value
      `set` on it (a power in PercentVbus mode, a target in rotations in
      Position mode), its sensor position in rotations, its closed-loop error
      in native units, and whether its closed-loop output is reversed. The
      position and the error are sensor readings that the hardware updates. */
  datatype Talon = Talon(mode: ControlMode, setpoint: real, position: real,
                         closedLoopError: real, outputReversed: bool)

  /** A call the drive makes on one of its Talons. */
  datatype TalonCall =
    | ChangeControlMode(side: Side, mode: ControlMode)
    | Set(side: Side, value: real)
    | SetPosition(side: Side, position: real)
    | ReverseOutput(side: Side, reversed: bool)

  /** A value for each side of the drive. */
  datatype PerSide = PerSide(left: real, right: real) {
    function Of(side: Side): real
    {
      if side == LeftSide then left else right
    }
  }

  /** The effect of one call on the Talon of `side`. */
  function Step(t: Talon, side: Side, c: TalonCall): Talon
  {
    if c.side != side then t
    else match c
      case ChangeControlMode(_, m) => t.(mode := m)
      case Set(_, v) => t.(setpoint := v)
      case SetPosition(_, p) => t.(position := p)
      case ReverseOutput(_, r) => t.(outputReversed := r)
  }

  /** The Talon of `side` after a sequence of calls, in order. */
  function Perform(t: Talon, side: Side, cs: seq<TalonCall>): Talon
    decreases |cs|
  {
    if cs == [] then t else Perform(Step(t, side, cs[0]), side, cs[1..])
  }

  /** Performing two call sequences in turn is performing their concatenation. */
  lemma {:induction false} PerformConcat(t: Talon, side: Side, a: seq<TalonCall>, b: seq<TalonCall>)
    ensures Perform(t, side, a + b) == Perform(Perform(t, side, a), side, b)
    decreases |a|
  {
    if a == [] {
      assert a + b == b;
    } else {
      assert a + b != [];
      assert (a + b)[0] == a[0];
      assert (a + b)[1..] == a[1..] + b;
      PerformConcat(Step(t, side, a[0]), side, a[1..], b);
    }
  }

  /** Two calls are performed one after the other. */
  lemma PerformPair(t: Talon, side: Side, c1: TalonCall, c2: TalonCall)
    ensures Perform(t, side, [c1, c2]) == Step(Step(t, side, c1), side, c2)
  {
    var cs := [c1, c2];
    assert cs[0] == c1 && cs[1..] == [c2];
    assert [c2][0] == c2 && [c2][1..] == [];
    calc {
      Perform(t, side, cs);
      Perform(Step(t, side, c1), side, [c2]);
      Perform(Step(Step(t, side, c1), side, c2), side, []);
    }
  }

  /** The calls that put both Talons in percent-output mode, issued only when
      the cached flag says they are not there yet. */
  function TeleopModeCalls(configuredForTeleop: bool): seq<TalonCall>
  {
    if configuredForTeleop then []
    else [ChangeControlMode(LeftSide, PercentVbus), ChangeControlMode(RightSide, PercentVbus)]
  }

  /** The calls that put both Talons in position mode, issued only when the
      cached flag says they are in percent-output mode. */
  function AutoModeCalls(configuredForTeleop: bool): seq<TalonCall>
  {
    if configuredForTeleop then [ChangeControlMode(LeftSide, Position), ChangeControlMode(RightSide, Position)]
    else []
  }

  /** Setting the left and then the right Talon. */
  function SetCalls(values: PerSide): seq<TalonCall>
  {
    [Set(LeftSide, values.left), Set(RightSide, values.right)]
  }

  /** Setting both Talons changes exactly their set values. */
  lemma PerformSetCalls(t: Talon, side: Side, values: PerSide)
    ensures Perform(t, side, SetCalls(values)) == t.(setpoint := values.Of(side))
  {
    PerformPair(t, side, Set(LeftSide, values.left), Set(RightSide, values.right));
  }

  /** A mode switch puts each Talon in the requested mode and changes nothing
      else; no switch leaves it as it was. */
  lemma PerformModeCalls(t: Talon, side: Side, configuredForTeleop: bool)
    ensures Perform(t, side, TeleopModeCalls(configuredForTeleop))
         == if configuredForTeleop then t else t.(mode := PercentVbus)
    ensures Perform(t, side, AutoModeCalls(configuredForTeleop))
         == if configuredForTeleop then t.(mode := Position) else t
  {
    PerformPair(t, side, ChangeControlMode(LeftSide, PercentVbus), ChangeControlMode(RightSide, PercentVbus));
    PerformPair(t, side, ChangeControlMode(LeftSide, Position), ChangeControlMode(RightSide, Position));
  }

  /** Zeroing both encoders changes exactly the positions. */
  lemma PerformClear(t: Talon, side: Side)
    ensures Perform(t, side, [SetPosition(LeftSide, 0.0), SetPosition(RightSide, 0.0)]) == t.(position := 0.0)
  {
    PerformPair(t, side, SetPosition(LeftSide, 0.0), SetPosition(RightSide, 0.0));
  }

  /** The calls a move command's initialize makes: the position-mode switch
      if needed, both encoders zeroed, then both targets. */
  function InitializeCalls(configuredForTeleop: bool, targets: PerSide): seq<TalonCall>
  {
    AutoModeCalls(configuredForTeleop) + [SetPosition(LeftSide, 0.0), SetPosition(RightSide, 0.0)] + SetCalls(targets)
  }

  /** After initialize's calls a Talon is in position mode if it was switched,
      at position 0, with its side's target, and nothing else has changed. */
  lemma PerformInitializeCalls(t: Talon, side: Side, configuredForTeleop: bool, targets: PerSide)
    ensures Perform(t, side, InitializeCalls(configuredForTeleop, targets))
         == t.(mode := if configuredForTeleop then Position else t.mode, position := 0.0,
               setpoint := targets.Of(side))
  {
    var auto := AutoModeCalls(configuredForTeleop);
    var clear := [SetPosition(LeftSide, 0.0), SetPosition(RightSide, 0.0)];
    PerformModeCalls(t, side, configuredForTeleop);
    var t1 := Perform(t, side, auto);
    PerformClear(t1, side);
    PerformSetCalls(t1.(position := 0.0), side, targets);
    PerformConcat(t1, side, clear, SetCalls(targets));
    assert auto + clear + SetCalls(targets) == auto + (clear + SetCalls(targets));
    PerformConcat(t, side, auto, clear + SetCalls(targets));
  }

  // ---------------------------------------------------------------------------
  // Unit conversions and heading
  // ---------------------------------------------------------------------------

  /** Centimetres of robot travel as encoder degrees. */
  function CmToEncDegrees(cm: real, wheelCircumfrence: real, gearRatio: real): (deg: real)
    requires wheelCircumfrence * gearRatio != 0.0
    ensures deg * (wheelCircumfrence * gearRatio) == cm * 360.0
    ensures cm == wheelCircumfrence * gearRatio ==> deg == 360.0
  {
    (cm * 360.0) / (wheelCircumfrence * gearRatio)
  }

  /** Encoder degrees as centimetres of robot travel. */
  function EncDistanceToCm(encDistance: real, wheelCircumfrence: real, gearRatio: real): (cm: real)
    ensures encDistance == 360.0 ==> cm == wheelCircumfrence * gearRatio
    ensures encDistance == 0.0 ==> cm == 0.0
  {
    (encDistance / 360.0) * wheelCircumfrence * gearRatio
  }

  /** Converting centimetres to encoder degrees and back gives the centimetres. */
  lemma CmRoundTrip(cm: real, wheelCircumfrence: real, gearRatio: real)
    requires wheelCircumfrence * gearRatio != 0.0
    ensures EncDistanceToCm(CmToEncDegrees(cm, wheelCircumfrence, gearRatio), wheelCircumfrence, gearRatio) == cm
  {
    var k := wheelCircumfrence * gearRatio;
    assert (cm * 360.0) / k / 360.0 * wheelCircumfrence * gearRatio == (cm / k) * k;
  }

  /** Converting encoder degrees to centimetres and back gives the degrees. */
  lemma EncRoundTrip(deg: real, wheelCircumfrence: real, gearRatio: real)
    requires wheelCircumfrence * gearRatio != 0.0
    ensures CmToEncDegrees(EncDistanceToCm(deg, wheelCircumfrence, gearRatio), wheelCircumfrence, gearRatio) == deg
  {
    var k := wheelCircumfrence * gearRatio;
    assert EncDistanceToCm(deg, wheelCircumfrence, gearRatio) == (deg / 360.0) * k;
    assert (deg / 360.0) * k * 360.0 / k == deg * (k / k);
  }

  /** The encoder-to-distance conversion is the library's angular-to-linear
      conversion for a wheel whose effective circumference includes the gear
      ratio. */
  lemma EncDistanceIsAngularToLinear(encDistance: real, wheelCircumfrence: real, gearRatio: real)
    ensures EncDistanceToCm(encDistance, wheelCircumfrence, gearRatio)
         == RobotMath.AngularDistToLinear(encDistance, wheelCircumfrence * gearRatio)
  {}

  /** The heading estimate as written: the difference of the two sides'
      travel, as a fraction of the turning circle, in degrees, normalised. */
  function RobotAngle(leftRotations: real, rightRotations: real, wheelCircumfrence: real,
                      gearRatio: real, turningCircleCircumference: real): (angle: real)
    requires turningCircleCircumference != 0.0
    ensures 0.0 <= angle < 360.0
  {
    var leftDist := EncDistanceToCm(leftRotations * ROTATIONS, wheelCircumfrence, gearRatio);
    var rightDist := EncDistanceToCm(rightRotations * ROTATIONS, wheelCircumfrence, gearRatio);
    RobotMath.NormalizeAngle(((leftDist - rightDist) / turningCircleCircumference) * ROTATIONS)
  }

  /** The heading the wheel travel corresponds to: in an in-place turn each
      side travels the turn's share of the turning circle, so the difference of
      the two sides is twice that share. */
  function RobotAngleIntended(leftRotations: real, rightRotations: real, wheelCircumfrence: real,
                              gearRatio: real, turningCircleCircumference: real): (angle: real)
    requires turningCircleCircumference != 0.0
    ensures 0.0 <= angle < 360.0
  {
    var leftDist := EncDistanceToCm(leftRotations * ROTATIONS, wheelCircumfrence, gearRatio);
    var rightDist := EncDistanceToCm(rightRotations * ROTATIONS, wheelCircumfrence, gearRatio);
    RobotMath.NormalizeAngle(((leftDist - rightDist) / (2.0 * turningCircleCircumference)) * ROTATIONS)
  }

  // ---------------------------------------------------------------------------
  // Teleop driving
  // ---------------------------------------------------------------------------

  /** The throttle curve: [-1, 1] mapped onto [0, 1], raised to 0.3 below 0.3
      and snapped to 1 above 0.8. */
  function ThrottleScale(throttle: real): (scale: real)
    ensures 0.3 <= scale <= 0.8 || scale == 1.0
    ensures 0.3 <= (throttle + 1.0) / 2.0 <= 0.8 ==> scale == (throttle + 1.0) / 2.0
  {
    var t := (throttle + 1.0) / 2.0;
    if t < 0.3 then 0.3 else if t > 0.8 then 1.0 else t
  }

  /** A higher throttle never gives a lower scale. */
  lemma ThrottleScaleMonotone(t1: real, t2: real)
    requires t1 <= t2
    ensures ThrottleScale(t1) <= ThrottleScale(t2)
  {}

  /** A value as commanded to a side: negated when that side is inverted. */
  function Signed(inverted: bool, value: real): real
  {
    if inverted then -1.0 * value else value
  }

  /** Negating on an inverted side twice gives back the value. */
  lemma SignedInvolution(inverted: bool, value: real)
    ensures Signed(inverted, Signed(inverted, value)) == value
  {}

  /** The forward input after damping and the throttle curve. */
  function ScaledForward(joyY: real, throttle: real, fullSpeed: bool): real
  {
    (if !fullSpeed then joyY * FORWARD_DAMPING else joyY * 1.0) * ThrottleScale(throttle)
  }

  /** The turn input after the throttle curve. */
  function ScaledTurn(joyX: real, throttle: real): real
  {
    joyX * ThrottleScale(throttle)
  }

  /** The two powers arcadeDrive commands, passed through clampPosNeg1 as
      written; since that does not clamp, each side gets the raw difference
      or sum, negated when the side is inverted. */
  function ArcadeOutputs(joyX: real, joyY: real, throttle: real, fullSpeed: bool,
                         leftInverted: bool, rightInverted: bool): (o: PerSide)
    ensures o.left == Signed(leftInverted, ScaledForward(joyY, throttle, fullSpeed) - ScaledTurn(joyX, throttle))
    ensures o.right == Signed(rightInverted, ScaledForward(joyY, throttle, fullSpeed) + ScaledTurn(joyX, throttle))
  {
    var y := ScaledForward(joyY, throttle, fullSpeed);
    var x := ScaledTurn(joyX, throttle);
    PerSide(Signed(leftInverted, RobotMath.ClampPosNeg1(y - x)),
            Signed(rightInverted, RobotMath.ClampPosNeg1(y + x)))
  }

  /** Undoing the inversions, the sum of the two commanded powers is twice the
      scaled forward input and their difference twice the scaled turn input;
      so right = y + x and left = y - x on the uninverted sides. */
  lemma {:induction false} ArcadeRecoversInputs(joyX: real, joyY: real, throttle: real, fullSpeed: bool,
                                                leftInverted: bool, rightInverted: bool)
    ensures var o := ArcadeOutputs(joyX, joyY, throttle, fullSpeed, leftInverted, rightInverted);
      Signed(rightInverted, o.right) + Signed(leftInverted, o.left) == 2.0 * ScaledForward(joyY, throttle, fullSpeed)
      && Signed(rightInverted, o.right) - Signed(leftInverted, o.left) == 2.0 * ScaledTurn(joyX, throttle)
  {
    var y := ScaledForward(joyY, throttle, fullSpeed);
    var x := ScaledTurn(joyX, throttle);
    SignedInvolution(leftInverted, y - x);
    SignedInvolution(rightInverted, y + x);
  }

  /** The forward input is damped by 0.65 unless full speed is asked for. */
  lemma ForwardDamping(joyY: real, throttle: real)
    ensures ScaledForward(joyY, throttle, false) == FORWARD_DAMPING * ScaledForward(joyY, throttle, true)
  {}

  /** Full stick, full throttle, full speed on the default inversion commands
      -2 to the right side: the outputs are not bounded by 1. */
  lemma ArcadeOutputsExceedUnit()
    ensures ArcadeOutputs(1.0, 1.0, 1.0, true, false, true) == PerSide(0.0, -2.0)
  {}

  /** The arcade powers with the clamp clampPosNeg1 documents. */
  function ArcadeOutputsIntended(joyX: real, joyY: real, throttle: real, fullSpeed: bool,
                                 leftInverted: bool, rightInverted: bool): (o: PerSide)
    ensures -1.0 <= o.left <= 1.0 && -1.0 <= o.right <= 1.0
    ensures var y := ScaledForward(joyY, throttle, fullSpeed);
            var x := ScaledTurn(joyX, throttle);
            (-1.0 <= y + x <= 1.0 ==> o.right == Signed(rightInverted, y + x))
            && (-1.0 <= y - x <= 1.0 ==> o.left == Signed(leftInverted, y - x))
  {
    var y := ScaledForward(joyY, throttle, fullSpeed);
    var x := ScaledTurn(joyX, throttle);
    PerSide(Signed(leftInverted, RobotMath.ClampPosNeg1Intended(y - x)),
            Signed(rightInverted, RobotMath.ClampPosNeg1Intended(y + x)))
  }

  /** The two powers tankDrive commands. */
  function TankOutputs(powL: real, powR: real, leftInverted: bool, rightInverted: bool): (o: PerSide)
    ensures Signed(leftInverted, o.left) == powL && Signed(rightInverted, o.right) == powR
  {
    SignedInvolution(leftInverted, powL);
    SignedInvolution(rightInverted, powR);
    PerSide(Signed(leftInverted, powL), Signed(rightInverted, powR))
  }

  /** The calls stopMovement makes: the teleop mode switch if needed, then zero
      on both sides (tankDrive's own mode check then finds nothing to do). */
  function StopCalls(configuredForTeleop: bool): seq<TalonCall>
  {
    TeleopModeCalls(configuredForTeleop) + SetCalls(PerSide(0.0, 0.0))
  }

  // ---------------------------------------------------------------------------
  // The drive
  // ---------------------------------------------------------------------------

  class SrxTankDrive {
    var left: Talon
    var right: Talon

    /** Every call made on the two Talons, oldest first. */
    var calls: seq<TalonCall>

    /** The cached control mode: true once both Talons were switched to
        percent output, false once they were switched to position mode. */
    var configuredForTeleop: bool

    const wheelCircumfrence: real
    const wheelBase: real
    const track: real
    const turningCircleCircumference: real
    var gearRatio: real
    var leftInverted: bool
    var rightInverted: bool

    /** The cache is never wrong when it claims percent-output mode. */
    ghost predicate Valid()
      reads this
    {
      configuredForTeleop ==> left.mode == PercentVbus && right.mode == PercentVbus
    }

    /** Between the pre-state and now, exactly the calls `cs` were made. */
    twostate predicate Issued(cs: seq<TalonCall>)
      reads this
    {
      calls == old(calls) + cs
      && left == Perform(old(left), LeftSide, cs)
      && right == Perform(old(right), RightSide, cs)
    }

    /** Construction with a valid gear ratio: the turning circle is pi times the
        diagonal between the wheels (the square root is supplied, as Math.sqrt
        computes it), the cached mode is not teleop, and the drive ends
        un-reversed: right inverted, left not. */
    constructor (leftMotors: Talon, rightMotors: Talon, wheelCircumfrence: real, gearRatio: real,
                 wheelBase: real, track: real, turningCircleDiameter: real)
      requires turningCircleDiameter >= 0.0
      requires turningCircleDiameter * turningCircleDiameter == RobotMath.Square(track) + RobotMath.Square(wheelBase)
      requires gearRatio > 0.0
      ensures Valid()
      ensures this.wheelCircumfrence == wheelCircumfrence && this.gearRatio == gearRatio
      ensures this.wheelBase == wheelBase && this.track == track
      ensures turningCircleCircumference == turningCircleDiameter * PI
      ensures !configuredForTeleop
      ensures !leftInverted && rightInverted
      ensures calls == [ReverseOutput(RightSide, true), ReverseOutput(LeftSide, false)]
      ensures left == leftMotors.(outputReversed := false) && right == rightMotors.(outputReversed := true)
    {
      this.left := leftMotors;
      this.right := rightMotors;
      this.calls := [];
      this.wheelCircumfrence := wheelCircumfrence;
      this.wheelBase := wheelBase;
      this.track := track;
      this.gearRatio := gearRatio;
      this.turningCircleCircumference := turningCircleDiameter * PI;
      this.configuredForTeleop := false;
      new;
      SetReversed(false);
    }

    method SetGearRatio(gearRatio: real)
      modifies this`gearRatio
      ensures this.gearRatio == gearRatio
    {
      this.gearRatio := gearRatio;
    }

    /** Makes the calls `cs` on the Talons, in order. */
    method Issue(cs: seq<TalonCall>)
      modifies this`left, this`right, this`calls
      ensures Issued(cs)
    {
      calls := calls + cs;
      left := Perform(left, LeftSide, cs);
      right := Perform(right, RightSide, cs);
    }

    /** Switches both Talons to percent output unless the cache says they are. */
    method ConfigureForTeleop()
      requires Valid()
      modifies this`left, this`right, this`calls, this`configuredForTeleop
      ensures Valid() && configuredForTeleop
      ensures Issued(TeleopModeCalls(old(configuredForTeleop)))
    {
      PerformModeCalls(left, LeftSide, configuredForTeleop);
      PerformModeCalls(right, RightSide, configuredForTeleop);
      if !configuredForTeleop {
        Issue([ChangeControlMode(LeftSide, PercentVbus), ChangeControlMode(RightSide, PercentVbus)]);
        configuredForTeleop := true;
      }
    }

    /** Switches both Talons to position mode unless the cache says they are
        not in percent output. */
    method ConfigureForAuto()
      requires Valid()
      modifies this`left, this`right, this`calls, this`configuredForTeleop
      ensures Valid() && !configuredForTeleop
      ensures Issued(AutoModeCalls(old(configuredForTeleop)))
    {
      PerformModeCalls(left, LeftSide, configuredForTeleop);
      PerformModeCalls(right, RightSide, configuredForTeleop);
      if configuredForTeleop {
        Issue([ChangeControlMode(LeftSide, Position), ChangeControlMode(RightSide, Position)]);
        configuredForTeleop := false;
      }
    }

    /** Drives from a joystick: switches to percent output if needed, then
        commands the arcade powers, left first. */
    method ArcadeDrive(joyX: real, joyY: real, throttle: real, fullSpeed: bool)
      requires Valid()
      modifies this`left, this`right, this`calls, this`configuredForTeleop
      ensures Valid() && configuredForTeleop
      ensures Issued(TeleopModeCalls(old(configuredForTeleop))
                     + SetCalls(ArcadeOutputs(joyX, joyY, throttle, fullSpeed, leftInverted, rightInverted)))
      ensures var o := ArcadeOutputs(joyX, joyY, throttle, fullSpeed, leftInverted, rightInverted);
              left.setpoint == o.left && right.setpoint == o.right
    {
      ghost var cs0 := configuredForTeleop;
      ghost var l0, r0 := left, right;
      ConfigureForTeleop();
      var o := ArcadeOutputs(joyX, joyY, throttle, fullSpeed, leftInverted, rightInverted);
      ghost var l1, r1 := left, right;
      Issue(SetCalls(o));
      PerformSetCalls(l1, LeftSide, o);
      PerformSetCalls(r1, RightSide, o);
      PerformConcat(l0, LeftSide, TeleopModeCalls(cs0), SetCalls(o));
      PerformConcat(r0, RightSide, TeleopModeCalls(cs0), SetCalls(o));
    }

    /** Sets which side is inverted: the left side iff `reversed`. The Talons'
        closed-loop outputs are reversed to match, right first. */
    method SetReversed(reversed: bool)
      modifies this`left, this`right, this`calls, this`leftInverted, this`rightInverted
      ensures leftInverted == reversed && rightInverted == !reversed
      ensures Issued([ReverseOutput(RightSide, !reversed), ReverseOutput(LeftSide, reversed)])
      ensures left == old(left).(outputReversed := reversed) && right == old(right).(outputReversed := !reversed)
      ensures old(Valid()) ==> Valid()
    {
      ghost var l0, r0 := left, right;
      leftInverted := reversed;
      rightInverted := !reversed;
      Issue([ReverseOutput(RightSide, !reversed), ReverseOutput(LeftSide, reversed)]);
      PerformPair(l0, LeftSide, ReverseOutput(RightSide, !reversed), ReverseOutput(LeftSide, reversed));
      PerformPair(r0, RightSide, ReverseOutput(RightSide, !reversed), ReverseOutput(LeftSide, reversed));
    }

    /** Drives each side at the given power, negated on the inverted side. */
    method TankDrive(powL: real, powR: real)
      requires Valid()
      modifies this`left, this`right, this`calls, this`configuredForTeleop
      ensures Valid() && configuredForTeleop
      ensures Issued(TeleopModeCalls(old(configuredForTeleop))
                     + SetCalls(TankOutputs(powL, powR, leftInverted, rightInverted)))
      ensures var o := TankOutputs(powL, powR, leftInverted, rightInverted);
              left.setpoint == o.left && right.setpoint == o.right
    {
      ghost var cs0 := configuredForTeleop;
      ghost var l0, r0 := left, right;
      ConfigureForTeleop();
      var o := TankOutputs(powL, powR, leftInverted, rightInverted);
      ghost var l1, r1 := left, right;
      Issue(SetCalls(o));
      PerformSetCalls(l1, LeftSide, o);
      PerformSetCalls(r1, RightSide, o);
      PerformConcat(l0, LeftSide, TeleopModeCalls(cs0), SetCalls(o));
      PerformConcat(r0, RightSide, TeleopModeCalls(cs0), SetCalls(o));
    }

    /** Zeroes both encoders. */
    method ClearEncoders()
      modifies this`left, this`right, this`calls
      ensures Issued([SetPosition(LeftSide, 0.0), SetPosition(RightSide, 0.0)])
      ensures left == old(left).(position := 0.0) && right == old(right).(position := 0.0)
    {
      Issue([SetPosition(LeftSide, 0.0), SetPosition(RightSide, 0.0)]);
      PerformClear(old(left), LeftSide);
      PerformClear(old(right), RightSide);
    }

    /** Stops by commanding zero power in percent-output mode. */
    method StopMovement()
      requires Valid()
      modifies this`left, this`right, this`calls, this`configuredForTeleop
      ensures Valid() && configuredForTeleop
      ensures Issued(StopCalls(old(configuredForTeleop)))
      ensures left.mode == PercentVbus && right.mode == PercentVbus
      ensures left.setpoint == 0.0 && right.setpoint == 0.0
    {
      ghost var cs0 := configuredForTeleop;
      ghost var l0, r0, c0 := left, right, calls;
      ghost var stop := SetCalls(PerSide(0.0, 0.0));
      ConfigureForTeleop();
      ghost var l1, r1, c1 := left, right, calls;
      TankDrive(0.0, 0.0);
      assert TankOutputs(0.0, 0.0, leftInverted, rightInverted) == PerSide(0.0, 0.0);
      assert TeleopModeCalls(true) + stop == stop;
      assert calls == c1 + stop && left == Perform(l1, LeftSide, stop) && right == Perform(r1, RightSide, stop);
      assert calls == c0 + (TeleopModeCalls(cs0) + stop);
      PerformConcat(l0, LeftSide, TeleopModeCalls(cs0), stop);
      PerformConcat(r0, RightSide, TeleopModeCalls(cs0), stop);
    }

    /** The estimated heading since the encoders were last zeroed, in [0, 360). */
    function GetRobotAngle(): (angle: real)
      reads this
      requires turningCircleCircumference != 0.0
      ensures 0.0 <= angle < 360.0
    {
      RobotAngle(left.position, right.position, wheelCircumfrence, gearRatio, turningCircleCircumference)
    }
  }

  /** Construction as the source performs it: a gear ratio that is not positive
      throws IllegalArgumentException. */
  method NewSrxTankDrive(leftMotors: Talon, rightMotors: Talon, wheelCircumfrence: real, gearRatio: real,
                         wheelBase: real, track: real, turningCircleDiameter: real)
    returns (r: Result<SrxTankDrive>)
    requires turningCircleDiameter >= 0.0
    requires turningCircleDiameter * turningCircleDiameter == RobotMath.Square(track) + RobotMath.Square(wheelBase)
    ensures r.Throws? <==> gearRatio <= 0.0
    ensures r.Throws? ==> r.error == IllegalArgumentException
    ensures r.Ok? ==> fresh(r.value) && r.value.Valid() && r.value.gearRatio == gearRatio
                      && !r.value.configuredForTeleop && !r.value.leftInverted && r.value.rightInverted
  {
    if gearRatio <= 0.0 {
      return Throws(IllegalArgumentException);
    }
    var drive := new SrxTankDrive(leftMotors, rightMotors, wheelCircumfrence, gearRatio,
                                  wheelBase, track, turningCircleDiameter);
    r := Ok(drive);
  }

  // ---------------------------------------------------------------------------
  // Autonomous move commands
  // ---------------------------------------------------------------------------

  /** When a move command ends: when both sides are done, or when either is. */
  datatype MoveEndMode = BOTH | EITHER

  /** A side is done when it has no distance to go or its closed-loop error,
      converted to wheel degrees, is below the tolerance. */
  predicate SideDone(target: real, closedLoopError: real)
    ensures target == 0.0 ==> SideDone(target, closedLoopError)
    ensures closedLoopError == 0.0 ==> SideDone(target, closedLoopError)
  {
    target == 0.0
    || RobotMath.Abs((closedLoopError / NATIVE_UNITS_PER_ROTATION) * ROTATIONS) < MOVEMENT_ERROR_THRESHOLD
  }

  /** In the controller's native units, the tolerance is 256/9 (about 28.4). */
  lemma SideDoneInNativeUnits(target: real, closedLoopError: real)
    ensures SideDone(target, closedLoopError) <==> target == 0.0 || -256.0 / 9.0 < closedLoopError < 256.0 / 9.0
  {}

  /** Whether the command is finished on this poll, from this poll's done flags
      alone. */
  predicate MoveFinished(endMode: MoveEndMode, leftDone: bool, rightDone: bool)
    ensures leftDone && rightDone ==> MoveFinished(endMode, leftDone, rightDone)
    ensures !leftDone && !rightDone ==> !MoveFinished(endMode, leftDone, rightDone)
  {
    match endMode
    case BOTH => leftDone && rightDone
    case EITHER => leftDone || rightDone
  }

  /** A poll's verdict in the controller's native units: a BOTH command is
      finished exactly when every side with distance to go has its error
      strictly within 256/9, an EITHER command as soon as one side has no
      distance to go or such an error. There is no time-out path: a BOTH
      command with one side still 256/9 or more off its non-zero target is not
      finished, whatever the other side does. */
  lemma MoveFinishedInNativeUnits(targets: PerSide, leftError: real, rightError: real)
    ensures MoveFinished(BOTH, SideDone(targets.left, leftError), SideDone(targets.right, rightError))
            <==> (targets.left == 0.0 || -256.0 / 9.0 < leftError < 256.0 / 9.0)
                 && (targets.right == 0.0 || -256.0 / 9.0 < rightError < 256.0 / 9.0)
    ensures MoveFinished(EITHER, SideDone(targets.left, leftError), SideDone(targets.right, rightError))
            <==> targets.left == 0.0 || -256.0 / 9.0 < leftError < 256.0 / 9.0
                 || targets.right == 0.0 || -256.0 / 9.0 < rightError < 256.0 / 9.0
  {
    SideDoneInNativeUnits(targets.left, leftError);
    SideDoneInNativeUnits(targets.right, rightError);
  }

  /** Arc-turn targets as written: the side opposite the direction is given
      the arc length 2*pi*track*degs/360, in centimetres. */
  function ArcTurnTargets(track: real, degs: real, dir: Enums.Direction): (t: PerSide)
    ensures dir == Enums.RIGHT ==> t.right == 0.0
    ensures dir == Enums.LEFT ==> t.left == 0.0
    ensures t.left + t.right == (2.0 * PI * track) * (degs / 360.0)
  {
    var wheelAngularDist := (2.0 * PI * track) * (degs / 360.0);
    if dir == Enums.RIGHT then PerSide(wheelAngularDist, 0.0) else PerSide(0.0, wheelAngularDist)
  }

  /** The wheel an arc turn holds still has no distance to go, so the arc
      turn's BOTH end mode finishes exactly when the moving side does. */
  lemma ArcTurnFinishesWithMovingSide(track: real, degs: real, dir: Enums.Direction,
                                      leftError: real, rightError: real)
    ensures var t := ArcTurnTargets(track, degs, dir);
            MoveFinished(BOTH, SideDone(t.left, leftError), SideDone(t.right, rightError))
            <==> if dir == Enums.RIGHT then SideDone(t.left, leftError) else SideDone(t.right, rightError)
  {
    var t := ArcTurnTargets(track, degs, dir);
    if dir == Enums.RIGHT {
      assert SideDone(t.right, rightError);
    } else {
      assert SideDone(t.left, leftError);
    }
  }

  /** Arc-turn targets with the arc length converted to encoder degrees, as the
      move command expects. */
  function ArcTurnTargetsIntended(wheelCircumfrence: real, gearRatio: real, track: real,
                                  degs: real, dir: Enums.Direction): (t: PerSide)
    requires wheelCircumfrence * gearRatio != 0.0
    ensures dir == Enums.RIGHT ==> t.right == 0.0
    ensures dir == Enums.LEFT ==> t.left == 0.0
    ensures EncDistanceToCm(t.left + t.right, wheelCircumfrence, gearRatio) == (2.0 * PI * track) * (degs / 360.0)
  {
    var arc := (2.0 * PI * track) * (degs / 360.0);
    CmRoundTrip(arc, wheelCircumfrence, gearRatio);
    var wheelAngularDist := CmToEncDegrees(arc, wheelCircumfrence, gearRatio);
    if dir == Enums.RIGHT then PerSide(wheelAngularDist, 0.0) else PerSide(0.0, wheelAngularDist)
  }

  /** Scaling a non-zero length by 360/k leaves it unchanged only when k is 360. */
  lemma ScaleFixedOnlyAt360(x: real, k: real)
    requires x != 0.0 && k != 0.0
    ensures (x * 360.0) / k == x <==> k == 360.0
  {
    var q := (x * 360.0) / k;
    assert q * k == x * 360.0;
    if q == x {
      assert q * k == x * k;
      NonZeroFactor(x, k - 360.0);
    }
  }

  lemma NonZeroFactor(a: real, b: real)
    requires a != 0.0 && a * b == 0.0
    ensures b == 0.0
  {
  }

  /** The written arc-turn target equals the intended one only when a wheel
      turn covers exactly 360 cm (or there is nothing to turn). */
  lemma {:induction false} ArcTurnTargetsAgreeOnlyAt360(wheelCircumfrence: real, gearRatio: real, track: real,
                                                        degs: real, dir: Enums.Direction)
    requires wheelCircumfrence * gearRatio != 0.0
    requires track * degs != 0.0
    ensures ArcTurnTargets(track, degs, dir) == ArcTurnTargetsIntended(wheelCircumfrence, gearRatio, track, degs, dir)
        <==> wheelCircumfrence * gearRatio == 360.0
  {
    var arc := (2.0 * PI * track) * (degs / 360.0);
    assert arc != 0.0 by {
      assert arc == (PI / 180.0) * (track * degs);
    }
    var enc := CmToEncDegrees(arc, wheelCircumfrence, gearRatio);
    var t := ArcTurnTargets(track, degs, dir);
    var u := ArcTurnTargetsIntended(wheelCircumfrence, gearRatio, track, degs, dir);
    assert t == u <==> arc == enc by {
      if dir == Enums.RIGHT {
        assert t == PerSide(arc, 0.0) && u == PerSide(enc, 0.0);
      } else {
        assert t == PerSide(0.0, arc) && u == PerSide(0.0, enc);
      }
    }
    ScaleFixedOnlyAt360(arc, wheelCircumfrence * gearRatio);
  }

  /** The in-place turn targets: the turn's share of the turning circle, in
      encoder degrees, forward on the left and backward on the right for a
      right turn, and the other way round for a left turn. */
  function InPlaceTurnTargets(wheelCircumfrence: real, gearRatio: real, turningCircleCircumference: real,
                              degs: real, dir: Enums.Direction): (t: PerSide)
    requires wheelCircumfrence * gearRatio != 0.0
    ensures t.left == -t.right
    ensures var w := CmToEncDegrees(turningCircleCircumference * (degs / 360.0), wheelCircumfrence, gearRatio);
            (dir == Enums.RIGHT ==> t.left == w) && (dir == Enums.LEFT ==> t.right == w)
  {
    var wheelAngularDist := CmToEncDegrees(turningCircleCircumference * (degs / 360.0), wheelCircumfrence, gearRatio);
    if dir == Enums.RIGHT then PerSide(wheelAngularDist, -wheelAngularDist)
    else PerSide(-wheelAngularDist, wheelAngularDist)
  }

  /** Turning the other way swaps the two sides' targets. */
  lemma TurnTargetsMirror(wheelCircumfrence: real, gearRatio: real, track: real,
                          turningCircleCircumference: real, degs: real, dir: Enums.Direction)
    requires wheelCircumfrence * gearRatio != 0.0
    ensures var t := InPlaceTurnTargets(wheelCircumfrence, gearRatio, turningCircleCircumference, degs, dir);
            InPlaceTurnTargets(wheelCircumfrence, gearRatio, turningCircleCircumference, degs, dir.Opposite())
              == PerSide(t.right, t.left)
    ensures var t := ArcTurnTargets(track, degs, dir);
            ArcTurnTargets(track, degs, dir.Opposite()) == PerSide(t.right, t.left)
  {}

  /** The forward-move targets: the distance in encoder degrees on both sides. */
  function ForwardTargets(wheelCircumfrence: real, gearRatio: real, d: real): (t: PerSide)
    requires wheelCircumfrence * gearRatio != 0.0
    ensures t.left == t.right
    ensures EncDistanceToCm(t.left, wheelCircumfrence, gearRatio) == d
  {
    CmRoundTrip(d, wheelCircumfrence, gearRatio);
    PerSide(CmToEncDegrees(d, wheelCircumfrence, gearRatio), CmToEncDegrees(d, wheelCircumfrence, gearRatio))
  }

  /** The power of a forward move: full, or half. */
  function ForwardPower(fullSpeed: bool): (power: real)
    ensures 0.0 < power <= 1.0
    ensures power == 1.0 <==> fullSpeed
  {
    if fullSpeed then 1.0 else 0.5
  }

  /** Rotations of a side that has reached an encoder-degree target. */
  function ReachedRotations(t: PerSide): PerSide
  {
    PerSide(t.left / ROTATIONS, t.right / ROTATIONS)
  }

  /** A forward move that reaches its targets leaves the heading estimate at 0. */
  lemma ForwardMoveKeepsHeading(wheelCircumfrence: real, gearRatio: real, turningCircleCircumference: real, d: real)
    requires wheelCircumfrence * gearRatio != 0.0 && turningCircleCircumference != 0.0
    ensures var p := ReachedRotations(ForwardTargets(wheelCircumfrence, gearRatio, d));
            RobotAngle(p.left, p.right, wheelCircumfrence, gearRatio, turningCircleCircumference) == 0.0
  {
    var p := ReachedRotations(ForwardTargets(wheelCircumfrence, gearRatio, d));
    assert p.left == p.right;
    RobotMath.NormalizeAngleUnique(0.0, 0.0, 0);
  }

  /** The travel difference of an in-place turn that reached its targets:
      twice the turn's share of the turning circle. */
  lemma {:induction false} InPlaceTurnTravel(wheelCircumfrence: real, gearRatio: real,
                                             turningCircleCircumference: real, degs: real, dir: Enums.Direction)
    requires wheelCircumfrence * gearRatio != 0.0
    ensures var p := ReachedRotations(InPlaceTurnTargets(wheelCircumfrence, gearRatio, turningCircleCircumference, degs, dir));
            var share := turningCircleCircumference * (degs / 360.0);
            EncDistanceToCm(p.left * ROTATIONS, wheelCircumfrence, gearRatio)
              - EncDistanceToCm(p.right * ROTATIONS, wheelCircumfrence, gearRatio)
            == (if dir == Enums.RIGHT then 2.0 * share else -2.0 * share)
  {
    var t := InPlaceTurnTargets(wheelCircumfrence, gearRatio, turningCircleCircumference, degs, dir);
    var share := turningCircleCircumference * (degs / 360.0);
    CmRoundTrip(share, wheelCircumfrence, gearRatio);
    var w := CmToEncDegrees(share, wheelCircumfrence, gearRatio);
    assert t.left / ROTATIONS * ROTATIONS == t.left;
    assert t.right / ROTATIONS * ROTATIONS == t.right;
    assert EncDistanceToCm(-w, wheelCircumfrence, gearRatio) == -EncDistanceToCm(w, wheelCircumfrence, gearRatio);
  }

  /** An in-place turn of `degs` that reaches its targets is reported by the
      heading estimate as a turn of 2*degs. */
  lemma {:induction false} InPlaceTurnReportsDoubleAngle(wheelCircumfrence: real, gearRatio: real,
                                                         turningCircleCircumference: real, degs: real)
    requires wheelCircumfrence * gearRatio != 0.0 && turningCircleCircumference != 0.0
    ensures var p := ReachedRotations(InPlaceTurnTargets(wheelCircumfrence, gearRatio, turningCircleCircumference, degs, Enums.RIGHT));
            RobotAngle(p.left, p.right, wheelCircumfrence, gearRatio, turningCircleCircumference)
            == RobotMath.NormalizeAngle(2.0 * degs)
  {
    InPlaceTurnTravel(wheelCircumfrence, gearRatio, turningCircleCircumference, degs, Enums.RIGHT);
    DoubleShareOverCircle(turningCircleCircumference, degs);
  }

  /** Twice a turn's share of the turning circle, over the circle, is twice
      the turn as a fraction of a full turn. */
  lemma DoubleShareOverCircle(turningCircleCircumference: real, degs: real)
    requires turningCircleCircumference != 0.0
    ensures (2.0 * (turningCircleCircumference * (degs / 360.0))) / turningCircleCircumference == 2.0 * (degs / 360.0)
  {
  }

  /** Half the travel difference of an in-place turn, as a share of the
      turning circle, is the turn itself. */
  lemma HalfTravelIsTurn(turningCircleCircumference: real, degs: real)
    requires turningCircleCircumference != 0.0
    ensures var share := turningCircleCircumference * (degs / 360.0);
            ((2.0 * share) / (2.0 * turningCircleCircumference)) * ROTATIONS == degs
            && ((-2.0 * share) / (2.0 * turningCircleCircumference)) * ROTATIONS == -degs
  {
    var c := turningCircleCircumference;
    var share := c * (degs / 360.0);
    assert (2.0 * share) / (2.0 * c) == share / c;
    assert share / c == degs / 360.0;
    assert (-2.0 * share) / (2.0 * c) == -(share / c);
  }

  /** With the intended heading estimate the same turn reads as `degs`. */
  lemma {:induction false} InPlaceTurnIntendedHeading(wheelCircumfrence: real, gearRatio: real,
                                                      turningCircleCircumference: real, degs: real, dir: Enums.Direction)
    requires wheelCircumfrence * gearRatio != 0.0 && turningCircleCircumference != 0.0
    ensures var p := ReachedRotations(InPlaceTurnTargets(wheelCircumfrence, gearRatio, turningCircleCircumference, degs, dir));
            RobotAngleIntended(p.left, p.right, wheelCircumfrence, gearRatio, turningCircleCircumference)
            == RobotMath.NormalizeAngle(if dir == Enums.RIGHT then degs else -degs)
  {
    var p := ReachedRotations(InPlaceTurnTargets(wheelCircumfrence, gearRatio, turningCircleCircumference, degs, dir));
    var diff := EncDistanceToCm(p.left * ROTATIONS, wheelCircumfrence, gearRatio)
                - EncDistanceToCm(p.right * ROTATIONS, wheelCircumfrence, gearRatio);
    var share := turningCircleCircumference * (degs / 360.0);
    InPlaceTurnTravel(wheelCircumfrence, gearRatio, turningCircleCircumference, degs, dir);
    assert diff == (if dir == Enums.RIGHT then 2.0 * share else -2.0 * share);
    HalfTravelIsTurn(turningCircleCircumference, degs);
    assert (diff / (2.0 * turningCircleCircumference)) * ROTATIONS == (if dir == Enums.RIGHT then degs else -degs);
  }

  /** A move command (CmdMoveDistance and its arc, in-place and forward
      specialisations): per-side targets in encoder degrees, a power, an end
      mode and a timeout, run against the drive it belongs to. */
  class CmdMoveDistance {
    const drive: SrxTankDrive
    var power: real
    var leftDist: real
    var rightDist: real
    var endMode: MoveEndMode
    var timeout: real
    var leftDone: bool
    var rightDone: bool

    /** Whether `AutoUtils.killRobot` was called because the move ran over time. */
    var killedRobot: bool

    constructor (drive: SrxTankDrive, endMode: MoveEndMode, leftDist: real, rightDist: real,
                 power: real, timeout: real)
      ensures this.drive == drive && this.endMode == endMode && this.power == power && this.timeout == timeout
      ensures this.leftDist == leftDist && this.rightDist == rightDist
      ensures !leftDone && !rightDone && !killedRobot
    {
      this.drive := drive;
      this.endMode := endMode;
      this.leftDist := leftDist;
      this.rightDist := rightDist;
      this.power := power;
      this.timeout := timeout;
      leftDone, rightDone, killedRobot := false, false, false;
    }

    /** CmdArcTurn: both targets start at 0, then the side opposite the
        direction is given the arc. */
    constructor ArcTurn(drive: SrxTankDrive, degs: real, msec: Int32, power: real, dir: Enums.Direction)
      ensures this.drive == drive && endMode == BOTH && this.power == power && timeout == msec as real
      ensures PerSide(leftDist, rightDist) == ArcTurnTargets(drive.track, degs, dir)
      ensures !leftDone && !rightDone && !killedRobot
    {
      this.drive := drive;
      endMode := BOTH;
      leftDist, rightDist := 0.0, 0.0;
      this.power := power;
      timeout := msec as real;
      leftDone, rightDone, killedRobot := false, false, false;
      new;
      var wheelAngularDist := (2.0 * PI * drive.track) * (degs / 360.0);
      if dir == Enums.RIGHT {
        leftDist := wheelAngularDist;
      } else {
        rightDist := wheelAngularDist;
      }
    }

    /** CmdInPlaceTurn with an explicit motor power. */
    constructor InPlaceTurn(drive: SrxTankDrive, degs: real, motorPower: real, msec: Int32, dir: Enums.Direction)
      requires drive.wheelCircumfrence * drive.gearRatio != 0.0
      ensures this.drive == drive && endMode == BOTH && power == motorPower && timeout == msec as real
      ensures PerSide(leftDist, rightDist)
           == InPlaceTurnTargets(drive.wheelCircumfrence, drive.gearRatio, drive.turningCircleCircumference, degs, dir)
      ensures !leftDone && !rightDone && !killedRobot
    {
      this.drive := drive;
      endMode := BOTH;
      leftDist, rightDist := 0.0, 0.0;
      power := motorPower;
      timeout := msec as real;
      leftDone, rightDone, killedRobot := false, false, false;
      new;
      var t := InPlaceTurnTargets(drive.wheelCircumfrence, drive.gearRatio, drive.turningCircleCircumference, degs, dir);
      leftDist, rightDist := t.left, t.right;
    }

    /** CmdInPlaceTurn at the default power of 0.5. */
    constructor InPlaceTurnAtHalfPower(drive: SrxTankDrive, degs: real, msec: Int32, dir: Enums.Direction)
      requires drive.wheelCircumfrence * drive.gearRatio != 0.0
      ensures this.drive == drive && endMode == BOTH && power == 0.5 && timeout == msec as real
      ensures PerSide(leftDist, rightDist)
           == InPlaceTurnTargets(drive.wheelCircumfrence, drive.gearRatio, drive.turningCircleCircumference, degs, dir)
      ensures !leftDone && !rightDone && !killedRobot
    {
      this.drive := drive;
      endMode := BOTH;
      leftDist, rightDist := 0.0, 0.0;
      power := 0.5;
      timeout := msec as real;
      leftDone, rightDone, killedRobot := false, false, false;
      new;
      var t := InPlaceTurnTargets(drive.wheelCircumfrence, drive.gearRatio, drive.turningCircleCircumference, degs, dir);
      leftDist, rightDist := t.left, t.right;
    }

    /** CmdMoveForward at full or half power. */
    constructor MoveForward(drive: SrxTankDrive, d: real, msec: Int32, fullSpeed: bool)
      requires drive.wheelCircumfrence * drive.gearRatio != 0.0
      ensures this.drive == drive && endMode == BOTH && power == ForwardPower(fullSpeed) && timeout == msec as real
      ensures PerSide(leftDist, rightDist) == ForwardTargets(drive.wheelCircumfrence, drive.gearRatio, d)
      ensures !leftDone && !rightDone && !killedRobot
    {
      this.drive := drive;
      endMode := BOTH;
      var t := ForwardTargets(drive.wheelCircumfrence, drive.gearRatio, d);
      leftDist, rightDist := t.left, t.right;
      power := ForwardPower(fullSpeed);
      timeout := msec as real;
      leftDone, rightDone, killedRobot := false, false, false;
    }

    /** CmdMoveForward at a given power. */
    constructor MoveForwardAtPower(drive: SrxTankDrive, d: real, msec: Int32, power: real)
      requires drive.wheelCircumfrence * drive.gearRatio != 0.0
      ensures this.drive == drive && endMode == BOTH && this.power == power && timeout == msec as real
      ensures PerSide(leftDist, rightDist) == ForwardTargets(drive.wheelCircumfrence, drive.gearRatio, d)
      ensures !leftDone && !rightDone && !killedRobot
    {
      this.drive := drive;
      endMode := BOTH;
      var t := ForwardTargets(drive.wheelCircumfrence, drive.gearRatio, d);
      leftDist, rightDist := t.left, t.right;
      this.power := power;
      timeout := msec as real;
      leftDone, rightDone, killedRobot := false, false, false;
    }

    /** Switches to position mode if the cache says percent output, zeroes the
        encoders, then sets each side's target in rotations. */
    method Initialize()
      requires drive.Valid()
      modifies drive`left, drive`right, drive`calls, drive`configuredForTeleop
      ensures drive.Valid() && !drive.configuredForTeleop
      ensures drive.Issued(InitializeCalls(old(drive.configuredForTeleop),
                                           PerSide(leftDist / ROTATIONS, rightDist / ROTATIONS)))
      ensures drive.left == old(drive.left).(mode := if old(drive.configuredForTeleop) then Position else old(drive.left.mode),
                                             position := 0.0, setpoint := leftDist / ROTATIONS)
      ensures drive.right == old(drive.right).(mode := if old(drive.configuredForTeleop) then Position else old(drive.right.mode),
                                               position := 0.0, setpoint := rightDist / ROTATIONS)
    {
      ghost var cs0 := drive.configuredForTeleop;
      ghost var l0, r0, c0 := drive.left, drive.right, drive.calls;
      var targets := PerSide(leftDist / ROTATIONS, rightDist / ROTATIONS);
      PerformInitializeCalls(l0, LeftSide, cs0, targets);
      PerformInitializeCalls(r0, RightSide, cs0, targets);
      PerformModeCalls(l0, LeftSide, cs0);
      PerformModeCalls(r0, RightSide, cs0);
      drive.ConfigureForAuto();
      ghost var c1 := drive.calls;
      drive.ClearEncoders();
      ghost var l2, r2, c2 := drive.left, drive.right, drive.calls;
      drive.Issue(SetCalls(targets));
      PerformSetCalls(l2, LeftSide, targets);
      PerformSetCalls(r2, RightSide, targets);
      assert drive.calls == c0 + InitializeCalls(cs0, targets);
    }

    method IsFinished() returns (finished: bool)
      modifies this`leftDone, this`rightDone
      ensures leftDone == SideDone(leftDist, drive.left.closedLoopError)
      ensures rightDone == SideDone(rightDist, drive.right.closedLoopError)
      ensures finished == MoveFinished(endMode, leftDone, rightDone)
    {
      leftDone := leftDist == 0.0
        || RobotMath.Abs((drive.left.closedLoopError / NATIVE_UNITS_PER_ROTATION) * ROTATIONS) < MOVEMENT_ERROR_THRESHOLD;
      rightDone := rightDist == 0.0
        || RobotMath.Abs((drive.right.closedLoopError / NATIVE_UNITS_PER_ROTATION) * ROTATIONS) < MOVEMENT_ERROR_THRESHOLD;
      match endMode {
        case BOTH => finished := leftDone && rightDone;
        case EITHER => finished := leftDone || rightDone;
      }
    }

    /** Stops the drive and, when the command timed out, kills the robot. */
    method End(timedOut: bool)
      requires drive.Valid()
      modifies drive`left, drive`right, drive`calls, drive`configuredForTeleop, this`killedRobot
      ensures drive.Valid() && drive.configuredForTeleop
      ensures drive.Issued(StopCalls(old(drive.configuredForTeleop)))
      ensures drive.left.mode == PercentVbus && drive.right.mode == PercentVbus
      ensures drive.left.setpoint == 0.0 && drive.right.setpoint == 0.0
      ensures killedRobot == (old(killedRobot) || timedOut)
    {
      drive.StopMovement();
      if timedOut {
        killedRobot := true;
      }
    }

    /** Stops the drive when another command takes it over. */
    method Interrupted()
      requires drive.Valid()
      modifies drive`left, drive`right, drive`calls, drive`configuredForTeleop
      ensures drive.Valid() && drive.configuredForTeleop
      ensures drive.Issued(StopCalls(old(drive.configuredForTeleop)))
      ensures drive.left.mode == PercentVbus && drive.right.mode == PercentVbus
      ensures drive.left.setpoint == 0.0 && drive.right.setpoint == 0.0
    {
      drive.StopMovement();
    }
  }

  /** A move started straight after construction, before any teleop call,
      does not switch the Talons to position mode: the cache starts out saying
      they are not in percent output, so the targets are set in whatever mode
      the Talons were built in. */
  method MoveBeforeTeleop(leftMotors: Talon, rightMotors: Talon, d: real) returns (drive: SrxTankDrive)
    requires leftMotors.mode == PercentVbus && rightMotors.mode == PercentVbus
    ensures drive.left.mode == PercentVbus && drive.right.mode == PercentVbus
    ensures drive.left.setpoint == ForwardTargets(48.0, 1.0, d).left / ROTATIONS
  {
    drive := new SrxTankDrive(leftMotors, rightMotors, 48.0, 1.0, 30.0, 40.0, 50.0);
    var cmd := new CmdMoveDistance.MoveForward(drive, d, 1000, true);
    cmd.Initialize();
  }
}
