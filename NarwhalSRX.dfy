/** A Talon SRX motor controller that remembers how its output and its sensor
    are reversed, with one reversal for autonomous and one for teleop
    (hardware.motor.NarwhalSRX). The vendor controller itself is abstracted to
    the two flags the class applies to it. */
module NarwhalSRX {
  import opened JavaSemantics

  /** The four ways a motor and its encoder can be reversed. */
  datatype Reverse = NONE | ENCODER | OUTPUT | BOTH {

    /** Whether the motor output is inverted in this mode: OUTPUT and BOTH. */
    function Inverted(): (inverted: bool)
      ensures inverted ==> this != NONE && this != ENCODER
      ensures !inverted ==> this != OUTPUT && this != BOTH
    {
      this == OUTPUT || this == BOTH
    }

    /** Whether the sensor phase is flipped in this mode: ENCODER and BOTH. */
    function SensorPhase(): (flipped: bool)
      ensures flipped ==> this != NONE && this != OUTPUT
      ensures !flipped ==> this != ENCODER && this != BOTH
    {
      this == ENCODER || this == BOTH
    }

    /** Display name of the mode: a capitalised word. */
    function Name(): (name: string)
      ensures |name| > 0 && 'A' <= name[0] <= 'Z'
    {
      match this
      case NONE => "None"
      case ENCODER => "Encoder"
      case OUTPUT => "Output"
      case BOTH => "Both"
    }
  }

  /** The mode that applies a given pair of flags: the inverse of the flag
      table, so every flag pair belongs to exactly one mode. */
  function FromFlags(inverted: bool, sensorPhase: bool): (m: Reverse)
    ensures m.Inverted() == inverted && m.SensorPhase() == sensorPhase
  {
    if inverted then (if sensorPhase then BOTH else OUTPUT)
    else (if sensorPhase then ENCODER else NONE)
  }

  /** Two modes with the same flags are the same mode. */
  lemma FlagsDetermineMode(a: Reverse, b: Reverse)
    requires a.Inverted() == b.Inverted() && a.SensorPhase() == b.SensorPhase()
    ensures a == b
  {}

  /** Different modes have different display names. */
  lemma NamesDistinct(a: Reverse, b: Reverse)
    requires a.Name() == b.Name()
    ensures a == b
  {
    // The initials N, E, O and B already tell the four modes apart.
    assert a.Name()[0] == b.Name()[0];
  }

  /** Reading a mode's flags and mapping them back gives the mode. */
  lemma FromFlagsOfMode(m: Reverse)
    ensures FromFlags(m.Inverted(), m.SensorPhase()) == m
  {}

  class NarwhalSrx {
    const deviceNumber: int

    /** The mode last applied; `None` models the `null` that configureAutonomous
        or configureTeleop store when their mode was never set. */
    var currentMode: Option<Reverse>
    var autonomousMode: Option<Reverse>
    var teleopMode: Option<Reverse>

    /** The controller's inversion and sensor phase (`setInverted`,
        `setSensorPhase`); before any mode is applied they are whatever the
        controller already had. */
    var inverted: bool
    var sensorPhase: bool

    /** Whether a mode has been applied to the controller since construction. */
    ghost var applied: bool

    /** Once a mode has been applied, whenever a mode is current the controller
        carries exactly its flags. */
    ghost predicate Valid()
      reads this
    {
      applied && currentMode.Some? ==>
        inverted == currentMode.value.Inverted() && sensorPhase == currentMode.value.SensorPhase()
    }

    /** The one-argument constructor: the current mode is NONE and neither the
        autonomous nor the teleop mode is set. No flag is applied, so the
        controller keeps the inversion and sensor phase it had. */
    constructor (deviceNumber: int, inverted: bool, sensorPhase: bool)
      ensures Valid()
      ensures this.deviceNumber == deviceNumber
      ensures currentMode == Some(NONE)
      ensures autonomousMode == None && teleopMode == None
      ensures this.inverted == inverted && this.sensorPhase == sensorPhase
      ensures !applied
    {
      this.deviceNumber := deviceNumber;
      this.inverted, this.sensorPhase := inverted, sensorPhase;
      applied := false;
      currentMode := Some(NONE);
      autonomousMode, teleopMode := None, None;
    }

    /** The three-argument constructor: stores the autonomous mode and applies
        the teleop one, which it does not store as the teleop mode. */
    constructor WithModes(deviceNumber: int, inverted: bool, sensorPhase: bool, autonomous: Reverse, teleop: Reverse)
      ensures Valid()
      ensures this.deviceNumber == deviceNumber
      ensures autonomousMode == Some(autonomous)
      ensures currentMode == Some(teleop)
      ensures teleopMode == None
      ensures this.inverted == teleop.Inverted() && this.sensorPhase == teleop.SensorPhase()
      ensures applied
    {
      this.deviceNumber := deviceNumber;
      this.inverted, this.sensorPhase := inverted, sensorPhase;
      applied := false;
      currentMode := Some(NONE);
      autonomousMode, teleopMode := None, None;
      new;
      SetAutnomousReverseMode(Some(autonomous));
      var _ := SetReverseMode(Some(teleop));
    }

    /** Makes `mode` current and applies its flags; a `null` mode is stored and
        then dereferenced, which throws before any flag is applied. */
    method SetReverseMode(mode: Option<Reverse>) returns (outcome: Outcome)
      requires Valid()
      modifies this
      ensures Valid()
      ensures currentMode == mode
      ensures autonomousMode == old(autonomousMode) && teleopMode == old(teleopMode)
      ensures mode.Some? ==>
        outcome == Returned && applied && inverted == mode.value.Inverted() && sensorPhase == mode.value.SensorPhase()
      ensures mode.None? ==>
        outcome == Threw(NullPointerException) && applied == old(applied) && inverted == old(inverted) && sensorPhase == old(sensorPhase)
    {
      currentMode := mode;
      if mode.None? {
        return Threw(NullPointerException);
      }
      inverted := mode.value.Inverted();
      sensorPhase := mode.value.SensorPhase();
      applied := true;
      outcome := Returned;
    }

    /** Stores the autonomous mode without applying it. */
    method SetAutnomousReverseMode(mode: Option<Reverse>)
      modifies this`autonomousMode
      ensures autonomousMode == mode
    {
      autonomousMode := mode;
    }

    /** Stores the teleop mode without applying it. */
    method SetTeleopReverseMode(mode: Option<Reverse>)
      modifies this`teleopMode
      ensures teleopMode == mode
    {
      teleopMode := mode;
    }

    /** Applies the stored autonomous mode. */
    method ConfigureAutonomous() returns (outcome: Outcome)
      requires Valid()
      modifies this
      ensures Valid()
      ensures currentMode == old(autonomousMode)
      ensures autonomousMode == old(autonomousMode) && teleopMode == old(teleopMode)
      ensures autonomousMode.Some? ==>
        outcome == Returned && applied && inverted == autonomousMode.value.Inverted() && sensorPhase == autonomousMode.value.SensorPhase()
      ensures autonomousMode.None? ==>
        outcome == Threw(NullPointerException) && applied == old(applied) && inverted == old(inverted) && sensorPhase == old(sensorPhase)
    {
      outcome := SetReverseMode(autonomousMode);
    }

    /** Applies the stored teleop mode. */
    method ConfigureTeleop() returns (outcome: Outcome)
      requires Valid()
      modifies this
      ensures Valid()
      ensures currentMode == old(teleopMode)
      ensures autonomousMode == old(autonomousMode) && teleopMode == old(teleopMode)
      ensures teleopMode.Some? ==>
        outcome == Returned && applied && inverted == teleopMode.value.Inverted() && sensorPhase == teleopMode.value.SensorPhase()
      ensures teleopMode.None? ==>
        outcome == Threw(NullPointerException) && applied == old(applied) && inverted == old(inverted) && sensorPhase == old(sensorPhase)
    {
      outcome := SetReverseMode(teleopMode);
    }
  }

  /** A controller built with both modes and then switched to teleop throws:
      the constructor never stored the teleop mode. */
  method ConstructedThenTeleop(inverted: bool, sensorPhase: bool, autonomous: Reverse, teleop: Reverse) returns (outcome: Outcome)
    ensures outcome == Threw(NullPointerException)
  {
    var srx := new NarwhalSrx.WithModes(3, inverted, sensorPhase, autonomous, teleop);
    outcome := srx.ConfigureTeleop();
  }
}
