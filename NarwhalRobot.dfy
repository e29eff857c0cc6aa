/** The robot base class's main loop (NarwhalRobot.startCompetition): start-up
    (hardware construction, listener set-up, the autonomous chooser), then one
    iteration of the endless loop that dispatches on the driver station's
    mode, runs each mode's Init hook once per entry and its Periodic hook as
    the mode dictates, starts the selected autonomous program, ticks the
    listener managers, and blocks for control data outside autonomous.
    Every hook and library call the loop makes is an event appended to a
    trace; what the driver station reports and what the user's hooks produce
    are inputs. */
module NarwhalRobot {
  import opened JavaSemantics

  /** The exit status `fail` passes to System.exit. */
  const FAIL_EXIT_STATUS: int := 7

  datatype RobotMode = Disabled | Test | Autonomous | Teleop

  /** What the driver station reports on one iteration. */
  datatype DriverStation = DriverStation(isDisabled: bool, isTest: bool, isAutonomous: bool,
                                         newControlData: bool)

  /** Identifies an autonomous program (a CommandGroup). */
  type ProgramId = nat

  /** Identifies a ListenerManager object. */
  type ManagerId = nat

  /** A freshly built autonomous chooser: its programs and what getSelected
      returns (the dashboard selection, or the default, or null). */
  datatype Chooser = Chooser(programs: seq<ProgramId>, selected: Option<ProgramId>)

  datatype ManagerCall = RecountControls | Tick

  /** Something the robot does that the outside world can see. */
  datatype Event =
    | LiveWindowEnabled(enabled: bool)
    | ConstructHardware
    | SetupListeners
    | ChooserConstructed
    | ChooserPublished
    | ObserveProgramStarting
    | ModeInit(mode: RobotMode)
    | ObserveProgram(mode: RobotMode)
    | ModePeriodic(mode: RobotMode)
    | ProgramStarted(program: ProgramId)
    | NoProgramToRun
    | SchedulerRun
    | Manager(call: ManagerCall, manager: ManagerId)
    | WaitForData
    | Exited(status: int)

  /** The four "already initialised" flags. */
  datatype Flags = Flags(disabledInitialized: bool, testInitialized: bool,
                         autonomousInitialized: bool, teleopInitialized: bool)

  function Initialized(f: Flags, m: RobotMode): bool
  {
    match m
    case Disabled => f.disabledInitialized
    case Test => f.testInitialized
    case Autonomous => f.autonomousInitialized
    case Teleop => f.teleopInitialized
  }

  /** The flags after entering `m`: its own set, the other three cleared. */
  function OnlyInitialized(m: RobotMode): (f: Flags)
    ensures forall other: RobotMode :: Initialized(f, other) <==> other == m
  {
    Flags(m == Disabled, m == Test, m == Autonomous, m == Teleop)
  }

  /** How many of the flags are set. */
  function SetCount(f: Flags): nat
  {
    (if f.disabledInitialized then 1 else 0) + (if f.testInitialized then 1 else 0)
    + (if f.autonomousInitialized then 1 else 0) + (if f.teleopInitialized then 1 else 0)
  }

  /** No two flags are set at once. */
  predicate AtMostOne(f: Flags)
  {
    SetCount(f) <= 1
  }

  /** The mode an iteration handles: disabled first, then test, then
      autonomous, otherwise teleop. */
  function DispatchedMode(ds: DriverStation): (m: RobotMode)
    ensures m == Disabled <==> ds.isDisabled
    ensures m == Test <==> !ds.isDisabled && ds.isTest
    ensures m == Autonomous <==> !ds.isDisabled && !ds.isTest && ds.isAutonomous
    ensures m == Teleop <==> !ds.isDisabled && !ds.isTest && !ds.isAutonomous
  {
    if ds.isDisabled then Disabled
    else if ds.isTest then Test
    else if ds.isAutonomous then Autonomous
    else Teleop
  }

  /** The events of building the chooser: it is published to the dashboard
      only when there is a real choice, more than one program. */
  function SetupAutoChooserEvents(ch: Chooser): (r: seq<Event>)
    ensures ChooserConstructed in r
    ensures ChooserPublished in r <==> |ch.programs| > 1
    ensures forall e :: e in r ==> e == ChooserConstructed || e == ChooserPublished
  {
    [ChooserConstructed] + (if |ch.programs| > 1 then [ChooserPublished] else [])
  }

  /** The program runAutoProgram starts: the selection, provided the chooser
      holds at least one program and the selection is not null. */
  function AutoProgramToRun(ch: Chooser): (p: Option<ProgramId>)
    ensures p.Some? <==> |ch.programs| >= 1 && ch.selected.Some?
    ensures p.Some? ==> p == ch.selected
  {
    if |ch.programs| > 0 then ch.selected else None
  }

  /** The events of runAutoProgram: the program is started, or the lack of
      one is reported and nothing starts. */
  function RunAutoProgramEvents(ch: Chooser): (r: seq<Event>)
    ensures |r| == 1
    ensures r[0] == NoProgramToRun <==> AutoProgramToRun(ch).None?
    ensures forall p: ProgramId :: r[0] == ProgramStarted(p) <==> AutoProgramToRun(ch) == Some(p)
  {
    match AutoProgramToRun(ch)
    case Some(p) => [ProgramStarted(p)]
    case None => [NoProgramToRun]
  }

  /** One call on each listener manager, in list order. */
  function ManagerEvents(call: ManagerCall, managers: seq<ManagerId>): (r: seq<Event>)
    ensures |r| == |managers|
    ensures forall i :: 0 <= i < |managers| ==> r[i] == Manager(call, managers[i])
    decreases |managers|
  {
    if managers == [] then [] else [Manager(call, managers[0])] + ManagerEvents(call, managers[1..])
  }

  /** Regrouping a trace extended twice. */
  lemma ConcatAssoc<T>(a: seq<T>, b: seq<T>, c: seq<T>)
    ensures a + b + c == a + (b + c)
  {
  }

  /** Regrouping a trace extended three times. */
  lemma ConcatRegroup<T>(a: seq<T>, b: seq<T>, c: seq<T>, d: seq<T>)
    ensures a + b + c + d == a + (b + c + d)
  {
  }

  /** The flags after an iteration: unchanged when the mode was already
      initialised, otherwise only the mode's own flag set. */
  function NextFlags(f: Flags, ds: DriverStation): Flags
  {
    EnterFlags(f, DispatchedMode(ds))
  }

  /** The flags after handling mode `m`. */
  function EnterFlags(f: Flags, m: RobotMode): Flags
  {
    if Initialized(f, m) then f else OnlyInitialized(m)
  }

  /** Whether this iteration enters Disabled coming from autonomous, the one
      case where the autonomous chooser is rebuilt. */
  predicate RebuildsChooser(f: Flags, ds: DriverStation)
  {
    RebuildsOnEntry(f, DispatchedMode(ds))
  }

  /** Whether handling mode `m` rebuilds the chooser. */
  predicate RebuildsOnEntry(f: Flags, m: RobotMode)
  {
    m == Disabled && !f.disabledInitialized && f.autonomousInitialized
  }

  /** The chooser after an iteration. */
  function NextChooser(f: Flags, ds: DriverStation, rebuilt: Chooser, chooser: Chooser): Chooser
  {
    if RebuildsChooser(f, ds) then rebuilt else chooser
  }

  /** The events of entering mode `m` (empty when already initialised). */
  function EntryEvents(f: Flags, m: RobotMode, rebuilt: Chooser, chooser: Chooser,
                       managers: seq<ManagerId>): seq<Event>
  {
    if Initialized(f, m) then []
    else match m
      case Disabled =>
        [LiveWindowEnabled(false)]
        + (if f.autonomousInitialized then SetupAutoChooserEvents(rebuilt) else [])
        + [ModeInit(Disabled)]
      case Test =>
        [LiveWindowEnabled(true), ModeInit(Test)]
      case Autonomous =>
        [LiveWindowEnabled(false), ModeInit(Autonomous)] + RunAutoProgramEvents(chooser)
      case Teleop =>
        [LiveWindowEnabled(false), ModeInit(Teleop)] + ManagerEvents(RecountControls, managers)
  }

  /** The periodic events of mode `m`: gated on new control data, except in
      autonomous. */
  function PeriodicEvents(m: RobotMode, newControlData: bool, managers: seq<ManagerId>): seq<Event>
  {
    match m
    case Autonomous =>
      [ObserveProgram(Autonomous), SchedulerRun, ModePeriodic(Autonomous)]
    case Teleop =>
      if newControlData
      then [ObserveProgram(Teleop)] + ManagerEvents(Tick, managers) + [ModePeriodic(Teleop)]
      else []
    case _ =>
      if newControlData then [ObserveProgram(m), ModePeriodic(m)] else []
  }

  /** All events of one loop iteration, in order. */
  function IterationEvents(f: Flags, ds: DriverStation, rebuilt: Chooser, chooser: Chooser,
                           managers: seq<ManagerId>): seq<Event>
  {
    var m := DispatchedMode(ds);
    EntryEvents(f, m, rebuilt, chooser, managers)
    + PeriodicEvents(m, ds.newControlData, managers)
    + (if NextFlags(f, ds).autonomousInitialized then [] else [WaitForData])
  }

  /** The flags after a run of reports started from `f`: those of the last
      mode handled, or `f` when nothing was handled. */
  function FlagsAfterRun(f: Flags, reports: seq<DriverStation>): Flags
  {
    if reports == [] then f else OnlyInitialized(DispatchedMode(reports[|reports| - 1]))
  }

  /** The chooser after a run of reports, `rebuilt[i]` being the chooser
      constructAutoPrograms fills on iteration i. */
  function ChooserAfterRun(f: Flags, chooser: Chooser, reports: seq<DriverStation>, rebuilt: seq<Chooser>): Chooser
    requires |rebuilt| == |reports|
    decreases |reports|
  {
    if reports == [] then chooser
    else
      var k := |reports| - 1;
      NextChooser(FlagsAfterRun(f, reports[..k]), reports[k], rebuilt[k],
                  ChooserAfterRun(f, chooser, reports[..k], rebuilt[..k]))
  }

  /** All events of a run of iterations, in order: each iteration's events
      start from the flags and chooser the previous ones left. */
  function RunEvents(f: Flags, chooser: Chooser, reports: seq<DriverStation>, rebuilt: seq<Chooser>,
                     managers: seq<ManagerId>): seq<Event>
    requires |rebuilt| == |reports|
    decreases |reports|
  {
    if reports == [] then []
    else
      var k := |reports| - 1;
      RunEvents(f, chooser, reports[..k], rebuilt[..k], managers)
      + IterationEvents(FlagsAfterRun(f, reports[..k]), reports[k], rebuilt[k],
                        ChooserAfterRun(f, chooser, reports[..k], rebuilt[..k]), managers)
  }

  /** The events of start-up: a hook that throws sends the robot to `fail`,
      which exits, so nothing after it happens. */
  function StartupEvents(hardwareOk: bool, listenersOk: bool, ch: Chooser): seq<Event>
  {
    [LiveWindowEnabled(false), ConstructHardware]
    + if !hardwareOk then [Exited(FAIL_EXIT_STATUS)]
      else [SetupListeners]
           + if !listenersOk then [Exited(FAIL_EXIT_STATUS)]
             else SetupAutoChooserEvents(ch) + [ObserveProgramStarting]
  }

  // ---------------------------------------------------------------------------
  // Properties of an iteration
  // ---------------------------------------------------------------------------

  /** The listener-manager events are calls of the one kind asked for. */
  lemma ManagerEventsCalls(call: ManagerCall, managers: seq<ManagerId>)
    ensures forall e :: e in ManagerEvents(call, managers) ==> e.Manager? && e.call == call
  {
    var r := ManagerEvents(call, managers);
    forall e | e in r
      ensures e.Manager? && e.call == call
    {
      var i :| 0 <= i < |r| && r[i] == e;
    }
  }

  /** What entering a mode can do: switch LiveWindow, build or publish the
      chooser, run an Init hook, start a program or report that none can
      start, and recount listener managers. */
  predicate IsEntryEvent(e: Event)
  {
    e.LiveWindowEnabled? || e == ChooserConstructed || e == ChooserPublished || e.ModeInit?
    || e.ProgramStarted? || e == NoProgramToRun || (e.Manager? && e.call == RecountControls)
  }

  /** Entering a mode does only entry-side things. */
  lemma EntryEventsKinds(f: Flags, m: RobotMode, rebuilt: Chooser, chooser: Chooser, managers: seq<ManagerId>)
    ensures forall e :: e in EntryEvents(f, m, rebuilt, chooser, managers) ==> IsEntryEvent(e)
  {
    var entry := EntryEvents(f, m, rebuilt, chooser, managers);
    if !Initialized(f, m) {
      match m {
        case Disabled =>
          var built: seq<Event> := if f.autonomousInitialized then SetupAutoChooserEvents(rebuilt) else [];
          assert entry == [LiveWindowEnabled(false)] + built + [ModeInit(Disabled)];
        case Test =>
        case Autonomous =>
          var run := RunAutoProgramEvents(chooser);
          assert entry == [LiveWindowEnabled(false), ModeInit(Autonomous)] + run;
          assert run == [run[0]];
          assert run[0] == NoProgramToRun || run[0] == ProgramStarted(AutoProgramToRun(chooser).value);
        case Teleop =>
          var recounts := ManagerEvents(RecountControls, managers);
          ManagerEventsCalls(RecountControls, managers);
          assert entry == [LiveWindowEnabled(false), ModeInit(Teleop)] + recounts;
      }
    }
  }

  /** The periodic part of an iteration: its mode's Periodic hook runs iff
      the mode is autonomous or new control data arrived, the scheduler runs
      iff the mode is autonomous, and nothing entry-side happens. */
  lemma PeriodicEventsKinds(m: RobotMode, newControlData: bool, managers: seq<ManagerId>)
    ensures forall e :: e in PeriodicEvents(m, newControlData, managers) ==> !IsEntryEvent(e) && e != WaitForData
    ensures forall other :: ModePeriodic(other) in PeriodicEvents(m, newControlData, managers)
                            <==> other == m && (m == Autonomous || newControlData)
    ensures SchedulerRun in PeriodicEvents(m, newControlData, managers) <==> m == Autonomous
  {
    var periodic := PeriodicEvents(m, newControlData, managers);
    if m == Teleop && newControlData {
      var ticks := ManagerEvents(Tick, managers);
      ManagerEventsCalls(Tick, managers);
      assert periodic == [ObserveProgram(Teleop)] + ticks + [ModePeriodic(Teleop)];
    }
  }

  /** Entering a mode leaves the flags consistent. */
  lemma OnlyInitializedIsConsistent(m: RobotMode)
    ensures AtMostOne(OnlyInitialized(m))
  {}

  /** From flags with at most one set, an iteration leaves exactly one set:
      the handled mode's. */
  lemma OneFlagAfterIteration(f: Flags, ds: DriverStation)
    requires AtMostOne(f)
    ensures NextFlags(f, ds) == OnlyInitialized(DispatchedMode(ds))
    ensures forall m :: Initialized(NextFlags(f, ds), m) <==> m == DispatchedMode(ds)
  {
    var m := DispatchedMode(ds);
    if Initialized(f, m) {
      assert forall other :: Initialized(f, other) <==> other == m;
      assert f == OnlyInitialized(m) by {
        assert Initialized(f, Disabled) == (m == Disabled);
        assert Initialized(f, Test) == (m == Test);
        assert Initialized(f, Autonomous) == (m == Autonomous);
        assert Initialized(f, Teleop) == (m == Teleop);
      }
    }
  }

  /** An Init hook runs exactly when its mode is handled and its flag was
      clear. */
  lemma InitOnlyWhenFlagClear(f: Flags, ds: DriverStation, rebuilt: Chooser, chooser: Chooser,
                              managers: seq<ManagerId>, m: RobotMode)
    ensures ModeInit(m) in IterationEvents(f, ds, rebuilt, chooser, managers)
        <==> m == DispatchedMode(ds) && !Initialized(f, m)
  {
    var d := DispatchedMode(ds);
    var entry := EntryEvents(f, d, rebuilt, chooser, managers);
    var periodic := PeriodicEvents(d, ds.newControlData, managers);
    var tail: seq<Event> := if NextFlags(f, ds).autonomousInitialized then [] else [WaitForData];
    assert IterationEvents(f, ds, rebuilt, chooser, managers) == entry + periodic + tail;
    assert ModeInit(m) !in periodic by {
      if d == Teleop && ds.newControlData {
        var ticks := ManagerEvents(Tick, managers);
        assert periodic == [ObserveProgram(Teleop)] + ticks + [ModePeriodic(Teleop)];
        assert ModeInit(m) !in ticks;
      }
    }
    if !Initialized(f, d) {
      match d {
        case Disabled =>
          var built: seq<Event> := if f.autonomousInitialized then SetupAutoChooserEvents(rebuilt) else [];
          assert entry == [LiveWindowEnabled(false)] + built + [ModeInit(Disabled)];
          assert ModeInit(m) !in built;
        case Test =>
        case Autonomous =>
          assert ModeInit(m) !in RunAutoProgramEvents(chooser);
        case Teleop =>
          var recounts := ManagerEvents(RecountControls, managers);
          assert entry == [LiveWindowEnabled(false), ModeInit(Teleop)] + recounts;
          assert ModeInit(m) !in recounts;
      }
    }
  }

  /** A second iteration in the same mode runs no Init hook: each mode is
      initialised once per entry. */
  lemma NoInitWhenStaying(f: Flags, ds1: DriverStation, ds2: DriverStation, rebuilt: Chooser,
                          chooser: Chooser, managers: seq<ManagerId>, m: RobotMode)
    requires DispatchedMode(ds1) == DispatchedMode(ds2)
    ensures ModeInit(m) !in IterationEvents(NextFlags(f, ds1), ds2, rebuilt, chooser, managers)
  {
    InitOnlyWhenFlagClear(NextFlags(f, ds1), ds2, rebuilt, chooser, managers, m);
  }

  /** The chooser is rebuilt exactly when Disabled is entered while the
      autonomous flag is set, and the rebuilt chooser replaces the old one. */
  lemma ChooserRebuiltOnDisabledEntry(f: Flags, ds: DriverStation, rebuilt: Chooser, chooser: Chooser,
                                      managers: seq<ManagerId>)
    ensures ChooserConstructed in IterationEvents(f, ds, rebuilt, chooser, managers)
        <==> RebuildsChooser(f, ds)
    ensures RebuildsChooser(f, ds) ==> NextChooser(f, ds, rebuilt, chooser) == rebuilt
    ensures !RebuildsChooser(f, ds) ==> NextChooser(f, ds, rebuilt, chooser) == chooser
  {
    var d := DispatchedMode(ds);
    var entry := EntryEvents(f, d, rebuilt, chooser, managers);
    var periodic := PeriodicEvents(d, ds.newControlData, managers);
    var tail: seq<Event> := if NextFlags(f, ds).autonomousInitialized then [] else [WaitForData];
    assert IterationEvents(f, ds, rebuilt, chooser, managers) == entry + periodic + tail;
    assert ChooserConstructed !in periodic by {
      if d == Teleop && ds.newControlData {
        var ticks := ManagerEvents(Tick, managers);
        assert periodic == [ObserveProgram(Teleop)] + ticks + [ModePeriodic(Teleop)];
        assert ChooserConstructed !in ticks;
      }
    }
    if !Initialized(f, d) {
      match d {
        case Disabled =>
          var built: seq<Event> := if f.autonomousInitialized then SetupAutoChooserEvents(rebuilt) else [];
          assert entry == [LiveWindowEnabled(false)] + built + [ModeInit(Disabled)];
        case Test =>
        case Autonomous =>
          assert ChooserConstructed !in RunAutoProgramEvents(chooser);
        case Teleop =>
          var recounts := ManagerEvents(RecountControls, managers);
          assert entry == [LiveWindowEnabled(false), ModeInit(Teleop)] + recounts;
          assert ChooserConstructed !in recounts;
      }
    }
  }

  /** The disabled, test and teleop Periodic hooks run only on new control
      data; the autonomous one, and the command scheduler, run on every
      autonomous iteration. */
  lemma PeriodicHooks(f: Flags, ds: DriverStation, rebuilt: Chooser, chooser: Chooser,
                      managers: seq<ManagerId>, m: RobotMode)
    ensures m != Autonomous ==>
      (ModePeriodic(m) in IterationEvents(f, ds, rebuilt, chooser, managers)
       <==> DispatchedMode(ds) == m && ds.newControlData)
    ensures ModePeriodic(Autonomous) in IterationEvents(f, ds, rebuilt, chooser, managers)
        <==> DispatchedMode(ds) == Autonomous
    ensures SchedulerRun in IterationEvents(f, ds, rebuilt, chooser, managers)
        <==> DispatchedMode(ds) == Autonomous
  {
    var d := DispatchedMode(ds);
    var entry := EntryEvents(f, d, rebuilt, chooser, managers);
    var periodic := PeriodicEvents(d, ds.newControlData, managers);
    var tail: seq<Event> := if NextFlags(f, ds).autonomousInitialized then [] else [WaitForData];
    assert IterationEvents(f, ds, rebuilt, chooser, managers) == entry + periodic + tail;
    EntryEventsKinds(f, d, rebuilt, chooser, managers);
    PeriodicEventsKinds(d, ds.newControlData, managers);
    assert !IsEntryEvent(ModePeriodic(m)) && !IsEntryEvent(SchedulerRun);
  }


  /** Entering autonomous runs autonomousInit and then runAutoProgram; every
      autonomous iteration ends with the scheduler run and then
      autonomousPeriodic, without waiting for data. */
  lemma AutonomousOrder(f: Flags, ds: DriverStation, rebuilt: Chooser, chooser: Chooser,
                        managers: seq<ManagerId>)
    requires DispatchedMode(ds) == Autonomous
    ensures var e := IterationEvents(f, ds, rebuilt, chooser, managers);
      |e| >= 3
      && e[|e| - 1] == ModePeriodic(Autonomous) && e[|e| - 2] == SchedulerRun
      && (!f.autonomousInitialized ==>
            |e| == 6 && e[1] == ModeInit(Autonomous)
            && e[2] == (match AutoProgramToRun(chooser)
                        case Some(p) => ProgramStarted(p)
                        case None => NoProgramToRun))
  {}

  /** Entering teleop runs teleopInit and then recounts every listener
      manager, in list order. */
  lemma TeleopEntryOrder(f: Flags, ds: DriverStation, rebuilt: Chooser, chooser: Chooser,
                         managers: seq<ManagerId>)
    requires DispatchedMode(ds) == Teleop && !f.teleopInitialized
    ensures var e := IterationEvents(f, ds, rebuilt, chooser, managers);
      |e| >= 2 + |managers| && e[1] == ModeInit(Teleop)
      && forall i :: 0 <= i < |managers| ==> e[2 + i] == Manager(RecountControls, managers[i])
  {
    var e := IterationEvents(f, ds, rebuilt, chooser, managers);
    var entry := EntryEvents(f, Teleop, rebuilt, chooser, managers);
    var recounts := ManagerEvents(RecountControls, managers);
    var rest := PeriodicEvents(Teleop, ds.newControlData, managers)
                + (if NextFlags(f, ds).autonomousInitialized then [] else [WaitForData]);
    assert entry == [LiveWindowEnabled(false), ModeInit(Teleop)] + recounts;
    assert e == entry + rest;
    forall i | 0 <= i < |managers|
      ensures e[2 + i] == Manager(RecountControls, managers[i])
    {
      assert e[2 + i] == entry[2 + i];
    }
  }


  /** A teleop iteration with new control data ticks every listener manager,
      in list order, then runs teleopPeriodic, then waits for data. */
  lemma TeleopTickOrder(f: Flags, ds: DriverStation, rebuilt: Chooser, chooser: Chooser,
                        managers: seq<ManagerId>)
    requires AtMostOne(f)
    requires DispatchedMode(ds) == Teleop && ds.newControlData
    ensures var e := IterationEvents(f, ds, rebuilt, chooser, managers);
      |e| >= 3 + |managers|
      && e[|e| - 1] == WaitForData && e[|e| - 2] == ModePeriodic(Teleop)
      && forall i :: 0 <= i < |managers| ==> e[|e| - 2 - |managers| + i] == Manager(Tick, managers[i])
  {
    OneFlagAfterIteration(f, ds);
    assert !NextFlags(f, ds).autonomousInitialized;
    var e := IterationEvents(f, ds, rebuilt, chooser, managers);
    var entry := EntryEvents(f, Teleop, rebuilt, chooser, managers);
    var ticks := ManagerEvents(Tick, managers);
    var periodic := PeriodicEvents(Teleop, true, managers);
    assert periodic == [ObserveProgram(Teleop)] + ticks + [ModePeriodic(Teleop)];
    assert e == entry + periodic + [WaitForData];
    assert e == (entry + [ObserveProgram(Teleop)]) + ticks + [ModePeriodic(Teleop), WaitForData];
    var start := |entry| + 1;
    assert |e| - 2 - |managers| == start;
    assert forall i :: 0 <= i < |managers| ==> e[start + i] == ticks[i];
  }

  /** The iteration ends by waiting for data exactly when the autonomous flag
      is clear afterwards; from flags with at most one set, that is exactly
      when the mode handled was not autonomous. */
  lemma WaitForDataUnlessAutonomous(f: Flags, ds: DriverStation, rebuilt: Chooser, chooser: Chooser,
                                    managers: seq<ManagerId>)
    ensures var e := IterationEvents(f, ds, rebuilt, chooser, managers);
      (WaitForData in e <==> !NextFlags(f, ds).autonomousInitialized)
      && (WaitForData in e ==> e[|e| - 1] == WaitForData)
    ensures AtMostOne(f) ==>
      (WaitForData in IterationEvents(f, ds, rebuilt, chooser, managers) <==> DispatchedMode(ds) != Autonomous)
  {
    var d := DispatchedMode(ds);
    var entry := EntryEvents(f, d, rebuilt, chooser, managers);
    var periodic := PeriodicEvents(d, ds.newControlData, managers);
    var tail: seq<Event> := if NextFlags(f, ds).autonomousInitialized then [] else [WaitForData];
    assert IterationEvents(f, ds, rebuilt, chooser, managers) == entry + periodic + tail;
    EntryEventsKinds(f, d, rebuilt, chooser, managers);
    PeriodicEventsKinds(d, ds.newControlData, managers);
    assert WaitForData !in entry + periodic;
    if AtMostOne(f) {
      OneFlagAfterIteration(f, ds);
    }
  }


  /** Start-up exits with status 7 exactly when constructing the hardware or
      setting up the listeners throws; otherwise it builds the chooser and
      tells the driver station the program is starting. */
  lemma StartupFails(hardwareOk: bool, listenersOk: bool, ch: Chooser)
    ensures var e := StartupEvents(hardwareOk, listenersOk, ch);
      (Exited(FAIL_EXIT_STATUS) in e <==> !hardwareOk || !listenersOk)
      && (Exited(FAIL_EXIT_STATUS) in e ==> e[|e| - 1] == Exited(FAIL_EXIT_STATUS))
      && (SetupListeners in e <==> hardwareOk)
      && (ChooserConstructed in e <==> hardwareOk && listenersOk)
      && (ObserveProgramStarting in e <==> hardwareOk && listenersOk)
  {
    if hardwareOk && listenersOk {
      var built := SetupAutoChooserEvents(ch);
      assert StartupEvents(hardwareOk, listenersOk, ch)
          == [LiveWindowEnabled(false), ConstructHardware, SetupListeners] + built + [ObserveProgramStarting];
      assert Exited(FAIL_EXIT_STATUS) !in built;
    }
  }

  // ---------------------------------------------------------------------------
  // The robot
  // ---------------------------------------------------------------------------

  class Robot {
    var disabledInitialized: bool
    var testInitialized: bool
    var autonomousInitialized: bool
    var teleopInitialized: bool

    var autoChooser: Chooser
    var listenerManagers: seq<ManagerId>

    /** Everything the robot has done, oldest first. */
    var trace: seq<Event>

    /** The status passed to System.exit, once the program has exited. */
    var exitStatus: Option<int>

    function CurrentFlags(): Flags
      reads this
    {
      Flags(disabledInitialized, testInitialized, autonomousInitialized, teleopInitialized)
    }

    ghost predicate Valid()
      reads this
    {
      AtMostOne(CurrentFlags())
    }

    /** A robot at power-on: no mode initialised, no chooser programs, no
        listener managers, nothing done yet. */
    constructor ()
      ensures Valid()
      ensures CurrentFlags() == Flags(false, false, false, false)
      ensures autoChooser == Chooser([], None) && listenerManagers == []
      ensures trace == [] && exitStatus == None
    {
      disabledInitialized, testInitialized := false, false;
      autonomousInitialized, teleopInitialized := false, false;
      autoChooser := Chooser([], None);
      listenerManagers := [];
      trace := [];
      exitStatus := None;
    }

    /** Records events. */
    method Emit(events: seq<Event>)
      modifies this`trace
      ensures trace == old(trace) + events
    {
      trace := trace + events;
    }

    /** Exits with status 7 after a fatal error. */
    method Fail()
      modifies this`trace, this`exitStatus
      ensures exitStatus == Some(FAIL_EXIT_STATUS)
      ensures trace == old(trace) + [Exited(FAIL_EXIT_STATUS)]
    {
      Emit([Exited(FAIL_EXIT_STATUS)]);
      exitStatus := Some(FAIL_EXIT_STATUS);
    }

    /** Replaces the chooser with the freshly constructed one and publishes it
        when it offers a choice. */
    method SetupAutoChooser(ch: Chooser)
      modifies this`autoChooser, this`trace
      ensures autoChooser == ch
      ensures trace == old(trace) + SetupAutoChooserEvents(ch)
    {
      autoChooser := ch;
      Emit([ChooserConstructed]);
      if |ch.programs| > 1 {
        Emit([ChooserPublished]);
      }
    }

    /** Starts the selected autonomous program, if there is one. */
    method RunAutoProgram()
      modifies this`trace
      ensures trace == old(trace) + RunAutoProgramEvents(autoChooser)
    {
      var autoProgram: Option<ProgramId> := None;
      if |autoChooser.programs| > 0 {
        autoProgram := autoChooser.selected;
      }
      if autoProgram.None? {
        Emit([NoProgramToRun]);
      } else {
        Emit([ProgramStarted(autoProgram.value)]);
      }
    }

    method AddListenerManager(manager: ManagerId)
      modifies this`listenerManagers
      ensures listenerManagers == old(listenerManagers) + [manager]
    {
      listenerManagers := listenerManagers + [manager];
    }

    /** Recounts the controls of every listener manager, in list order. */
    method RecountAllControls()
      modifies this`trace
      ensures trace == old(trace) + ManagerEvents(RecountControls, listenerManagers)
    {
      var i := 0;
      while i < |listenerManagers|
        invariant 0 <= i <= |listenerManagers|
        invariant trace == old(trace) + ManagerEvents(RecountControls, listenerManagers[..i])
      {
        Emit([Manager(RecountControls, listenerManagers[i])]);
        assert ManagerEvents(RecountControls, listenerManagers[..i + 1])
            == ManagerEvents(RecountControls, listenerManagers[..i]) + [Manager(RecountControls, listenerManagers[i])];
        i := i + 1;
      }
      assert listenerManagers[..i] == listenerManagers;
    }

    /** Ticks every listener manager, in list order. */
    method TickListenerManagers()
      modifies this`trace
      ensures trace == old(trace) + ManagerEvents(Tick, listenerManagers)
    {
      var i := 0;
      while i < |listenerManagers|
        invariant 0 <= i <= |listenerManagers|
        invariant trace == old(trace) + ManagerEvents(Tick, listenerManagers[..i])
      {
        Emit([Manager(Tick, listenerManagers[i])]);
        assert ManagerEvents(Tick, listenerManagers[..i + 1])
            == ManagerEvents(Tick, listenerManagers[..i]) + [Manager(Tick, listenerManagers[i])];
        i := i + 1;
      }
      assert listenerManagers[..i] == listenerManagers;
    }

    /** Start-up before the loop. The user's hooks are represented by whether
        they throw (`hardwareOk`, `listenersOk`) and by the chooser
        constructAutoPrograms fills (`ch`). */
    method Startup(hardwareOk: bool, listenersOk: bool, ch: Chooser)
      requires exitStatus.None?
      modifies this`autoChooser, this`trace, this`exitStatus
      ensures trace == old(trace) + StartupEvents(hardwareOk, listenersOk, ch)
      ensures exitStatus == (if hardwareOk && listenersOk then None else Some(FAIL_EXIT_STATUS))
      ensures autoChooser == (if hardwareOk && listenersOk then ch else old(autoChooser))
    {
      Emit([LiveWindowEnabled(false), ConstructHardware]);
      if !hardwareOk {
        Fail();
        return;
      }
      Emit([SetupListeners]);
      if !listenersOk {
        Fail();
        return;
      }
      SetupAutoChooser(ch);
      Emit([ObserveProgramStarting]);
    }

    /** Entering Disabled: LiveWindow off, the chooser rebuilt when coming
        from autonomous, disabledInit, then only the disabled flag set. */
    method EnterDisabled(rebuilt: Chooser)
      requires !disabledInitialized
      modifies this`disabledInitialized, this`testInitialized, this`autonomousInitialized,
               this`teleopInitialized, this`autoChooser, this`trace
      ensures CurrentFlags() == OnlyInitialized(Disabled)
      ensures autoChooser == if old(autonomousInitialized) then rebuilt else old(autoChooser)
      ensures trace == old(trace) + EntryEvents(old(CurrentFlags()), Disabled, rebuilt, old(autoChooser),
                                                listenerManagers)
    {
      ghost var t0 := trace;
      Emit([LiveWindowEnabled(false)]);
      ghost var built: seq<Event> := [];
      if autonomousInitialized {
        SetupAutoChooser(rebuilt);
        built := SetupAutoChooserEvents(rebuilt);
      }
      Emit([ModeInit(Disabled)]);
      ConcatRegroup(t0, [LiveWindowEnabled(false)], built, [ModeInit(Disabled)]);
      disabledInitialized := true;
      autonomousInitialized := false;
      teleopInitialized := false;
      testInitialized := false;
    }

    /** Entering Test: LiveWindow on, testInit, then only the test flag set. */
    method EnterTest()
      requires !testInitialized
      modifies this`disabledInitialized, this`testInitialized, this`autonomousInitialized,
               this`teleopInitialized, this`trace
      ensures CurrentFlags() == OnlyInitialized(Test)
      ensures trace == old(trace) + EntryEvents(old(CurrentFlags()), Test, autoChooser, autoChooser,
                                                listenerManagers)
    {
      Emit([LiveWindowEnabled(true), ModeInit(Test)]);
      testInitialized := true;
      autonomousInitialized := false;
      teleopInitialized := false;
      disabledInitialized := false;
    }

    /** Entering Autonomous: LiveWindow off, autonomousInit, the selected
        program started, then only the autonomous flag set. */
    method EnterAutonomous()
      requires !autonomousInitialized
      modifies this`disabledInitialized, this`testInitialized, this`autonomousInitialized,
               this`teleopInitialized, this`trace
      ensures CurrentFlags() == OnlyInitialized(Autonomous)
      ensures trace == old(trace) + EntryEvents(old(CurrentFlags()), Autonomous, autoChooser, autoChooser,
                                                listenerManagers)
    {
      ghost var t0 := trace;
      Emit([LiveWindowEnabled(false), ModeInit(Autonomous)]);
      RunAutoProgram();
      ConcatAssoc(t0, [LiveWindowEnabled(false), ModeInit(Autonomous)], RunAutoProgramEvents(autoChooser));
      autonomousInitialized := true;
      testInitialized := false;
      teleopInitialized := false;
      disabledInitialized := false;
    }

    /** Entering Teleop: LiveWindow off, teleopInit, every listener manager
        recounted, then only the teleop flag set. */
    method EnterTeleop()
      requires !teleopInitialized
      modifies this`disabledInitialized, this`testInitialized, this`autonomousInitialized,
               this`teleopInitialized, this`trace
      ensures CurrentFlags() == OnlyInitialized(Teleop)
      ensures trace == old(trace) + EntryEvents(old(CurrentFlags()), Teleop, autoChooser, autoChooser,
                                                listenerManagers)
    {
      ghost var t0 := trace;
      Emit([LiveWindowEnabled(false), ModeInit(Teleop)]);
      RecountAllControls();
      ConcatAssoc(t0, [LiveWindowEnabled(false), ModeInit(Teleop)], ManagerEvents(RecountControls, listenerManagers));
      teleopInitialized := true;
      testInitialized := false;
      autonomousInitialized := false;
      disabledInitialized := false;
    }

    /** The entry part of handling mode `m`: nothing when the mode is
        already initialised, otherwise its Init sequence and the flag update. */
    method Enter(m: RobotMode, rebuilt: Chooser)
      modifies this`disabledInitialized, this`testInitialized, this`autonomousInitialized,
               this`teleopInitialized, this`autoChooser, this`trace
      ensures CurrentFlags() == EnterFlags(old(CurrentFlags()), m)
      ensures autoChooser == if RebuildsOnEntry(old(CurrentFlags()), m) then rebuilt else old(autoChooser)
      ensures trace == old(trace) + EntryEvents(old(CurrentFlags()), m, rebuilt, old(autoChooser), listenerManagers)
    {
      match m {
        case Disabled =>
          if !disabledInitialized {
            EnterDisabled(rebuilt);
          }
        case Test =>
          if !testInitialized {
            EnterTest();
          }
        case Autonomous =>
          if !autonomousInitialized {
            EnterAutonomous();
          }
        case Teleop =>
          if !teleopInitialized {
            EnterTeleop();
          }
      }
    }

    /** A teleop iteration with new control data: the program observed,
        every listener manager ticked, then teleopPeriodic. */
    method TeleopTick()
      modifies this`trace
      ensures trace == old(trace) + ([ObserveProgram(Teleop)] + ManagerEvents(Tick, listenerManagers)
                                     + [ModePeriodic(Teleop)])
    {
      ghost var t0 := trace;
      Emit([ObserveProgram(Teleop)]);
      TickListenerManagers();
      Emit([ModePeriodic(Teleop)]);
      ConcatRegroup(t0, [ObserveProgram(Teleop)], ManagerEvents(Tick, listenerManagers), [ModePeriodic(Teleop)]);
    }

    /** The periodic part of handling mode `m`. */
    method Periodic(m: RobotMode, newControlData: bool)
      modifies this`trace
      ensures trace == old(trace) + PeriodicEvents(m, newControlData, listenerManagers)
    {
      match m {
        case Autonomous =>
          Emit([ObserveProgram(Autonomous), SchedulerRun, ModePeriodic(Autonomous)]);
        case Teleop =>
          if newControlData {
            TeleopTick();
          }
        case _ =>
          if newControlData {
            Emit([ObserveProgram(m), ModePeriodic(m)]);
          }
      }
    }

    /** Handling the mode the driver station's report selects: its entry
        part, then its periodic part. */
    method Handle(ds: DriverStation, rebuilt: Chooser)
      modifies this`disabledInitialized, this`testInitialized, this`autonomousInitialized,
               this`teleopInitialized, this`autoChooser, this`trace
      ensures CurrentFlags() == NextFlags(old(CurrentFlags()), ds)
      ensures autoChooser == NextChooser(old(CurrentFlags()), ds, rebuilt, old(autoChooser))
      ensures trace == old(trace) + EntryEvents(old(CurrentFlags()), DispatchedMode(ds), rebuilt, old(autoChooser),
                                                listenerManagers)
                                  + PeriodicEvents(DispatchedMode(ds), ds.newControlData, listenerManagers)
    {
      // The mode priority of the source's if-chain is DispatchedMode's contract.
      var m := DispatchedMode(ds);
      Enter(m, rebuilt);
      Periodic(m, ds.newControlData);
    }

    /** One iteration of the main loop. `ds` is what the driver station
        reports; `rebuilt` is the chooser constructAutoPrograms would fill if
        the chooser is rebuilt on this iteration. */
    method Iterate(ds: DriverStation, rebuilt: Chooser)
      requires Valid()
      requires exitStatus.None?
      modifies this`disabledInitialized, this`testInitialized, this`autonomousInitialized,
               this`teleopInitialized, this`autoChooser, this`trace
      ensures Valid()
      ensures CurrentFlags() == OnlyInitialized(DispatchedMode(ds))
      ensures autoChooser == NextChooser(old(CurrentFlags()), ds, rebuilt, old(autoChooser))
      ensures trace == old(trace) + IterationEvents(old(CurrentFlags()), ds, rebuilt, old(autoChooser),
                                                    listenerManagers)
    {
      ghost var f := CurrentFlags();
      assert NextFlags(f, ds) == OnlyInitialized(DispatchedMode(ds))
             && AtMostOne(OnlyInitialized(DispatchedMode(ds))) by {
        OneFlagAfterIteration(f, ds);
        OnlyInitializedIsConsistent(DispatchedMode(ds));
      }
      ghost var t0, ch0 := trace, autoChooser;
      Handle(ds, rebuilt);
      ghost var t1 := trace;
      if !autonomousInitialized {
        Emit([WaitForData]);
      }
      ghost var tail: seq<Event> := if NextFlags(f, ds).autonomousInitialized then [] else [WaitForData];
      assert trace == t1 + tail;
      ConcatRegroup(t0, EntryEvents(f, DispatchedMode(ds), rebuilt, ch0, listenerManagers),
                    PeriodicEvents(DispatchedMode(ds), ds.newControlData, listenerManagers), tail);
    }
  }

  /** The main loop over a finite run of driver station reports, started only
      when start-up did not exit: the flags stay consistent, afterwards
      exactly the last mode handled is initialised, and the trace grows by
      exactly the events of the iterations in turn. `rebuilt[i]` is the
      chooser constructAutoPrograms would fill on iteration i. The listener
      managers and the exit status do not change. */
  method RunLoop(robot: Robot, reports: seq<DriverStation>, rebuilt: seq<Chooser>)
    requires robot.Valid()
    requires robot.exitStatus.None?
    requires |rebuilt| == |reports|
    modifies robot
    ensures robot.Valid()
    ensures robot.CurrentFlags() == FlagsAfterRun(old(robot.CurrentFlags()), reports)
    ensures robot.autoChooser == ChooserAfterRun(old(robot.CurrentFlags()), old(robot.autoChooser), reports, rebuilt)
    ensures robot.trace == old(robot.trace) + RunEvents(old(robot.CurrentFlags()), old(robot.autoChooser), reports, rebuilt,
                                                        robot.listenerManagers)
    ensures robot.listenerManagers == old(robot.listenerManagers) && robot.exitStatus.None?
  {
    ghost var f0, ch0, t0 := robot.CurrentFlags(), robot.autoChooser, robot.trace;
    var i := 0;
    while i < |reports|
      invariant 0 <= i <= |reports|
      invariant robot.Valid()
      invariant robot.CurrentFlags() == FlagsAfterRun(f0, reports[..i])
      invariant robot.autoChooser == ChooserAfterRun(f0, ch0, reports[..i], rebuilt[..i])
      invariant robot.trace == t0 + RunEvents(f0, ch0, reports[..i], rebuilt[..i], robot.listenerManagers)
      invariant robot.listenerManagers == old(robot.listenerManagers) && robot.exitStatus.None?
    {
      ghost var t1 := robot.trace;
      robot.Iterate(reports[i], rebuilt[i]);
      assert reports[..i + 1][..i] == reports[..i] && reports[..i + 1][i] == reports[i];
      assert rebuilt[..i + 1][..i] == rebuilt[..i] && rebuilt[..i + 1][i] == rebuilt[i];
      ConcatAssoc(t0, RunEvents(f0, ch0, reports[..i], rebuilt[..i], robot.listenerManagers),
                  IterationEvents(FlagsAfterRun(f0, reports[..i]), reports[i], rebuilt[i],
                                  ChooserAfterRun(f0, ch0, reports[..i], rebuilt[..i]), robot.listenerManagers));
      i := i + 1;
    }
    assert reports[..i] == reports && rebuilt[..i] == rebuilt;
  }
}
