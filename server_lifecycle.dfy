/**
 * The server's lifecycle (`iniciarServidor` and its `shutdown` handler):
 * check connectivity, run the migration stage, list the tables, arm the
 * periodic health probe, register the signal handlers, listen. Any failure
 * on the way ends the shared pool (ignoring an error from that) and exits
 * with status 1. A termination signal clears the probe's interval, ends the
 * shared pool and, once that has settled, exits with status 0.
 *
 * The database's replies and the outcome of every step are supplied by the
 * caller; timers, signals and process exit are modelled as events and
 * fields of the server's state.
 */
module ServerLifecycle {
  import opened JsValues
  import BaseDeDatos
  import InitDatabase
  import IndexMigration
  import ApiReports

  /** The visible steps of the lifecycle, in the order they happen. */
  datatype Stage =
    | ConnectCheck | Migrate | VerifyTables | ArmMonitor | RegisterSignals | Listen
    | Probe | ClearMonitor | ClosePool | Exit(code: int)

  /** The startup stages of a server that came up. */
  const READY_TRACE: seq<Stage> := [ConnectCheck, Migrate, VerifyTables, ArmMonitor, RegisterSignals, Listen]

  const UNKNOWN_PROBE_ERROR := "Error desconocido"

  /** Where the process runs: its environment, `__dirname` and the module
      paths `require.resolve` accepts. */
  datatype Deployment = Deployment(env: Env, dirname: string, resolvable: set<string>)

  /** The outcomes of the startup steps that can fail. */
  datatype StartupIO = StartupIO(
    connect: QueryResult,
    load: Settled,
    script: InitDatabase.MigrationIO,
    listTables: QueryResult)

  /** The state of the process as the lifecycle sees it. `poolCloses` counts
      calls of `pool.end()` on the shared pool; `pendingEnds` are the awaited
      `pool.end()` calls of shutdown handlers, oldest first; `exitCode` is
      set once `process.exit` has been called. */
  datatype Lifecycle = Lifecycle(
    listening: bool,
    monitorArmed: bool,
    handlersRegistered: bool,
    migrationRuns: nat,
    poolCloses: nat,
    pendingEnds: seq<Settled>,
    exitCode: Option<int>,
    trace: seq<Stage>)

  function Initial(): Lifecycle
  {
    Lifecycle(false, false, false, 0, 0, [], None, [])
  }

  /** The `catch` of `iniciarServidor`: try `pool.end()`, ignore its error, exit 1. */
  function Fatal(s: Lifecycle): (r: Lifecycle)
    ensures r.exitCode == Some(1) && r.poolCloses == s.poolCloses + 1
    ensures r.(poolCloses := s.poolCloses, exitCode := s.exitCode, trace := s.trace) == s
    ensures r.trace == s.trace + [ClosePool, Exit(1)]
  {
    s.(poolCloses := s.poolCloses + 1, exitCode := Some(1), trace := s.trace + [ClosePool, Exit(1)])
  }

  /** `iniciarServidor()` from a fresh process. `port` is the module's `PORT`
      constant, `ApiReports.ListenPort(d.env)`, computed when the module loads. */
  function Startup(d: Deployment, port: JsNumber, io: StartupIO): (r: Lifecycle)
    ensures r.listening <==> r.exitCode.None?
    ensures r.migrationRuns <= 1 && r.pendingEnds == []
    ensures |r.trace| >= 1 && r.trace[0] == ConnectCheck
  {
    var s0 := Initial().(trace := [ConnectCheck]);
    if io.connect.Failed? then Fatal(s0) else MigrationPhase(d, port, io, s0)
  }

  /** From `await initializeDatabase()` on. */
  function MigrationPhase(d: Deployment, port: JsNumber, io: StartupIO, s: Lifecycle): Lifecycle
  {
    var s1 := s.(
      trace := s.trace + [Migrate],
      migrationRuns := s.migrationRuns + if IndexMigration.MigrationInvoked(d.env, d.dirname, d.resolvable, io.load) then 1 else 0);
    if IndexMigration.StageOutcome(d.env, d.dirname, d.resolvable, io.load, io.script).Rejected? then Fatal(s1)
    else TablesPhase(port, io, s1)
  }

  /** From the table listing on. */
  function TablesPhase(port: JsNumber, io: StartupIO, s: Lifecycle): Lifecycle
  {
    var s2 := s.(trace := s.trace + [VerifyTables]);
    if io.listTables.Failed? then Fatal(s2) else ListenPhase(port, s2)
  }

  /** From `setInterval` on: arm the probe, register both signal handlers,
      then `app.listen`, which throws for a port Node does not take. */
  function ListenPhase(port: JsNumber, s: Lifecycle): Lifecycle
  {
    var s3 := s.(monitorArmed := true, handlersRegistered := true, trace := s.trace + [ArmMonitor, RegisterSignals]);
    if !ApiReports.ListenPortAccepted(port) then Fatal(s3)
    else s3.(listening := true, trace := s3.trace + [Listen])
  }

  /** The startup step whose success lets the next one run. */
  predicate StartupSucceeds(d: Deployment, port: JsNumber, io: StartupIO)
  {
    && io.connect.Rows?
    && IndexMigration.StageOutcome(d.env, d.dirname, d.resolvable, io.load, io.script).Resolved?
    && io.listTables.Rows?
    && ApiReports.ListenPortAccepted(port)
  }

  datatype SignalName = SIGTERM | SIGINT

  /** What can happen once startup is over. */
  datatype Event =
    | MonitorTick(probe: QueryResult)               // the interval fires; the probe query gets this reply
    | Signal(name: SignalName, endReply: Settled)   // a signal runs `shutdown` up to `await pool.end()`
    | EndSettles                                    // the oldest awaited `pool.end()` settles

  /** The interval callback: the message it logs for a probe reply, if any.
      Nothing else comes of a failure. */
  function ProbeLog(reply: QueryResult): (r: Option<string>)
    ensures r.None? <==> reply.Rows?
    ensures reply.Failed? && reply.error.ErrorInstance? ==> r == Some(reply.error.message)
  {
    match reply
    case Rows(_) => None
    case Failed(e) => Some(if e.ErrorInstance? then e.message else UNKNOWN_PROBE_ERROR)
  }

  /** One event. After `process.exit` nothing happens any more. */
  function Step(s: Lifecycle, e: Event): (r: Lifecycle)
    ensures s.exitCode.Some? ==> r == s
    ensures r.listening == s.listening && r.handlersRegistered == s.handlersRegistered
    ensures r.migrationRuns == s.migrationRuns && r.poolCloses >= s.poolCloses
    ensures |r.trace| >= |s.trace| && r.trace[..|s.trace|] == s.trace
    ensures s.exitCode.None? && r.exitCode.Some? ==> r.exitCode == Some(0)
    ensures r.monitorArmed ==> s.monitorArmed
    ensures e.MonitorTick? && !s.monitorArmed ==> r == s
    ensures e.Signal? && s.exitCode.None? && s.handlersRegistered ==> !r.monitorArmed
  {
    if s.exitCode.Some? then s
    else match e
      case MonitorTick(_) =>
        if s.monitorArmed then s.(trace := s.trace + [Probe]) else s
      case Signal(_, reply) =>
        if !s.handlersRegistered then s
        else s.(
          monitorArmed := false,
          poolCloses := s.poolCloses + 1,
          pendingEnds := s.pendingEnds + [BaseDeDatos.EndOutcome(s.poolCloses > 0, reply)],
          trace := s.trace + [ClearMonitor, ClosePool])
      case EndSettles =>
        if s.pendingEnds == [] then s
        else if s.pendingEnds[0].Resolved? then
          s.(pendingEnds := s.pendingEnds[1..], exitCode := Some(0), trace := s.trace + [Exit(0)])
        else
          s.(pendingEnds := s.pendingEnds[1..])
  }

  /** A sequence of events, in order. */
  function StepAll(s: Lifecycle, events: seq<Event>): Lifecycle
  {
    if events == [] then s else Step(StepAll(s, events[..|events| - 1]), events[|events| - 1])
  }

  /** The stages that can follow a successful startup. */
  predicate RuntimeStage(st: Stage)
  {
    st.Probe? || st.ClearMonitor? || st.ClosePool? || st == Exit(0)
  }

  /** The trace of a failed startup: a proper prefix of the ready trace that
      reached the connectivity check, then the pool's end and exit 1. With the
      handlers registered, the failure was `listen`'s. */
  predicate FatalTrace(t: seq<Stage>, registered: bool)
  {
    if registered then t == READY_TRACE[..5] + [ClosePool, Exit(1)]
    else exists k :: 1 <= k <= 3 && t == READY_TRACE[..k] + [ClosePool, Exit(1)]
  }

  /** What holds of the process from the end of startup on. */
  predicate Coherent(s: Lifecycle)
  {
    && s.migrationRuns <= 1
    && (s.listening ==> s.handlersRegistered)
    && (s.handlersRegistered ==> s.migrationRuns == 1)
    && (!s.listening ==>
          && s.exitCode == Some(1) && s.poolCloses == 1
          && (s.monitorArmed <==> s.handlersRegistered)
          && FatalTrace(s.trace, s.handlersRegistered))
    && (s.listening ==>
          && |s.trace| >= 6 && s.trace[..6] == READY_TRACE
          && (forall i :: 6 <= i < |s.trace| ==> RuntimeStage(s.trace[i]))
          && s.exitCode != Some(1)
          && (s.monitorArmed ==> s.poolCloses == 0))
    && |s.pendingEnds| <= s.poolCloses
    && (s.exitCode == Some(0) ==> s.poolCloses >= 1 && !s.monitorArmed)
  }

  /** Startup runs its stages strictly in order; the server listens, with
      the monitor armed, exactly when every stage succeeded; otherwise the
      pool is ended once, the exit status is 1 and nothing after the failed
      stage ran. */
  lemma StartupOrder(d: Deployment, port: JsNumber, io: StartupIO)
    ensures Coherent(Startup(d, port, io))
    ensures Startup(d, port, io).listening <==> StartupSucceeds(d, port, io)
    ensures Startup(d, port, io).listening ==>
      Startup(d, port, io).trace == READY_TRACE && Startup(d, port, io).monitorArmed && Startup(d, port, io).exitCode.None?
      && Startup(d, port, io).poolCloses == 0
    ensures !Startup(d, port, io).listening ==>
      Startup(d, port, io).exitCode == Some(1) && Startup(d, port, io).poolCloses == 1 && Listen !in Startup(d, port, io).trace
    ensures io.connect.Failed? ==>
      Startup(d, port, io).trace == [ConnectCheck, ClosePool, Exit(1)] && Startup(d, port, io).migrationRuns == 0
    ensures io.connect.Rows? && IndexMigration.StageOutcome(d.env, d.dirname, d.resolvable, io.load, io.script).Rejected? ==>
      Startup(d, port, io).trace == [ConnectCheck, Migrate, ClosePool, Exit(1)]
    ensures (io.connect.Rows? && IndexMigration.StageOutcome(d.env, d.dirname, d.resolvable, io.load, io.script).Resolved?
      && io.listTables.Failed?) ==>
      Startup(d, port, io).trace == READY_TRACE[..3] + [ClosePool, Exit(1)]
    ensures (io.connect.Failed? || IndexMigration.StageOutcome(d.env, d.dirname, d.resolvable, io.load, io.script).Rejected?
      || io.listTables.Failed?) ==>
      !Startup(d, port, io).monitorArmed && !Startup(d, port, io).handlersRegistered
    ensures (io.connect.Rows? && IndexMigration.StageOutcome(d.env, d.dirname, d.resolvable, io.load, io.script).Resolved?
      && io.listTables.Rows? && !ApiReports.ListenPortAccepted(port)) ==>
      Startup(d, port, io).trace == READY_TRACE[..5] + [ClosePool, Exit(1)]
      && Startup(d, port, io).monitorArmed && Startup(d, port, io).handlersRegistered
  {
    StartupIsCoherent(d, port, io);
    var s := Startup(d, port, io);
    if !s.listening {
      assert forall i :: 0 <= i < |s.trace| ==> s.trace[i] != Listen;
    }
  }

  /** Startup always ends in a state that satisfies the lifecycle's invariant. */
  lemma StartupIsCoherent(d: Deployment, port: JsNumber, io: StartupIO)
    ensures Coherent(Startup(d, port, io))
  {
    var s0 := Initial().(trace := [ConnectCheck]);
    if io.connect.Failed? {
      EarlyFailureIsCoherent(Startup(d, port, io), 1);
    } else {
      MigrationPhaseIsCoherent(d, port, io, s0);
    }
  }

  lemma MigrationPhaseIsCoherent(d: Deployment, port: JsNumber, io: StartupIO, s: Lifecycle)
    requires s == Initial().(trace := [ConnectCheck])
    ensures Coherent(MigrationPhase(d, port, io, s))
  {
    var stage := IndexMigration.StageOutcome(d.env, d.dirname, d.resolvable, io.load, io.script);
    if stage.Rejected? {
      EarlyFailureIsCoherent(MigrationPhase(d, port, io, s), 2);
    } else {
      IndexMigration.StageResolvedIff(d.env, d.dirname, d.resolvable, io.load, io.script);
      TablesPhaseIsCoherent(port, io, Initial().(migrationRuns := 1, trace := READY_TRACE[..2]));
    }
  }

  lemma TablesPhaseIsCoherent(port: JsNumber, io: StartupIO, s: Lifecycle)
    requires s == Initial().(migrationRuns := 1, trace := READY_TRACE[..2])
    ensures Coherent(TablesPhase(port, io, s))
  {
    if io.listTables.Failed? {
      EarlyFailureIsCoherent(TablesPhase(port, io, s), 3);
    } else {
      ListenPhaseIsCoherent(port, Initial().(migrationRuns := 1, trace := READY_TRACE[..3]));
    }
  }

  /** A startup that failed before arming the probe satisfies the invariant. */
  lemma EarlyFailureIsCoherent(s: Lifecycle, k: nat)
    requires 1 <= k <= 3 && s.trace == READY_TRACE[..k] + [ClosePool, Exit(1)]
    requires !s.listening && !s.monitorArmed && !s.handlersRegistered && s.migrationRuns <= 1
    requires s.poolCloses == 1 && s.pendingEnds == [] && s.exitCode == Some(1)
    ensures Coherent(s)
  {
  }

  /** The end of a startup whose checks all succeeded satisfies the invariant. */
  lemma ListenPhaseIsCoherent(port: JsNumber, s: Lifecycle)
    requires s == Initial().(migrationRuns := 1, trace := READY_TRACE[..3])
    ensures Coherent(ListenPhase(port, s))
  {
    if ApiReports.ListenPortAccepted(port) {
      assert ListenPhase(port, s).trace == READY_TRACE;
    } else {
      assert ListenPhase(port, s).trace == READY_TRACE[..5] + [ClosePool, Exit(1)];
    }
  }

  /** A `PORT` that is set and starts with neither a digit, whitespace nor a
      sign parses to NaN, so the server never listens and the process exits
      with 1, whichever stage it reached. */
  lemma NonNumericPortNeverListens(d: Deployment, io: StartupIO)
    requires Truthy(d.env, "PORT")
    requires !IsDigit(d.env["PORT"][0]) && !IsJsWhitespace(d.env["PORT"][0])
    requires d.env["PORT"][0] != '+' && d.env["PORT"][0] != '-'
    ensures ApiReports.ListenPort(d.env).NaN?
    ensures !Startup(d, ApiReports.ListenPort(d.env), io).listening
    ensures Startup(d, ApiReports.ListenPort(d.env), io).exitCode == Some(1)
  {
    ApiReports.ListenPortFirstCharacter(d.env);
    StartupOrder(d, ApiReports.ListenPort(d.env), io);
  }

  /** No listener exists unless the migration ran and succeeded. */
  lemma ListeningImpliesMigrated(d: Deployment, port: JsNumber, io: StartupIO)
    requires Startup(d, port, io).listening
    ensures IndexMigration.MigrationInvoked(d.env, d.dirname, d.resolvable, io.load)
    ensures InitDatabase.MigrationOutcome(io.script).Resolved?
    ensures Startup(d, port, io).migrationRuns == 1
  {
    IndexMigration.StageResolvedIff(d.env, d.dirname, d.resolvable, io.load, io.script);
  }

  lemma StepPreservesCoherent(s: Lifecycle, e: Event)
    requires Coherent(s)
    ensures Coherent(Step(s, e))
  {
    var t := Step(s, e);
    if s.exitCode.None? && s.listening {
      assert t.trace[..6] == s.trace[..6];
      assert forall i :: 6 <= i < |t.trace| ==> RuntimeStage(t.trace[i]) by {
        forall i | 6 <= i < |t.trace|
          ensures RuntimeStage(t.trace[i])
        {
          if i < |s.trace| {
            assert t.trace[i] == s.trace[i];
          }
        }
      }
    }
  }

  /** Every state reached by events after startup keeps the lifecycle's invariant. */
  lemma {:induction false} StepAllPreservesCoherent(s: Lifecycle, events: seq<Event>)
    requires Coherent(s)
    ensures Coherent(StepAll(s, events))
  {
    if events != [] {
      StepAllPreservesCoherent(s, events[..|events| - 1]);
      StepPreservesCoherent(StepAll(s, events[..|events| - 1]), events[|events| - 1]);
    }
  }

  /** A health probe never changes the lifecycle beyond logging: whatever
      the reply, success or failure, the outcome is the same, the listener
      stays and no exit happens. */
  lemma ProbeNeverEscalates(s: Lifecycle, a: QueryResult, b: QueryResult)
    ensures Step(s, MonitorTick(a)) == Step(s, MonitorTick(b))
    ensures Step(s, MonitorTick(a)).(trace := s.trace) == s
  {
  }

  /** Graceful shutdown of a running server: the interval is cleared before
      the pool is ended, the pool is ended once, and the process exits 0. */
  lemma GracefulShutdown(s: Lifecycle, name: SignalName)
    requires Coherent(s) && s.listening && s.exitCode.None? && s.poolCloses == 0
    ensures StepAll(s, [Signal(name, Resolved), EndSettles]) ==
      s.(monitorArmed := false, poolCloses := 1, pendingEnds := [], exitCode := Some(0),
         trace := s.trace + [ClearMonitor, ClosePool, Exit(0)])
  {
    var events := [Signal(name, Resolved), EndSettles];
    assert events[..1] == [Signal(name, Resolved)];
    assert events[..1][..0] == [];
    assert StepAll(s, events[..1]) == Step(s, Signal(name, Resolved));
  }

  /** The handler has no guard: a second signal before the first `pool.end()`
      settles ends the pool again, and pg rejects that second call. */
  lemma DuplicateSignalEndsPoolTwice(s: Lifecycle, first: SignalName, second: SignalName, a: Settled, b: Settled)
    requires Coherent(s) && s.listening && s.exitCode.None? && s.poolCloses == 0
    ensures StepAll(s, [Signal(first, a), Signal(second, b)]).poolCloses == 2
    ensures StepAll(s, [Signal(first, a), Signal(second, b)]).pendingEnds ==
      [a, Rejected(ErrorInstance(BaseDeDatos.END_TWICE_MESSAGE))]
  {
    var events := [Signal(first, a), Signal(second, b)];
    assert events[..1] == [Signal(first, a)];
    assert events[..1][..0] == [];
    assert StepAll(s, events[..1]) == Step(s, Signal(first, a));
  }

  /** Once the interval is cleared, no event arms it again and no probe
      runs: the trace gains no `Probe`, whatever the events, including ticks
      while `shutdown` awaits `pool.end()` and the life of a server whose
      `pool.end()` was rejected. */
  lemma {:induction false} NoProbeOnceCleared(s: Lifecycle, events: seq<Event>)
    requires !s.monitorArmed
    ensures !StepAll(s, events).monitorArmed
    ensures |StepAll(s, events).trace| >= |s.trace| && StepAll(s, events).trace[..|s.trace|] == s.trace
    ensures forall i :: |s.trace| <= i < |StepAll(s, events).trace| ==> StepAll(s, events).trace[i] != Probe
  {
    if events != [] {
      var before := events[..|events| - 1];
      NoProbeOnceCleared(s, before);
      var p := StepAll(s, before);
      var e := events[|events| - 1];
      var r := Step(p, e);
      assert r.trace[..|p.trace|] == p.trace;
      assert forall i :: |p.trace| <= i < |r.trace| ==> r.trace[i] != Probe;
      assert forall i :: |s.trace| <= i < |p.trace| ==> r.trace[i] == p.trace[i];
    }
  }

  /** After `process.exit` no event changes anything. */
  lemma {:induction false} ExitIsFinal(s: Lifecycle, events: seq<Event>)
    requires s.exitCode.Some?
    ensures StepAll(s, events) == s
  {
    if events != [] {
      ExitIsFinal(s, events[..|events| - 1]);
    }
  }

  /**
   * The running process. Its fields are the lifecycle's state; the methods
   * perform the source's steps one by one.
   */
  class Server {
    var listening: bool
    var monitorArmed: bool
    var handlersRegistered: bool
    var migrationRuns: nat
    var poolCloses: nat
    var pendingEnds: seq<Settled>
    var exitCode: Option<int>
    var trace: seq<Stage>

    function State(): Lifecycle
      reads this
    {
      Lifecycle(listening, monitorArmed, handlersRegistered, migrationRuns, poolCloses, pendingEnds, exitCode, trace)
    }

    constructor ()
      ensures State() == Initial()
    {
      listening, monitorArmed, handlersRegistered := false, false, false;
      migrationRuns, poolCloses := 0, 0;
      pendingEnds := [];
      exitCode := None;
      trace := [];
    }

    /** The `catch` block of `iniciarServidor`. */
    method FailStartup()
      modifies this
      ensures State() == Fatal(old(State()))
    {
      trace := trace + [ClosePool];
      poolCloses := poolCloses + 1;   // `await pool.end()`, any error ignored
      trace := trace + [Exit(1)];
      exitCode := Some(1);
    }

    /** `iniciarServidor()`, reading the module-level `PORT` constant `port`. */
    method Start(d: Deployment, port: JsNumber, io: StartupIO)
      requires State() == Initial()
      modifies this
      ensures State() == Startup(d, port, io)
      ensures Coherent(State())
    {
      StartupIsCoherent(d, port, io);
      trace := trace + [ConnectCheck];
      assert State() == Initial().(trace := [ConnectCheck]);
      if io.connect.Failed? {
        FailStartup();
        return;
      }
      MigrationStage(d, port, io);
    }

    /** `await initializeDatabase()` and everything after it. */
    method MigrationStage(d: Deployment, port: JsNumber, io: StartupIO)
      modifies this
      ensures State() == MigrationPhase(d, port, io, old(State()))
    {
      trace := trace + [Migrate];
      var migrated, invoked := IndexMigration.InitializeDatabase(d.env, d.dirname, d.resolvable, io.load, io.script);
      if invoked {
        migrationRuns := migrationRuns + 1;
      }
      assert State() == old(State()).(trace := old(trace) + [Migrate],
        migrationRuns := old(migrationRuns) + if invoked then 1 else 0);
      if migrated.Rejected? {
        FailStartup();
        return;
      }
      TablesStage(port, io);
    }

    /** The table listing and everything after it. */
    method TablesStage(port: JsNumber, io: StartupIO)
      modifies this
      ensures State() == TablesPhase(port, io, old(State()))
    {
      trace := trace + [VerifyTables];
      if io.listTables.Failed? {
        FailStartup();
        return;
      }
      ListenStage(port);
    }

    /** `setInterval`, `process.on` for both signals, then `app.listen`. */
    method ListenStage(port: JsNumber)
      modifies this
      ensures State() == ListenPhase(port, old(State()))
    {
      monitorArmed := true;
      trace := trace + [ArmMonitor];
      handlersRegistered := true;
      trace := trace + [RegisterSignals];
      assert State() == old(State()).(monitorArmed := true, handlersRegistered := true,
        trace := old(trace) + [ArmMonitor, RegisterSignals]);
      if !ApiReports.ListenPortAccepted(port) {
        FailStartup();   // `app.listen` throws a RangeError into the `catch`
        return;
      }
      listening := true;
      trace := trace + [Listen];
    }

    /** `shutdown` up to `await pool.end()`. */
    method Shutdown(reply: Settled)
      requires exitCode.None? && handlersRegistered
      modifies this
      ensures State() == Step(old(State()), Signal(SIGTERM, reply))
    {
      monitorArmed := false;
      trace := trace + [ClearMonitor];
      pendingEnds := pendingEnds + [BaseDeDatos.EndOutcome(poolCloses > 0, reply)];
      poolCloses := poolCloses + 1;
      trace := trace + [ClosePool];
    }

    /** The continuation of the oldest `shutdown` whose `pool.end()` settled. */
    method ResumeShutdown()
      requires exitCode.None? && pendingEnds != []
      modifies this
      ensures State() == Step(old(State()), EndSettles)
    {
      var settled := pendingEnds[0];
      pendingEnds := pendingEnds[1..];
      if settled.Resolved? {
        trace := trace + [Exit(0)];
        exitCode := Some(0);
      }
    }

    method Handle(e: Event)
      modifies this
      ensures State() == Step(old(State()), e)
    {
      if exitCode.Some? {
        return;
      }
      match e
      case MonitorTick(reply) =>
        if monitorArmed {
          trace := trace + [Probe];
        }
      case Signal(_, reply) =>
        if handlersRegistered {
          Shutdown(reply);
        }
      case EndSettles =>
        if pendingEnds != [] {
          ResumeShutdown();
        }
    }

    /** Drive the running process with a sequence of events. */
    method Run(events: seq<Event>)
      modifies this
      ensures State() == StepAll(old(State()), events)
    {
      var i := 0;
      while i < |events|
        invariant 0 <= i <= |events|
        invariant State() == StepAll(old(State()), events[..i])
      {
        assert events[..i + 1][..i] == events[..i];
        Handle(events[i]);
        i := i + 1;
      }
      assert events[..i] == events;
    }
  }

  /** Loading `src/index.ts`: the module-level `PORT` constant is computed
      from the environment, then `iniciarServidor()` runs. */
  method LoadAndStart(d: Deployment, io: StartupIO) returns (server: Server)
    ensures fresh(server)
    ensures server.State() == Startup(d, ApiReports.ListenPort(d.env), io)
    ensures Coherent(server.State())
  {
    var port := ApiReports.ListenPort(d.env);
    server := new Server();
    server.Start(d, port, io);
  }
}
