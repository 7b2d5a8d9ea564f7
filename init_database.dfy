/**
 * The migration script: connect with a private pool, check for `init-db.sql`,
 * read it, refuse blank content, execute it as one batch, list the tables;
 * every failure is rewrapped, and the private pool is ended in `finally`.
 * The database, the file system and `pool.end` answer through a `MigrationIO`
 * supplied by the caller.
 */
module InitDatabase {
  import opened JsValues
  import BaseDeDatos

  /** The script's own copy of `getDatabaseConfig`. */
  function GetDatabaseConfig(env: Env): (c: BaseDeDatos.ConnectionConfig)
    ensures c.UrlBased? <==> Truthy(env, "DATABASE_URL")
  {
    if Truthy(env, "DATABASE_URL") then
      BaseDeDatos.UrlBased(env["DATABASE_URL"], false)
    else
      BaseDeDatos.Discrete(
        EnvOr(env, "DB_HOST", "localhost"),
        ParseInt(EnvOr(env, "DB_PORT", "5432")),
        EnvOr(env, "DB_USER", "root"),
        EnvOr(env, "DB_PASSWORD", "root"),
        EnvOr(env, "DB_NAME", "tahiticc"),
        false)
  }

  /** The script connects with exactly the settings of the shared pool. */
  lemma ConfigMatchesSharedPool(env: Env)
    ensures GetDatabaseConfig(env) == BaseDeDatos.GetDatabaseConfig(env)
  {
  }

  const MIGRATION_PREFIX := "Fallo en migración de BD: "
  const UNKNOWN_MIGRATION_ERROR := "Error desconocido en migración"
  const SQL_FILE_MISSING := "Archivo init-db.sql no encontrado"
  const SQL_FILE_EMPTY := "Archivo init-db.sql está vacío"
  const SELECT_NOW := "SELECT NOW()"
  const LIST_TABLES := "SELECT table_name FROM information_schema.tables WHERE table_schema = 'public' ORDER BY table_name"

  /** The message the `catch` block derives from whatever was thrown. */
  function ErrorMessage(e: Thrown): string
  {
    match e
    case ErrorInstance(m) => m
    case StringValue(s) => s
    case MessageObject(m) => m
    case OtherValue => UNKNOWN_MIGRATION_ERROR
  }

  /** `new Error('Fallo en migración de BD: ' + msg)`. */
  function Wrap(msg: string): (e: Thrown)
    ensures e.ErrorInstance? && |e.message| == |MIGRATION_PREFIX| + |msg|
  {
    ErrorInstance(MIGRATION_PREFIX + msg)
  }

  /** The message a wrapped error was built from, if it carries the prefix. */
  function Unwrap(e: Thrown): Option<string>
  {
    if e.ErrorInstance? && MIGRATION_PREFIX <= e.message then Some(e.message[|MIGRATION_PREFIX|..]) else None
  }

  /** Wrapping loses nothing: the original message is recovered. */
  lemma UnwrapWrap(msg: string)
    ensures Unwrap(Wrap(msg)) == Some(msg)
  {
    assert (MIGRATION_PREFIX + msg)[|MIGRATION_PREFIX|..] == msg;
  }

  /** One observable step of the script, in the order the source takes them. */
  datatype Step = Connect | CheckSqlFile | ReadSqlFile | ExecuteSql(sql: string) | ListTables | EndPool

  /** `fs.readFileSync` either returns the text or throws. */
  datatype ReadResult = Content(text: string) | ReadFailed(error: Thrown)

  /** The answers of the outside world to each step. */
  datatype MigrationIO = MigrationIO(
    connect: QueryResult,
    sqlFileExists: bool,
    read: ReadResult,
    execute: QueryResult,
    listTables: QueryResult,
    end: Settled)

  /** `!sql || sql.trim().length === 0`. */
  predicate IsBlankSql(sql: string)
  {
    sql == "" || |Trim(sql)| == 0
  }

  /** What the `try` block did, and what it threw, if anything. */
  datatype TryOutcome = TryOutcome(steps: seq<Step>, thrown: Option<Thrown>)

  /** The `try` block: its steps are always a non-empty prefix of the plan,
      and it throws nothing only when the whole plan ran. */
  function TryBlock(io: MigrationIO): (r: TryOutcome)
    ensures 1 <= |r.steps| <= 5 && r.steps == Plan(io)[..|r.steps|]
    ensures r.thrown.None? ==> r.steps == Plan(io)
  {
    if io.connect.Failed? then
      TryOutcome([Connect], Some(io.connect.error))
    else if !io.sqlFileExists then
      TryOutcome([Connect, CheckSqlFile], Some(ErrorInstance(SQL_FILE_MISSING)))
    else match io.read
      case ReadFailed(e) =>
        TryOutcome([Connect, CheckSqlFile, ReadSqlFile], Some(e))
      case Content(sql) =>
        if IsBlankSql(sql) then
          TryOutcome([Connect, CheckSqlFile, ReadSqlFile], Some(ErrorInstance(SQL_FILE_EMPTY)))
        else if io.execute.Failed? then
          TryOutcome([Connect, CheckSqlFile, ReadSqlFile, ExecuteSql(sql)], Some(io.execute.error))
        else if io.listTables.Failed? then
          TryOutcome([Connect, CheckSqlFile, ReadSqlFile, ExecuteSql(sql), ListTables], Some(io.listTables.error))
        else
          TryOutcome([Connect, CheckSqlFile, ReadSqlFile, ExecuteSql(sql), ListTables], None)
  }

  /** Every step the script takes: the `try` block's, then `pool.end()` in `finally`. */
  function MigrationSteps(io: MigrationIO): seq<Step>
  {
    TryBlock(io).steps + [EndPool]
  }

  /** How `initializeDatabase()` settles: a rejection of `pool.end()` in
      `finally` replaces the result; otherwise a throw is rewrapped. */
  function MigrationOutcome(io: MigrationIO): (r: Settled)
    ensures io.end.Rejected? ==> r == io.end
    ensures io.end.Resolved? && r.Rejected? ==> r.error.ErrorInstance? && MIGRATION_PREFIX <= r.error.message
  {
    if io.end.Rejected? then io.end
    else match TryBlock(io).thrown
      case None => Resolved
      case Some(e) => Rejected(Wrap(ErrorMessage(e)))
  }

  /** The steps the script plans when everything succeeds. */
  function Plan(io: MigrationIO): seq<Step>
  {
    [Connect, CheckSqlFile, ReadSqlFile, ExecuteSql(if io.read.Content? then io.read.text else ""), ListTables]
  }

  /** The steps always follow the plan's order and stop after a prefix of
      it, followed by the pool's end. */
  lemma StepsFollowPlan(io: MigrationIO)
    ensures exists k :: 1 <= k <= 5 && MigrationSteps(io) == Plan(io)[..k] + [EndPool]
  {
    var k := |TryBlock(io).steps|;
    assert 1 <= k <= 5 && MigrationSteps(io) == Plan(io)[..k] + [EndPool];
  }

  /** The private pool is ended exactly once, as the very last step, on every path. */
  lemma PoolEndedExactlyOnce(io: MigrationIO)
    ensures forall i :: 0 <= i < |MigrationSteps(io)| ==> (MigrationSteps(io)[i] == EndPool <==> i == |MigrationSteps(io)| - 1)
  {
  }

  /** The SQL text is submitted at most once, as one batch, and only when it
      is the file's non-blank content. */
  lemma ExecutedAtMostOnce(io: MigrationIO)
    ensures forall i, j :: 0 <= i < j < |MigrationSteps(io)| ==>
      !(MigrationSteps(io)[i].ExecuteSql? && MigrationSteps(io)[j].ExecuteSql?)
    ensures forall i :: 0 <= i < |MigrationSteps(io)| && MigrationSteps(io)[i].ExecuteSql? ==>
      io.read == Content(MigrationSteps(io)[i].sql) && !AllWhitespace(io.read.text)
  {
    if io.read.Content? {
      TrimEmptyIffBlank(io.read.text);
    }
  }

  /** A failed connection stops everything but the pool's end. */
  lemma ConnectFailureStops(io: MigrationIO)
    requires io.connect.Failed?
    ensures MigrationSteps(io) == [Connect, EndPool]
    ensures MigrationOutcome(io) == if io.end.Rejected? then io.end else Rejected(Wrap(ErrorMessage(io.connect.error)))
  {
  }

  /** A missing `init-db.sql` is reported and the file is neither read nor executed. */
  lemma MissingFileNeitherReadNorExecuted(io: MigrationIO)
    requires io.connect.Rows? && !io.sqlFileExists
    ensures MigrationSteps(io) == [Connect, CheckSqlFile, EndPool]
    ensures io.end.Resolved? ==> MigrationOutcome(io) == Rejected(Wrap(SQL_FILE_MISSING))
  {
  }

  /** Empty or whitespace-only content is refused before anything is executed. */
  lemma BlankScriptNeverExecuted(io: MigrationIO)
    requires io.connect.Rows? && io.sqlFileExists && io.read.Content? && AllWhitespace(io.read.text)
    ensures MigrationSteps(io) == [Connect, CheckSqlFile, ReadSqlFile, EndPool]
    ensures io.end.Resolved? ==> MigrationOutcome(io) == Rejected(Wrap(SQL_FILE_EMPTY))
  {
    TrimEmptyIffBlank(io.read.text);
  }

  /** The script resolves exactly when every step, `pool.end()` included, succeeds. */
  lemma ResolvedIffEveryStepSucceeds(io: MigrationIO)
    ensures MigrationOutcome(io).Resolved? <==>
      && io.connect.Rows? && io.sqlFileExists && io.read.Content? && !AllWhitespace(io.read.text)
      && io.execute.Rows? && io.listTables.Rows? && io.end.Resolved?
  {
    if io.read.Content? {
      TrimEmptyIffBlank(io.read.text);
    }
  }

  /** Whether the world's answer to a step makes that step throw. */
  predicate StepFails(io: MigrationIO, st: Step)
  {
    match st
    case Connect => io.connect.Failed?
    case CheckSqlFile => !io.sqlFileExists
    case ReadSqlFile => io.read.ReadFailed? || IsBlankSql(io.read.text)
    case ExecuteSql(_) => io.execute.Failed?
    case ListTables => io.listTables.Failed?
    case EndPool => io.end.Rejected?
  }

  /** The `try` block short-circuits: every step before its last one
      succeeded, and it throws exactly when that last step failed. */
  lemma FailingStepIsLast(io: MigrationIO)
    ensures forall i :: 0 <= i < |TryBlock(io).steps| - 1 ==> !StepFails(io, TryBlock(io).steps[i])
    ensures TryBlock(io).thrown.Some? <==> StepFails(io, TryBlock(io).steps[|TryBlock(io).steps| - 1])
  {
  }

  /** Unless `pool.end()` itself fails, every failure surfaces as an `Error`
      carrying the migration prefix and the cause's message. */
  lemma FailuresAreWrapped(io: MigrationIO)
    requires io.end.Resolved? && MigrationOutcome(io).Rejected?
    ensures TryBlock(io).thrown.Some?
    ensures Unwrap(MigrationOutcome(io).error) == Some(ErrorMessage(TryBlock(io).thrown.value))
  {
    UnwrapWrap(ErrorMessage(TryBlock(io).thrown.value));
  }

  /** The query texts the private pool receives: the connectivity query, then
      the script and the table listing if the script gets that far. */
  function SubmittedQueries(io: MigrationIO): seq<string>
  {
    if io.connect.Failed? || !io.sqlFileExists || io.read.ReadFailed? || IsBlankSql(io.read.text) then [SELECT_NOW]
    else if io.execute.Failed? then [SELECT_NOW, io.read.text]
    else [SELECT_NOW, io.read.text, LIST_TABLES]
  }

  /** `initializeDatabase()` of the migration script, with its private pool. */
  method InitializeDatabase(env: Env, io: MigrationIO) returns (r: Settled, pool: BaseDeDatos.Pool, ghost steps: seq<Step>)
    ensures r == MigrationOutcome(io) && steps == MigrationSteps(io)
    ensures fresh(pool) && pool.config == GetDatabaseConfig(env)
    ensures pool.submitted == SubmittedQueries(io)
    ensures pool.ended && pool.endCalls == 1
    ensures pool.acquired == 0 && pool.checkedOut == 0
  {
    pool := new BaseDeDatos.Pool(GetDatabaseConfig(env));
    var thrown;
    steps, thrown := TryMigration(pool, io);
    // catch
    r := Resolved;
    if thrown.Some? {
      var errorMessage := ErrorMessage(thrown.value);
      r := Rejected(Wrap(errorMessage));
    }
    // finally
    steps := steps + [EndPool];
    var ended := pool.End(io.end);
    if ended.Rejected? {
      r := ended;
    }
  }

  /** The `try` block, on a pool that is live and has been sent nothing yet. */
  method TryMigration(pool: BaseDeDatos.Pool, io: MigrationIO) returns (ghost steps: seq<Step>, thrown: Option<Thrown>)
    requires !pool.ended && pool.submitted == []
    modifies pool
    ensures steps == TryBlock(io).steps && thrown == TryBlock(io).thrown
    ensures pool.submitted == SubmittedQueries(io)
    ensures !pool.ended && pool.endCalls == old(pool.endCalls)
    ensures pool.acquired == old(pool.acquired) && pool.checkedOut == old(pool.checkedOut)
  {
    steps := [];
    thrown := None;
    steps := steps + [Connect];
    var reply := pool.Query(SELECT_NOW, io.connect);
    if reply.Failed? {
      thrown := Some(reply.error);
      return;
    }
    steps := steps + [CheckSqlFile];
    if !io.sqlFileExists {
      thrown := Some(ErrorInstance(SQL_FILE_MISSING));
      return;
    }
    steps := steps + [ReadSqlFile];
    match io.read
    case ReadFailed(e) =>
      thrown := Some(e);
    case Content(sql) =>
      if IsBlankSql(sql) {
        thrown := Some(ErrorInstance(SQL_FILE_EMPTY));
        return;
      }
      steps := steps + [ExecuteSql(sql)];
      reply := pool.Query(sql, io.execute);
      if reply.Failed? {
        thrown := Some(reply.error);
        return;
      }
      steps := steps + [ListTables];
      reply := pool.Query(LIST_TABLES, io.listTables);
      if reply.Failed? {
        thrown := Some(reply.error);
      }
  }

  /** Run as the main module: exit status 0 when the migration resolves, 1 otherwise. */
  method RunAsMain(env: Env, io: MigrationIO) returns (exitCode: int)
    ensures exitCode == 0 <==> MigrationOutcome(io).Resolved?
    ensures exitCode == 0 || exitCode == 1
  {
    var outcome, _, _ := InitializeDatabase(env, io);
    exitCode := if outcome.Resolved? then 0 else 1;
  }
}
