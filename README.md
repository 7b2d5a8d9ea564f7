# Startup and teardown of the Tahitic backend, in Dafny

This project models the part of the backend that brings the service up and
takes it down. There are four pieces:

- **Connection settings** (`getDatabaseConfig`, in `src/utils/baseDeDatos.ts` and
  again in `src/scripts/init-database.ts`). If `DATABASE_URL` is truthy, the
  pool gets that connection string with `ssl.rejectUnauthorized = false`.
  Otherwise it gets discrete fields with `||` defaults: `localhost`,
  `parseInt(DB_PORT || '5432')`, `root`, `root`, `tahiticc`, and `ssl: false`.
- **The migration script** (`initializeDatabase` in `src/scripts/init-database.ts`).
  It runs these steps in order: connect with a private pool, check that
  `init-db.sql` exists, read it, refuse blank content, execute it as one
  batch, list the tables. Every failure is rethrown as
  `'Fallo en migración de BD: ' + message`. The private pool is ended in
  `finally`; if that `pool.end()` itself rejects, its rejection replaces the
  outcome. Run as the main module, the script exits with status 0 or 1.
- **The migration stage of the entry point** (`initializeDatabase` in
  `src/index.ts`). In production it takes the first of four candidate paths
  that `require.resolve` accepts, tried in a fixed order in a `for` loop with
  `break`. Outside production it uses `./scripts/init-database`. It then
  loads that module and runs it. Any failure is prefixed again. A failure
  inside the script's `try` block therefore arrives with the prefix twice. A
  rejection of the script's own `pool.end()` is not prefixed by the script,
  so it arrives with the prefix once.
- **The server lifecycle** (`iniciarServidor` and `shutdown` in `src/index.ts`).
  Startup runs, in order: connectivity query, migration stage, table listing,
  arming the 15-minute health probe, registering SIGTERM/SIGINT handlers,
  `listen`. Any failure on the way goes to `pool.end()` (its error
  ignored) and then exit 1. This includes `listen` throwing for a `PORT`
  that parses to NaN, to a negative number or to one above 65535. A signal clears the interval, ends the shared
  pool, and exits 0 once that `pool.end()` has resolved. A failing probe is only logged.

The outside world is always supplied as data, never performed:

- database replies (`QueryResult`);
- the file system's answers (`MigrationIO`);
- the set of paths `require.resolve` accepts;
- the outcome of `require`;
- the settling of `pool.end()`.

The `pg` pool is a class, `BaseDeDatos.Pool`. It records what was submitted,
how many clients were checked out, and how often `end` was called. The
process is a class, `ServerLifecycle.Server`. Its fields are `listening`,
`monitorArmed`, `handlersRegistered`, `migrationRuns`, `poolCloses`,
`pendingEnds`, `exitCode` and a trace of stages.

The pool's methods state their new state directly. The server's methods are
proved against pure functions: `Startup`, `Fatal`, `Step` and `StepAll`. The
two `initializeDatabase` methods are not class methods. They are proved
against `MigrationOutcome` and `StageOutcome`. Lemmas prove the properties of
all these functions.

Files: `js_values.dfy` holds the JavaScript values the code inspects:

- thrown values;
- promise outcomes;
- `process.env`;
- `parseInt`;
- `trim`.

The other files follow the source: `base_de_datos.dfy`, `init_database.dfy`,
`index_migration.dfy` (the migration stage of `src/index.ts`),
`server_lifecycle.dfy` and `api_reports.dfy` (the port and the counts of
`src/index.ts`).

Four facts about the code shape the model:

- No candidate list in the error. When no candidate path resolves, the code
  throws a fixed message. The error does not carry the candidate list.
- Monitor and handlers come before `listen`. The health probe is armed and
  the signal handlers are registered before `listen` is called, not after.
- Shutdown has no guard. A second signal calls `pool.end()` again, and pg
  rejects that call (`DuplicateSignalEndsPoolTwice`).
- The missing-file check uses one path. The migration script checks only one
  fixed path for `init-db.sql`. There is no read-error kind of its own:
  every failure becomes the same prefixed `Error`.

## Model

| member | source | states |
|---|---|---|
| JsValues.EnvOr | src/utils/baseDeDatos.ts:20-24 | `process.env[k] \|\| d`: the variable's value when it is set and non-empty. Otherwise the default, so an empty string also falls back. The result is never empty when the default is not. |
| JsValues.ParseInt | src/utils/baseDeDatos.ts:21 | `parseInt` with no radix: it skips leading whitespace, takes one optional sign, switches to base 16 after `0x`/`0X`, reads the longest run of digits, and gives NaN when that run is empty. This function has no contract of its own. `ParseIntFirstCharacter`, `ParseIntSkipsWhitespace`, `ParseIntSign`, `ParseHex` and `ParseDecimal` state what it reads. |
| JsValues.ParseIntFirstCharacter | src/utils/baseDeDatos.ts:21 | Empty text gives NaN. Text that starts with anything but a digit, whitespace or a sign gives NaN. A digit not followed by `x` gives a non-negative number. |
| JsValues.ParseIntSkipsWhitespace | src/utils/baseDeDatos.ts:21 | Any run of ECMAScript whitespace in front of the text leaves the result unchanged. |
| JsValues.ParseIntSign | src/utils/baseDeDatos.ts:21 | For text that starts with neither whitespace nor a sign, a leading `+` leaves the result unchanged, and a leading `-` negates it (NaN stays NaN). |
| JsValues.ParseHex | src/utils/baseDeDatos.ts:21 | `0x` followed by hexadecimal digits is read in base 16. |
| JsValues.LeadingDigitsIsLongestDigitPrefix | src/utils/baseDeDatos.ts:21 | The digits `parseInt` reads are a prefix of the text, made of digits of the radix, and the character after them is not one. |
| JsValues.ParseDecimal | src/utils/baseDeDatos.ts:21 | `parseInt(String(n))` is `n` for every non-negative `n`. |
| JsValues.TrimEmptyIffBlank | src/scripts/init-database.ts:50 | `s.trim().length === 0` holds exactly when every character of `s` is ECMAScript whitespace or a line terminator. |
| BaseDeDatos.GetDatabaseConfig | src/utils/baseDeDatos.ts:7-27 | The config is URL-based exactly when `DATABASE_URL` is truthy. It then carries exactly that string with `rejectUnauthorized = false`. Otherwise it is discrete, with `ssl = false` and non-empty host, user, password and database. |
| BaseDeDatos.UnsetOrEmptyGivesDefaults | src/utils/baseDeDatos.ts:18-26 | With none of the six variables set, or all set to "", the config is `localhost`/5432/`root`/`root`/`tahiticc` with no TLS. |
| BaseDeDatos.DefaultPortWhenUnset | src/utils/baseDeDatos.ts:21 | The port is 5432 whenever `DB_PORT` is unset or empty. |
| BaseDeDatos.DiscreteVariablesUsed | src/utils/baseDeDatos.ts:19-26 | Each discrete field is decided on its own, whatever the other variables hold. A set, non-empty variable is taken over verbatim. An unset or empty one gives that field's default. A `DB_PORT` holding the decimal text of `n` gives port `n`, and an unset or empty one gives 5432. |
| BaseDeDatos.UrlIgnoresDiscreteVariables | src/utils/baseDeDatos.ts:9-15 | With `DATABASE_URL` truthy, no other variable affects the config. |
| BaseDeDatos.OnlyRecognizedVariablesMatter | src/utils/baseDeDatos.ts:7-27 | The resolver is total and depends on the six recognized variables only. |
| BaseDeDatos.Pool.constructor | src/utils/baseDeDatos.ts:29 | A new pool has the given config, is not ended, and has nothing submitted or checked out. |
| BaseDeDatos.Pool.Query | src/scripts/init-database.ts:35 | A query on a live pool is appended to the submitted log and gets the supplied reply. An ended pool rejects it and submits nothing. |
| BaseDeDatos.Pool.Connect | src/utils/baseDeDatos.ts:43 | `pool.connect()` checks a client out exactly when it resolves. An ended pool rejects. |
| BaseDeDatos.Pool.Release | src/utils/baseDeDatos.ts:45 | Returns one checked-out client. Nothing else changes. |
| BaseDeDatos.Pool.End | src/scripts/init-database.ts:88 | Every call counts. The first call settles as supplied; every later call is rejected with pg's "Called end on pool more than once". |
| BaseDeDatos.LoadSharedPool | src/utils/baseDeDatos.ts:29-53 | One fresh pool, built once from the environment's config, is both the named and the default export. |
| BaseDeDatos.ProbarConexion | src/utils/baseDeDatos.ts:41-51 | Returns true exactly when `connect` resolves on a live pool. A client that was checked out is released, so the checked-out count is unchanged on every path. Nothing is submitted and no rejection escapes. |
| InitDatabase.GetDatabaseConfig | src/scripts/init-database.ts:10-28 | The script's copy is URL-based exactly when `DATABASE_URL` is truthy. |
| InitDatabase.ConfigMatchesSharedPool | src/scripts/init-database.ts:10-28 | The script's copy gives the same config as the shared module's for every environment. |
| InitDatabase.UnwrapWrap | src/scripts/init-database.ts:86 | Wrapping loses nothing: stripping the prefix from `Wrap(msg)` gives back exactly `msg`. |
| InitDatabase.Wrap | src/scripts/init-database.ts:86 | `new Error('Fallo en migración de BD: ' + msg)` is always an `Error` instance, whose message is as long as the prefix and the cause together. `UnwrapWrap` states that the cause can be read back. |
| InitDatabase.ErrorMessage | src/scripts/init-database.ts:73-81 | The `catch` block's message, by kind of thrown value: an `Error` gives its message, a string gives itself, an object with `message` gives `String(message)`, anything else gives "Error desconocido en migración". This function has no contract of its own. `FailuresAreWrapped` states that every wrapped rejection carries this message. |
| InitDatabase.IsBlankSql | src/scripts/init-database.ts:50 | `!sql \|\| sql.trim().length === 0`. This predicate has no contract of its own. `TrimEmptyIffBlank` states that it holds exactly for whitespace-only text, and `BlankScriptNeverExecuted` states that such text is refused before it is executed. |
| InitDatabase.MigrationSteps | src/scripts/init-database.ts:30-89 | The `try` block's steps, then `pool.end()` from `finally`. This function has no contract of its own. `StepsFollowPlan` and `PoolEndedExactlyOnce` state its shape. |
| InitDatabase.SubmittedQueries | src/scripts/init-database.ts:35-66 | The queries the private pool receives on each path: `SELECT NOW()`, then the file's text and the table listing as far as the script gets. This function has no contract of its own. `InitializeDatabase` and `TryMigration` state that the pool's log equals it. |
| InitDatabase.TryBlock | src/scripts/init-database.ts:32-70 | The `try` block's steps are always a non-empty prefix of the five-step plan. It throws nothing only when the whole plan ran. |
| InitDatabase.MigrationOutcome | src/scripts/init-database.ts:71-89 | A rejection of `pool.end()` in `finally` replaces the result. Otherwise every rejection is an `Error` whose message starts with "Fallo en migración de BD: ". |
| InitDatabase.FailingStepIsLast | src/scripts/init-database.ts:32-70 | The `try` block short-circuits. Every step before its last one succeeded, and it throws exactly when that last step failed. Failing means: the connectivity query fails, the file is missing, the read fails or gives blank text, the execute fails, or the listing fails. |
| InitDatabase.StepsFollowPlan | src/scripts/init-database.ts:32-66 | The steps taken are always a non-empty prefix of connect, exists-check, read, execute(content), list tables, followed by ending the pool. |
| InitDatabase.PoolEndedExactlyOnce | src/scripts/init-database.ts:87-89 | On every path, ending the pool appears once, as the last step. |
| InitDatabase.ExecutedAtMostOnce | src/scripts/init-database.ts:50-57 | At most one execute step. The SQL it submits is exactly the text read from the file, and that text is not blank. |
| InitDatabase.ConnectFailureStops | src/scripts/init-database.ts:35 | If the connectivity query fails, only ending the pool follows. The outcome is the wrapped cause, unless `pool.end()` rejects. |
| InitDatabase.MissingFileNeitherReadNorExecuted | src/scripts/init-database.ts:41-45 | A missing `init-db.sql` is neither read nor executed. The error is the prefixed "Archivo init-db.sql no encontrado". |
| InitDatabase.BlankScriptNeverExecuted | src/scripts/init-database.ts:50-52 | Empty or whitespace-only content is refused before anything is executed. The error is the prefixed "Archivo init-db.sql está vacío". |
| InitDatabase.ResolvedIffEveryStepSucceeds | src/scripts/init-database.ts:30-89 | The script resolves exactly when all of these succeed: connect, the file exists, the read returns non-blank text, execute, listing, and `pool.end()`. |
| InitDatabase.FailuresAreWrapped | src/scripts/init-database.ts:71-86 | If `pool.end()` resolves, every rejection is a prefixed `Error`. The message comes from the thrown value: an `Error` gives its message, a string gives itself, a message object gives `String(message)`, anything else gives "Error desconocido en migración". |
| InitDatabase.InitializeDatabase | src/scripts/init-database.ts:30-89 | The method settles as `MigrationOutcome` and takes the steps of `MigrationSteps`. Its fresh private pool has the script's config, receives exactly the queries of the path taken, and is ended once. |
| InitDatabase.TryMigration | src/scripts/init-database.ts:32-70 | On a live pool that has been sent nothing, the `try` block takes the steps of `TryBlock`, throws what `TryBlock` says, and sends exactly `SubmittedQueries`. It leaves the pool live. |
| InitDatabase.RunAsMain | src/scripts/init-database.ts:93-112 | As the main module the script exits 0 exactly when the migration resolves, and 1 otherwise. |
| IndexMigration.JoinPath | src/index.ts:168 | Joining a non-empty relative path never gives an empty path. |
| IndexMigration.Candidates | src/index.ts:164-169 | Exactly four candidates, none empty, so the `!initScriptPath` check means that nothing was found. |
| IndexMigration.FirstHit | src/index.ts:171-182 | Gives the index of the first candidate in the resolvable set, with no earlier candidate in it. It gives none exactly when no candidate resolves. |
| IndexMigration.FindScriptPath | src/index.ts:160-182 | The loop returns the first resolvable candidate and has probed exactly the candidates up to it, none after. With no hit it returns "" after probing all of them. |
| IndexMigration.ResolveScriptPath | src/index.ts:160-191 | A chosen path is never empty. In production it is one of the four candidates and one that resolves. |
| IndexMigration.Production | src/index.ts:162 | `process.env.NODE_ENV === 'production'`. This predicate has no contract of its own. `ProductionPicksFirstResolvable` and `DevelopmentUsesFixedPath` state what each side of it chooses. |
| IndexMigration.StageErrorMessage | src/index.ts:202 | This stage's `catch` agrees with the script's on `Error` instances and on values without text. It gives "Error desconocido en migración" for strings and message objects, which the script's `catch` would have read. |
| IndexMigration.StageOutcome | src/index.ts:155-209 | Every rejection of the stage is an `Error` whose message starts with "Fallo en migración de BD: ". |
| IndexMigration.ProductionPicksFirstResolvable | src/index.ts:162-187 | In production the path is the first of the four candidates, in their fixed order, that resolves. Not-found holds exactly when none resolves. |
| IndexMigration.DevelopmentUsesFixedPath | src/index.ts:188-191 | Outside production the path is always `./scripts/init-database`, with no search. |
| IndexMigration.NotFoundNeverRunsMigration | src/index.ts:185-196 | In production with no resolvable candidate, `runMigration` is never invoked. The stage fails with the prefixed "No se pudo encontrar el script de migración en producción". |
| IndexMigration.ScriptFailureIsPrefixedTwice | src/index.ts:201-207 | A failure inside the migration script reaches the server as `'Fallo en migración de BD: Fallo en migración de BD: ' + cause`. |
| IndexMigration.StageResolvedIff | src/index.ts:155-209 | The stage resolves exactly when the script was found, loaded and resolved. Every rejection carries the prefix. |
| IndexMigration.InitializeDatabase | src/index.ts:155-209 | The method settles as `StageOutcome`. It reports `runMigration` as called exactly when a path was found and `require` succeeded. |
| ServerLifecycle.Fatal | src/index.ts:284-296 | The fatal path makes one more `pool.end()` call and sets exit code 1. The trace gains exactly `ClosePool, Exit(1)`. Nothing else in the state changes. |
| ServerLifecycle.Startup | src/index.ts:212-296 | Startup ends either listening with no exit, or exited. It runs at most one migration and leaves no pending shutdown. The trace starts with the connectivity check. Its `port` argument is the module-level `PORT` constant. |
| ServerLifecycle.MigrationPhase | src/index.ts:226-296 | Startup from `await initializeDatabase()` on. This function has no contract of its own. `StartupOrder` states its traces, and `Server.MigrationStage` is proved against it. |
| ServerLifecycle.TablesPhase | src/index.ts:231-296 | Startup from the table listing on. This function has no contract of its own. `StartupOrder` states its traces, and `Server.TablesStage` is proved against it. |
| ServerLifecycle.ListenPhase | src/index.ts:248-296 | Arming the probe and registering both handlers, then `app.listen`. A port Node refuses throws into the fatal `catch`. This function has no contract of its own. `StartupOrder` and `NonNumericPortNeverListens` state its outcome, and `Server.ListenStage` is proved against it. |
| ServerLifecycle.StartupIsCoherent | src/index.ts:214-296 | The state startup leaves satisfies the lifecycle invariant, whether startup succeeded or failed, including a failure at `listen`. |
| ServerLifecycle.MigrationPhaseIsCoherent | src/index.ts:226-296 | From the state after a successful connectivity check, the rest of startup satisfies the lifecycle invariant. |
| ServerLifecycle.TablesPhaseIsCoherent | src/index.ts:231-296 | From the state after a resolved migration stage, the rest of startup satisfies the lifecycle invariant. |
| ServerLifecycle.ListenPhaseIsCoherent | src/index.ts:248-296 | After all three checks, arming, registering and `listen` satisfy the lifecycle invariant, whether `listen` accepts the port or throws. |
| ServerLifecycle.EarlyFailureIsCoherent | src/index.ts:284-296 | A startup that failed before arming the probe, with the first one, two or three ready stages in its trace, satisfies the lifecycle invariant. |
| ServerLifecycle.StartupOrder | src/index.ts:214-296 | Startup runs connectivity, migration, table listing, arming the monitor, registering signals, then listen, in that order. It listens exactly when all three checks succeed and `listen` accepts the port (a number from 0 to 65535). Each failure point gives its own exact trace: a failed connectivity query gives `[ConnectCheck, ClosePool, Exit(1)]` with no migration run; a failed migration stage gives `[ConnectCheck, Migrate, ClosePool, Exit(1)]`; a failed listing gives the first three ready stages, then `ClosePool, Exit(1)`; a refused port gives the first five ready stages, then `ClosePool, Exit(1)`, with the monitor armed and the handlers registered. The first three failures leave the monitor unarmed and the handlers unregistered. On any failure `Listen` never happens, the pool is ended once, and the exit code is 1. |
| ServerLifecycle.NonNumericPortNeverListens | src/index.ts:212-296 | A `PORT` that is set and starts with neither a digit, whitespace nor a sign parses to NaN. With that port the server never listens and exits with 1, whichever stage it reached. |
| ServerLifecycle.ListeningImpliesMigrated | src/index.ts:222-282 | A listening server ran the migration exactly once, and the migration resolved. |
| ServerLifecycle.ProbeLog | src/index.ts:250-255 | The probe logs nothing exactly when its query succeeds. A failing `Error` is logged with its own message. |
| ServerLifecycle.Step | src/index.ts:249-268 | After exit nothing changes. No runtime event changes listening, the handlers or the migration count. `pool.end()` calls never decrease. The trace only grows. A runtime event can only exit with status 0. A signal clears the interval, no event arms it again, and a tick on a cleared interval changes nothing. |
| ServerLifecycle.StepPreservesCoherent | src/index.ts:249-268 | Every event preserves the lifecycle invariant. It holds: at most one migration; handlers are registered when listening, and then the migration ran; exit 0 only after ending the pool; pending ends never exceed `pool.end` calls. A listening state has a trace that begins with the six ready stages, is followed only by runtime stages, has never exited with 1, and has an armed monitor only while the pool was never ended. A state that is not listening has exited with 1 after one `pool.end()`; its monitor is armed exactly when its handlers are registered, and its trace is a fatal trace (a failure at `listen` when the handlers are registered, otherwise the first one, two or three ready stages). |
| ServerLifecycle.StepAllPreservesCoherent | src/index.ts:249-268 | Any sequence of events after startup keeps that invariant. |
| ServerLifecycle.ProbeNeverEscalates | src/index.ts:249-256 | A probe tick does the same whether the probe query succeeds or fails. It never changes listening, the pool or the exit code. |
| ServerLifecycle.NoProbeOnceCleared | src/index.ts:249-261 | Once the interval is cleared it stays cleared, and no `Probe` joins the trace whatever events follow. This covers ticks while `shutdown` awaits `pool.end()` and a server that goes on after a rejected end. |
| ServerLifecycle.GracefulShutdown | src/index.ts:259-265 | For a running server, a signal followed by a resolving `pool.end()` does three things in order: it clears the interval, ends the pool once, and exits with 0. |
| ServerLifecycle.DuplicateSignalEndsPoolTwice | src/index.ts:259-268 | Two signals before the first `pool.end()` settles call `pool.end()` twice, and pg rejects the second call. |
| BaseDeDatos.EndOutcome | src/index.ts:262 | `pool.end()` settles as supplied on the first call, and pg rejects every later call. This function has no contract of its own. `Pool.End` settles as it, the lifecycle's shutdown step uses it for the shared pool, and `DuplicateSignalEndsPoolTwice` states its effect. |
| ServerLifecycle.ExitIsFinal | src/index.ts:264 | After `process.exit`, no event changes anything. |
| ServerLifecycle.Server.constructor | src/index.ts:300 | A fresh process: not listening, nothing armed, nothing run, no exit. |
| ServerLifecycle.Server.FailStartup | src/index.ts:284-296 | The fatal path ends the pool once, ignoring its outcome, then exits with 1. |
| ServerLifecycle.Server.Start | src/index.ts:214-296 | `iniciarServidor`, given the `PORT` constant, reaches exactly the state `Startup` describes, including the fatal path when `listen` refuses the port, and that state satisfies the lifecycle invariant. |
| ServerLifecycle.Server.MigrationStage | src/index.ts:226-296 | The rest of startup from `await initializeDatabase()` reaches exactly `MigrationPhase` of the state before it. |
| ServerLifecycle.Server.TablesStage | src/index.ts:231-296 | The rest of startup from the table listing reaches exactly `TablesPhase` of the state before it. |
| ServerLifecycle.Server.ListenStage | src/index.ts:248-296 | Arming, registering and `listen` reach exactly `ListenPhase` of the state before them, so a refused port takes the fatal path. |
| ServerLifecycle.Server.Shutdown | src/index.ts:259-262 | The handler clears the interval, then calls `pool.end()` once and awaits it. |
| ServerLifecycle.Server.ResumeShutdown | src/index.ts:262-264 | When the awaited `pool.end()` resolves, the process exits with 0. When it rejects, the handler stops there. |
| ServerLifecycle.Server.Handle | src/index.ts:249-268 | One event (probe tick, signal, settling end) changes the state as `Step` says. |
| ServerLifecycle.Server.Run | src/index.ts:249-268 | A sequence of events changes the state as `StepAll` says. |
| ServerLifecycle.LoadAndStart | src/index.ts:212-300 | Loading the module computes `PORT` from the environment and then runs `iniciarServidor()`. The new process reaches exactly `Startup` with that port, and the lifecycle invariant holds. |
| ApiReports.ListenPort | src/index.ts:212 | `parseInt(process.env.PORT \|\| '4000')`. This function has no contract of its own. `ListenPortFirstCharacter`, `ListenPortDefault` and `ListenPortPaddedOrSigned` state what it gives. |
| ApiReports.ListenPortFirstCharacter | src/index.ts:212 | A set `PORT` whose first character is not a digit, whitespace or a sign gives NaN. One that starts with a digit not followed by `x` gives a non-negative number. |
| ApiReports.ListenPortAccepted | src/index.ts:271 | The ports `app.listen` takes without throwing: numbers from 0 to 65535. NaN, negative and larger numbers make Node throw a `RangeError` synchronously. This predicate has no contract of its own. `ListenPortDefault`, `ListenPortPaddedOrSigned`, `StartupOrder` and `NonNumericPortNeverListens` state its consequences. |
| ApiReports.ListenPortDefault | src/index.ts:212 | `PORT` defaults to 4000 when unset or empty, and `listen` accepts that port. When `PORT` holds the decimal text of `n`, the port is `n`, accepted exactly when `n` is at most 65535. |
| ApiReports.ListenPortPaddedOrSigned | src/index.ts:212 | Whitespace in front of the decimal text of `n` still gives port `n`, accepted exactly when `n` is at most 65535. A `+` in front gives `n` too. A `-` in front gives `-n`, which `listen` refuses unless `n` is 0. |
| ApiReports.DebugTables | src/index.ts:53-73 | `/api/debug/tables` lists exactly the live rows, with `total` equal to their number. A failed query gives status 500 with its fixed message. |
| ApiReports.AddAll | src/index.ts:116 | Adding numbers left to right from 0 with JavaScript `+` gives a number exactly when every element is one. |
| ApiReports.TotalAnalizadas | src/index.ts:116 | `total_analizadas` is a number exactly when every row's `total` parses. A single unparsable row makes it NaN. |
| ApiReports.TotalIsSumOfCounts | src/index.ts:116 | `total_analizadas` is the sum of every row's integer `total`, and 0 for no rows. |
| ApiReports.AddAllOfCounts | src/index.ts:116 | Adding the numbers of a list of counts gives the sum of the counts. |

## Left out

- Express setup, middleware, CORS, body limits, static files, route mounting,
  and the 404 and global error handlers (`src/index.ts:28-152`). This is
  framework wiring with no logic of its own. `/api/health` is represented
  only by `listening && exitCode.None?`: `listening` stays true after
  `process.exit(0)`, and the exit code says the process is gone.
- What the SQL means (`NOW()`, the 7-day window, `information_schema`) and
  how the `pg` driver works. Query replies are supplied. Rows are reduced to
  the single column the core reads. The table-listing query text is written
  on one line.
- `require.resolve`, `require`, `fs.existsSync` and `fs.readFileSync` are not
  performed. They become a set of resolvable paths and supplied outcomes.
- IndexMigration.JoinPath: `path.join` is modelled for an absolute, normalised `__dirname`
  only. It does not resolve `.` or `..` segments.
- Timers. The 15-minute period is not modelled. Only the armed/cleared state
  is modelled, not when ticks happen. An in-flight probe
  running alongside shutdown is not modelled.
- OS signals and `process.exit` become events and the `exitCode` field.
  Startup is one atomic step. A signal that arrives before the handlers are
  registered, which would kill the process by default, is not represented.
- ServerLifecycle.Server.ResumeShutdown: when the awaited `pool.end()`
  rejects, the model only stops that handler. On Node 15 and later, the
  rejection of `shutdown`'s promise is unhandled, so the process exits with
  status 1.
  - This includes pg rejecting a second `end()` after a duplicate signal.
  - `Coherent` states that a listening server never has exit code 1. That
    holds only because this exit is left out.
  - `EndSettles` settles the oldest pending end first, whereas pg rejects a
    second `end()` at once. Each handler still gets the same reply; only the
    order differs. In this model a rejected end changes nothing but the list of
    pending ends, so the order has no effect.
- JsValues.ParseInt: JavaScript numbers are doubles, so `parseInt` rounds
  values above 2^53, and `-0` differs from `0`. The model reads
  digits into an unbounded integer and writes `-0` as 0. Neither matters for
  the ports and counts the core parses.
- Console logging. This includes the messages computed only for logging: the
  main-module `catch` of `src/scripts/init-database.ts:100-111` and the
  startup `catch` message of `src/index.ts:285`. The model keeps the exit
  codes these blocks produce.
- The moderation services constructed at `src/index.ts:244-245` are not
  shown; they are assumed not to throw. Of `/api/moderacion/estado`, only the
  `total_analizadas` reduce is modelled.
- The asynchronous `'error'` event of `app.listen` (for example, a port
  already in use) and its logging callback. The synchronous `RangeError`
  for a port Node refuses is modelled.
- `test-auth.js`. It is a network client that probes a running server and
  has no logic to model.
