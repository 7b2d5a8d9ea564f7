/**
 * The server's migration stage (`initializeDatabase` of the entry point):
 * choose where the migration script lives, load it, run it, and rewrap
 * any failure. In production the script is the first of four candidate
 * paths that `require.resolve` accepts; elsewhere it is one fixed path.
 * Which paths resolve, whether `require` succeeds and how the script's
 * own steps go are supplied by the caller.
 */
module IndexMigration {
  import opened JsValues
  import InitDatabase

  const DEV_SCRIPT_PATH := "./scripts/init-database"
  const NOT_FOUND_IN_PRODUCTION := "No se pudo encontrar el script de migración en producción"

  /** `process.env.NODE_ENV === 'production'`. */
  predicate Production(env: Env)
  {
    "NODE_ENV" in env && env["NODE_ENV"] == "production"
  }

  /** `path.join(dir, rel)` for an absolute, normalised `dir` such as `__dirname`. */
  function JoinPath(dir: string, rel: string): (p: string)
    ensures rel != "" ==> p != ""
  {
    if dir == "" then rel
    else if dir[|dir| - 1] == '/' then dir + rel
    else dir + "/" + rel
  }

  /** The production candidates, in the order they are tried. */
  function Candidates(dirname: string): (c: seq<string>)
    ensures |c| == 4 && forall i :: 0 <= i < |c| ==> c[i] != ""
  {
    [ "./scripts/init-database.js",
      "../scripts/init-database.js",
      "./init-database.js",
      JoinPath(dirname, "scripts/init-database.js") ]
  }

  /** The index of the first candidate that resolves, if any. */
  function FirstHit(candidates: seq<string>, resolvable: set<string>): (k: Option<nat>)
    ensures k.Some? ==> k.value < |candidates| && candidates[k.value] in resolvable
    ensures k.Some? ==> forall j :: 0 <= j < k.value ==> candidates[j] !in resolvable
    ensures k.None? <==> forall j :: 0 <= j < |candidates| ==> candidates[j] !in resolvable
  {
    if candidates == [] then None
    else if candidates[0] in resolvable then Some(0)
    else match FirstHit(candidates[1..], resolvable)
      case None => None
      case Some(k) => Some(k + 1)
  }

  /** The `for ... of` loop with `break`: tries candidates in order, stops at
      the first one that resolves, and reports every candidate it tried;
      `found` stays "" when none resolves. */
  method FindScriptPath(candidates: seq<string>, resolvable: set<string>) returns (found: string, probed: seq<string>)
    ensures match FirstHit(candidates, resolvable)
      case Some(k) => found == candidates[k] && probed == candidates[..k + 1]
      case None => found == "" && probed == candidates
  {
    found := "";
    probed := [];
    var i := 0;
    while i < |candidates|
      invariant 0 <= i <= |candidates|
      invariant probed == candidates[..i]
      invariant forall j :: 0 <= j < i ==> candidates[j] !in resolvable
      invariant found == ""
    {
      probed := probed + [candidates[i]];
      if candidates[i] in resolvable {
        found := candidates[i];
        return;
      }
      i := i + 1;
    }
  }

  datatype ScriptPath = Found(path: string) | NotFound

  /** Where the migration script is taken from. */
  function ResolveScriptPath(env: Env, dirname: string, resolvable: set<string>): (r: ScriptPath)
    ensures r.Found? ==> r.path != ""
    ensures Production(env) && r.Found? ==> r.path in resolvable && r.path in Candidates(dirname)
  {
    if Production(env) then
      match FirstHit(Candidates(dirname), resolvable)
      case Some(k) => Found(Candidates(dirname)[k])
      case None => NotFound
    else
      Found(DEV_SCRIPT_PATH)
  }

  /** In production the chosen path is the first candidate, in the fixed
      order, that resolves; and nothing is found exactly when none does. */
  lemma ProductionPicksFirstResolvable(env: Env, dirname: string, resolvable: set<string>)
    requires Production(env)
    ensures ResolveScriptPath(env, dirname, resolvable).NotFound? <==>
      forall j :: 0 <= j < 4 ==> Candidates(dirname)[j] !in resolvable
    ensures ResolveScriptPath(env, dirname, resolvable).Found? ==>
      exists k :: 0 <= k < 4 && ResolveScriptPath(env, dirname, resolvable).path == Candidates(dirname)[k]
        && Candidates(dirname)[k] in resolvable
        && forall j :: 0 <= j < k ==> Candidates(dirname)[j] !in resolvable
  {
  }

  /** Outside production the fixed path is used and nothing is searched. */
  lemma DevelopmentUsesFixedPath(env: Env, dirname: string, resolvable: set<string>)
    requires !Production(env)
    ensures ResolveScriptPath(env, dirname, resolvable) == Found(DEV_SCRIPT_PATH)
  {
  }

  /** The message this stage's `catch` takes from what it caught. It agrees
      with the script's own `catch` on `Error` instances and on values that
      carry no text. It differs on strings and message objects, which this
      stage does not look into. */
  function StageErrorMessage(e: Thrown): (m: string)
    ensures e.ErrorInstance? || e.OtherValue? ==> m == InitDatabase.ErrorMessage(e)
    ensures e.StringValue? || e.MessageObject? ==> m == InitDatabase.UNKNOWN_MIGRATION_ERROR
  {
    if e.ErrorInstance? then e.message else InitDatabase.UNKNOWN_MIGRATION_ERROR
  }

  /** `require(initScriptPath)` was reached and succeeded, so `runMigration()` is called. */
  predicate MigrationInvoked(env: Env, dirname: string, resolvable: set<string>, load: Settled)
  {
    ResolveScriptPath(env, dirname, resolvable).Found? && load.Resolved?
  }

  /** How this stage settles; every failure is rethrown as
      `'Fallo en migración de BD: ' + message`. */
  function StageOutcome(env: Env, dirname: string, resolvable: set<string>, load: Settled, script: InitDatabase.MigrationIO): (r: Settled)
    ensures r.Rejected? ==> r.error.ErrorInstance? && InitDatabase.MIGRATION_PREFIX <= r.error.message
  {
    match ResolveScriptPath(env, dirname, resolvable)
    case NotFound => Rejected(InitDatabase.Wrap(StageErrorMessage(ErrorInstance(NOT_FOUND_IN_PRODUCTION))))
    case Found(_) =>
      if load.Rejected? then Rejected(InitDatabase.Wrap(StageErrorMessage(load.error)))
      else match InitDatabase.MigrationOutcome(script)
        case Resolved => Resolved
        case Rejected(e) => Rejected(InitDatabase.Wrap(StageErrorMessage(e)))
  }

  /** In production with no resolvable candidate the stage fails and the
      migration is never invoked. */
  lemma NotFoundNeverRunsMigration(env: Env, dirname: string, resolvable: set<string>, load: Settled, script: InitDatabase.MigrationIO)
    requires Production(env)
    requires forall j :: 0 <= j < 4 ==> Candidates(dirname)[j] !in resolvable
    ensures !MigrationInvoked(env, dirname, resolvable, load)
    ensures StageOutcome(env, dirname, resolvable, load, script) ==
      Rejected(ErrorInstance(InitDatabase.MIGRATION_PREFIX + NOT_FOUND_IN_PRODUCTION))
  {
  }

  /** A failure inside the migration script reaches the server prefixed twice. */
  lemma ScriptFailureIsPrefixedTwice(env: Env, dirname: string, resolvable: set<string>, load: Settled, script: InitDatabase.MigrationIO)
    requires MigrationInvoked(env, dirname, resolvable, load)
    requires script.end.Resolved? && InitDatabase.TryBlock(script).thrown.Some?
    ensures StageOutcome(env, dirname, resolvable, load, script) ==
      Rejected(ErrorInstance(InitDatabase.MIGRATION_PREFIX + InitDatabase.MIGRATION_PREFIX
        + InitDatabase.ErrorMessage(InitDatabase.TryBlock(script).thrown.value)))
  {
  }

  /** The stage succeeds exactly when a script path is found, it loads, and
      the migration resolves; a rejection always carries the prefix. */
  lemma StageResolvedIff(env: Env, dirname: string, resolvable: set<string>, load: Settled, script: InitDatabase.MigrationIO)
    ensures StageOutcome(env, dirname, resolvable, load, script).Resolved? <==>
      MigrationInvoked(env, dirname, resolvable, load) && InitDatabase.MigrationOutcome(script).Resolved?
    ensures StageOutcome(env, dirname, resolvable, load, script).Rejected? ==>
      InitDatabase.Unwrap(StageOutcome(env, dirname, resolvable, load, script).error).Some?
  {
    var r := StageOutcome(env, dirname, resolvable, load, script);
    if r.Rejected? {
      var msg :| r.error == InitDatabase.Wrap(msg);
      InitDatabase.UnwrapWrap(msg);
    }
  }

  /** The entry point's `initializeDatabase()`; `invoked` tells whether
      `runMigration()` was called. */
  method InitializeDatabase(env: Env, dirname: string, resolvable: set<string>, load: Settled, script: InitDatabase.MigrationIO)
    returns (r: Settled, invoked: bool)
    ensures r == StageOutcome(env, dirname, resolvable, load, script)
    ensures invoked == MigrationInvoked(env, dirname, resolvable, load)
  {
    invoked := false;
    var initScriptPath := "";
    if Production(env) {
      var found, _ := FindScriptPath(Candidates(dirname), resolvable);
      initScriptPath := found;
      if initScriptPath == "" {
        r := Rejected(InitDatabase.Wrap(StageErrorMessage(ErrorInstance(NOT_FOUND_IN_PRODUCTION))));
        return;
      }
    } else {
      initScriptPath := DEV_SCRIPT_PATH;
    }
    if load.Rejected? {
      r := Rejected(InitDatabase.Wrap(StageErrorMessage(load.error)));
      return;
    }
    invoked := true;
    var outcome, _, _ := InitDatabase.InitializeDatabase(env, script);
    r := if outcome.Resolved? then Resolved else Rejected(InitDatabase.Wrap(StageErrorMessage(outcome.error)));
  }
}
