/**
 * The shared database module: how connection settings are derived from the
 * environment, the connection pool as the startup code uses it, and the
 * connectivity probe `probarConexion`.
 */
module BaseDeDatos {
  import opened JsValues

  /** The object handed to `new Pool(...)`. */
  datatype ConnectionConfig =
    | UrlBased(connectionString: string, rejectUnauthorized: bool)
    | Discrete(host: string, port: JsNumber, user: string, password: string, database: string, ssl: bool)

  const DEFAULT_HOST := "localhost"
  const DEFAULT_PORT := "5432"
  const DEFAULT_USER := "root"
  const DEFAULT_PASSWORD := "root"
  const DEFAULT_DATABASE := "tahiticc"

  /** The variables the resolver reads. */
  const RECOGNIZED_VARIABLES := ["DATABASE_URL", "DB_HOST", "DB_PORT", "DB_USER", "DB_PASSWORD", "DB_NAME"]

  /** `getDatabaseConfig`: a connection string when `DATABASE_URL` is truthy,
      otherwise discrete fields with `||` defaults. */
  function GetDatabaseConfig(env: Env): (c: ConnectionConfig)
    ensures c.UrlBased? <==> Truthy(env, "DATABASE_URL")
    ensures c.UrlBased? ==> c.connectionString == env["DATABASE_URL"] && !c.rejectUnauthorized
    ensures c.Discrete? ==> !c.ssl && c.host != "" && c.user != "" && c.password != "" && c.database != ""
  {
    if Truthy(env, "DATABASE_URL") then
      UrlBased(env["DATABASE_URL"], false)
    else
      Discrete(
        EnvOr(env, "DB_HOST", DEFAULT_HOST),
        ParseInt(EnvOr(env, "DB_PORT", DEFAULT_PORT)),
        EnvOr(env, "DB_USER", DEFAULT_USER),
        EnvOr(env, "DB_PASSWORD", DEFAULT_PASSWORD),
        EnvOr(env, "DB_NAME", DEFAULT_DATABASE),
        false)
  }

  /** The configuration with every default in place. */
  function DefaultConfig(): ConnectionConfig
  {
    Discrete(DEFAULT_HOST, Num(5432), DEFAULT_USER, DEFAULT_PASSWORD, DEFAULT_DATABASE, false)
  }

  /** No recognized variable set, or every one set to "": all defaults, port 5432. */
  lemma UnsetOrEmptyGivesDefaults(env: Env)
    requires forall k :: k in RECOGNIZED_VARIABLES ==> !Truthy(env, k)
    ensures GetDatabaseConfig(env) == DefaultConfig()
  {
    assert !Truthy(env, RECOGNIZED_VARIABLES[0]) && !Truthy(env, RECOGNIZED_VARIABLES[1]);
    assert !Truthy(env, RECOGNIZED_VARIABLES[2]) && !Truthy(env, RECOGNIZED_VARIABLES[3]);
    assert !Truthy(env, RECOGNIZED_VARIABLES[4]) && !Truthy(env, RECOGNIZED_VARIABLES[5]);
    DefaultPortWhenUnset(env);
  }

  /** `parseInt(DB_PORT || '5432')`: port 5432 whenever `DB_PORT` is unset or empty. */
  lemma DefaultPortWhenUnset(env: Env)
    requires !Truthy(env, "DATABASE_URL") && !Truthy(env, "DB_PORT")
    ensures GetDatabaseConfig(env).port == Num(5432)
  {
    assert Decimal(5432) == DEFAULT_PORT;
    ParseDecimal(5432);
  }

  /** Each discrete field on its own: a set, non-empty variable is taken over
      verbatim and an unset or empty one falls back to its default, whatever
      the other variables hold; a `DB_PORT` holding the decimal text of `n`
      gives port `n`. */
  lemma DiscreteVariablesUsed(env: Env, n: nat)
    requires !Truthy(env, "DATABASE_URL")
    ensures GetDatabaseConfig(env).Discrete?
    ensures Truthy(env, "DB_HOST") ==> GetDatabaseConfig(env).host == env["DB_HOST"]
    ensures !Truthy(env, "DB_HOST") ==> GetDatabaseConfig(env).host == DEFAULT_HOST
    ensures Truthy(env, "DB_USER") ==> GetDatabaseConfig(env).user == env["DB_USER"]
    ensures !Truthy(env, "DB_USER") ==> GetDatabaseConfig(env).user == DEFAULT_USER
    ensures Truthy(env, "DB_PASSWORD") ==> GetDatabaseConfig(env).password == env["DB_PASSWORD"]
    ensures !Truthy(env, "DB_PASSWORD") ==> GetDatabaseConfig(env).password == DEFAULT_PASSWORD
    ensures Truthy(env, "DB_NAME") ==> GetDatabaseConfig(env).database == env["DB_NAME"]
    ensures !Truthy(env, "DB_NAME") ==> GetDatabaseConfig(env).database == DEFAULT_DATABASE
    ensures Truthy(env, "DB_PORT") && env["DB_PORT"] == Decimal(n) ==> GetDatabaseConfig(env).port == Num(n)
    ensures !Truthy(env, "DB_PORT") ==> GetDatabaseConfig(env).port == Num(5432)
  {
    ParseDecimal(n);
    if !Truthy(env, "DB_PORT") {
      DefaultPortWhenUnset(env);
    }
  }

  /** When `DATABASE_URL` is truthy, no discrete variable has any effect. */
  lemma UrlIgnoresDiscreteVariables(env: Env, other: Env)
    requires Truthy(env, "DATABASE_URL")
    requires "DATABASE_URL" in other && other["DATABASE_URL"] == env["DATABASE_URL"]
    ensures GetDatabaseConfig(other) == GetDatabaseConfig(env) == UrlBased(env["DATABASE_URL"], false)
  {
  }

  /** The configuration depends on the six recognized variables and nothing else. */
  lemma OnlyRecognizedVariablesMatter(env: Env, other: Env)
    requires forall k :: k in RECOGNIZED_VARIABLES ==> (k in env <==> k in other) && (k in env ==> env[k] == other[k])
    ensures GetDatabaseConfig(env) == GetDatabaseConfig(other)
  {
    assert RECOGNIZED_VARIABLES[0] == "DATABASE_URL" && RECOGNIZED_VARIABLES[1] == "DB_HOST";
    assert RECOGNIZED_VARIABLES[2] == "DB_PORT" && RECOGNIZED_VARIABLES[3] == "DB_USER";
    assert RECOGNIZED_VARIABLES[4] == "DB_PASSWORD" && RECOGNIZED_VARIABLES[5] == "DB_NAME";
  }

  // ---------------------------------------------------------------------------
  // The connection pool

  /** What `pg` rejects with once `end` has been called. */
  const POOL_ENDED_MESSAGE := "Cannot use a pool after calling end on the pool"
  const END_TWICE_MESSAGE := "Called end on pool more than once"

  /** How a call of `pool.end()` settles: the first call as the world
      answers, every later one rejected by pg. */
  function EndOutcome(alreadyEnded: bool, reply: Settled): Settled
  {
    if alreadyEnded then Rejected(ErrorInstance(END_TWICE_MESSAGE)) else reply
  }

  /**
   * A `pg` pool as the startup code sees it. The database's replies are
   * supplied by the caller; the pool records what was submitted to it, how
   * many clients were checked out and returned, and how often `end` was called.
   */
  class Pool {
    const config: ConnectionConfig
    var ended: bool
    var endCalls: nat
    var submitted: seq<string>
    var acquired: nat
    var checkedOut: nat

    constructor (config: ConnectionConfig)
      ensures this.config == config
      ensures !ended && endCalls == 0 && submitted == [] && acquired == 0 && checkedOut == 0
    {
      this.config := config;
      ended := false;
      endCalls := 0;
      submitted := [];
      acquired := 0;
      checkedOut := 0;
    }

    /** `pool.query(sql)`; an ended pool refuses without submitting anything. */
    method Query(sql: string, reply: QueryResult) returns (r: QueryResult)
      modifies this
      ensures r == if old(ended) then Failed(ErrorInstance(POOL_ENDED_MESSAGE)) else reply
      ensures submitted == if old(ended) then old(submitted) else old(submitted) + [sql]
      ensures ended == old(ended) && endCalls == old(endCalls)
      ensures acquired == old(acquired) && checkedOut == old(checkedOut)
    {
      if ended {
        r := Failed(ErrorInstance(POOL_ENDED_MESSAGE));
      } else {
        submitted := submitted + [sql];
        r := reply;
      }
    }

    /** `pool.connect()`: checks a client out unless the pool has ended or the
        connection attempt is rejected. */
    method Connect(reply: Settled) returns (r: Settled)
      modifies this
      ensures r == if old(ended) then Rejected(ErrorInstance(POOL_ENDED_MESSAGE)) else reply
      ensures acquired == old(acquired) + (if r.Resolved? then 1 else 0)
      ensures checkedOut == old(checkedOut) + (if r.Resolved? then 1 else 0)
      ensures submitted == old(submitted)
      ensures ended == old(ended) && endCalls == old(endCalls)
    {
      if ended {
        r := Rejected(ErrorInstance(POOL_ENDED_MESSAGE));
      } else {
        r := reply;
        if r.Resolved? {
          acquired := acquired + 1;
          checkedOut := checkedOut + 1;
        }
      }
    }

    /** `client.release()` for a client checked out of this pool. */
    method Release()
      requires checkedOut > 0
      modifies this
      ensures checkedOut == old(checkedOut) - 1
      ensures acquired == old(acquired) && submitted == old(submitted)
      ensures ended == old(ended) && endCalls == old(endCalls)
    {
      checkedOut := checkedOut - 1;
    }

    /** `pool.end()`: the first call settles as the database layer says; every
        later call is rejected. */
    method End(reply: Settled) returns (r: Settled)
      modifies this
      ensures r == EndOutcome(old(ended), reply)
      ensures ended && endCalls == old(endCalls) + 1
      ensures submitted == old(submitted) && acquired == old(acquired) && checkedOut == old(checkedOut)
    {
      r := EndOutcome(ended, reply);
      ended := true;
      endCalls := endCalls + 1;
    }
  }

  /** Module load: one pool, built once from the environment, that is both the
      named export `pool` and the default export. */
  method LoadSharedPool(env: Env) returns (named: Pool, default: Pool)
    ensures fresh(named) && default == named
    ensures named.config == GetDatabaseConfig(env)
    ensures !named.ended && named.endCalls == 0 && named.submitted == []
    ensures named.acquired == 0 && named.checkedOut == 0
  {
    named := new Pool(GetDatabaseConfig(env));
    default := named;
  }

  /** `probarConexion`: true exactly when a client could be checked out; that
      client is released, and no rejection escapes. */
  method ProbarConexion(pool: Pool, reply: Settled) returns (ok: bool)
    modifies pool
    ensures ok <==> !old(pool.ended) && reply.Resolved?
    ensures pool.acquired == old(pool.acquired) + (if ok then 1 else 0)
    ensures pool.checkedOut == old(pool.checkedOut)
    ensures pool.submitted == old(pool.submitted)
    ensures pool.ended == old(pool.ended) && pool.endCalls == old(pool.endCalls)
  {
    var client := pool.Connect(reply);
    if client.Resolved? {
      pool.Release();
      ok := true;
    } else {
      ok := false;
    }
  }
}
