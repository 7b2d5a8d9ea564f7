/**
 * The values the entry point computes for its own reports: the listen port,
 * the `/api/debug/tables` response and the `total_analizadas` count of the
 * moderation status report.
 */
module ApiReports {
  import opened JsValues

  const DEFAULT_LISTEN_PORT := "4000"
  const MAX_LISTEN_PORT := 65535
  const TABLES_ERROR := "Error obteniendo tablas de la BD"

  /** `parseInt(process.env.PORT || '4000')`. */
  function ListenPort(env: Env): JsNumber
  {
    ParseInt(EnvOr(env, "PORT", DEFAULT_LISTEN_PORT))
  }

  /** What the first character of a set `PORT` decides: NaN unless it is a
      digit, whitespace or a sign, and a non-negative number after a digit
      not followed by `x`. */
  lemma ListenPortFirstCharacter(env: Env)
    ensures (Truthy(env, "PORT") && !IsDigit(env["PORT"][0]) && !IsJsWhitespace(env["PORT"][0])
      && env["PORT"][0] != '+' && env["PORT"][0] != '-') ==> ListenPort(env).NaN?
    ensures Truthy(env, "PORT") && IsDigit(env["PORT"][0]) && !HexPrefixed(env["PORT"]) ==>
      ListenPort(env).Num? && ListenPort(env).value >= 0
  {
    ParseIntFirstCharacter(EnvOr(env, "PORT", DEFAULT_LISTEN_PORT));
  }

  /** Whether `app.listen` takes the port. Node's `listen` validates it before
      binding and throws a `RangeError` synchronously for NaN, a negative
      port or a port above 65535. */
  predicate ListenPortAccepted(port: JsNumber)
  {
    port.Num? && 0 <= port.value <= MAX_LISTEN_PORT
  }

  /** The port is 4000 when `PORT` is unset or empty, and `n` when it holds
      the decimal text of `n`; `listen` takes it exactly when `n` is at most
      65535. */
  lemma ListenPortDefault(env: Env, n: nat)
    ensures !Truthy(env, "PORT") ==> ListenPort(env) == Num(4000) && ListenPortAccepted(ListenPort(env))
    ensures "PORT" in env && env["PORT"] == Decimal(n) ==>
      ListenPort(env) == Num(n) && (ListenPortAccepted(ListenPort(env)) <==> n <= MAX_LISTEN_PORT)
  {
    if !Truthy(env, "PORT") {
      assert Decimal(4000) == DEFAULT_LISTEN_PORT;
      ParseDecimal(4000);
    }
    if "PORT" in env && env["PORT"] == Decimal(n) {
      ParseDecimal(n);
    }
  }

  /** `parseInt` reads past leading whitespace and a sign: whitespace before
      the decimal text of `n` still gives `n`, a `+` too, and a `-` gives
      `-n`, which `listen` refuses unless `n` is 0. */
  lemma ListenPortPaddedOrSigned(env: Env, w: string, n: nat)
    requires AllWhitespace(w)
    ensures "PORT" in env && env["PORT"] == w + Decimal(n) ==>
      ListenPort(env) == Num(n) && (ListenPortAccepted(ListenPort(env)) <==> n <= MAX_LISTEN_PORT)
    ensures "PORT" in env && env["PORT"] == "+" + Decimal(n) ==> ListenPort(env) == Num(n)
    ensures "PORT" in env && env["PORT"] == "-" + Decimal(n) ==>
      ListenPort(env) == Num(-(n as int)) && (ListenPortAccepted(ListenPort(env)) <==> n == 0)
  {
    var text := Decimal(n);
    ParseDecimal(n);
    ParseIntSkipsWhitespace(w, text);
    ParseIntSign(text);
  }

  /** The JSON body and status of `/api/debug/tables`. */
  datatype TablesResponse =
    | TablesListed(tables: seq<string>, total: nat)
    | TablesFailed(status: nat, error: string)

  /** `/api/debug/tables`: the live table list and its length, or 500. */
  function DebugTables(reply: QueryResult): (r: TablesResponse)
    ensures r.TablesListed? <==> reply.Rows?
    ensures r.TablesListed? ==> r.tables == reply.rows && r.total == |r.tables|
    ensures r.TablesFailed? ==> r.status == 500 && r.error == TABLES_ERROR
  {
    match reply
    case Rows(rows) => TablesListed(rows, |rows|)
    case Failed(_) => TablesFailed(500, TABLES_ERROR)
  }

  /** JavaScript `+` on the numbers `parseInt` produces: NaN absorbs. */
  function Add(a: JsNumber, b: JsNumber): JsNumber
  {
    if a.Num? && b.Num? then Num(a.value + b.value) else NaN
  }

  /** `reduce((acc, n) => acc + n, 0)` over numbers, left to right: a
      number exactly when every element is one. */
  function AddAll(ns: seq<JsNumber>): (r: JsNumber)
    ensures r.Num? <==> forall i :: 0 <= i < |ns| ==> ns[i].Num?
  {
    if ns == [] then Num(0)
    else
      var rest := ns[..|ns| - 1];
      assert forall i :: 0 <= i < |rest| ==> rest[i] == ns[i];
      Add(AddAll(rest), ns[|ns| - 1])
  }

  /** `rows.reduce((acc, row) => acc + parseInt(row.total), 0)`, each row
      given by its `total` text. The report is a number exactly when every
      row's `total` parses; a single unparsable row makes it NaN. */
  function TotalAnalizadas(totals: seq<string>): (r: JsNumber)
    ensures r.Num? <==> forall i :: 0 <= i < |totals| ==> ParseInt(totals[i]).Num?
  {
    var parsed := seq(|totals|, i requires 0 <= i < |totals| => ParseInt(totals[i]));
    assert forall i :: 0 <= i < |totals| ==> parsed[i] == ParseInt(totals[i]);
    AddAll(parsed)
  }

  function Sum(counts: seq<nat>): nat
  {
    if counts == [] then 0 else Sum(counts[..|counts| - 1]) + counts[|counts| - 1]
  }

  /** With every `total` the decimal text of a count, the report is the sum of
      the counts, and 0 for no rows. */
  lemma TotalIsSumOfCounts(totals: seq<string>, counts: seq<nat>)
    requires |totals| == |counts|
    requires forall i :: 0 <= i < |totals| ==> totals[i] == Decimal(counts[i])
    ensures TotalAnalizadas(totals) == Num(Sum(counts))
  {
    var ns := seq(|totals|, i requires 0 <= i < |totals| => ParseInt(totals[i]));
    forall i | 0 <= i < |ns|
      ensures ns[i] == Num(counts[i])
    {
      ParseDecimal(counts[i]);
    }
    AddAllOfCounts(ns, counts);
  }

  /** Numbers added in order give the sum of their values. */
  lemma {:induction false} AddAllOfCounts(ns: seq<JsNumber>, counts: seq<nat>)
    requires |ns| == |counts|
    requires forall i :: 0 <= i < |ns| ==> ns[i] == Num(counts[i])
    ensures AddAll(ns) == Num(Sum(counts))
  {
    if ns != [] {
      var n := |ns| - 1;
      assert forall i :: 0 <= i < n ==> ns[..n][i] == Num(counts[..n][i]);
      AddAllOfCounts(ns[..n], counts[..n]);
    }
  }
}
