/**
 * The JavaScript runtime values the backend's startup code inspects: thrown
 * values, settled promises, database query replies, the process environment,
 * `parseInt` and `String.prototype.trim`.
 */
module JsValues {

  datatype Option<T> = None | Some(value: T)

  /** A value a `throw` or a promise rejection can carry, split the way the
      startup code's `catch` blocks tell them apart. */
  datatype Thrown =
    | ErrorInstance(message: string)      // an `Error` object (`instanceof Error`)
    | StringValue(text: string)           // a primitive string
    | MessageObject(messageText: string)  // a non-Error object with a `message` property, after `String(...)`
    | OtherValue                          // anything else: falsy non-string values, numbers, objects without `message`

  /** How an awaited promise settles. */
  datatype Settled = Resolved | Rejected(error: Thrown)

  /** The reply to `pool.query`: the rows (reduced to the one column the core
      reads) or the rejection. */
  datatype QueryResult = Rows(rows: seq<string>) | Failed(error: Thrown)

  /** `process.env`: variable name to value; an unset variable is absent. */
  type Env = map<string, string>

  /** `process.env[key]` is truthy: set and not the empty string. */
  predicate Truthy(env: Env, key: string)
  {
    key in env && env[key] != ""
  }

  /** `process.env[key] || fallback`. */
  function EnvOr(env: Env, key: string, fallback: string): (v: string)
    ensures Truthy(env, key) ==> v == env[key]
    ensures !Truthy(env, key) ==> v == fallback
    ensures fallback != "" ==> v != ""
  {
    if Truthy(env, key) then env[key] else fallback
  }

  // ---------------------------------------------------------------------------
  // parseInt with no radix

  /** A JavaScript number as `parseInt` can produce it. `-0` is written as 0. */
  datatype JsNumber = Num(value: int) | NaN

  predicate IsDigit(c: char)
  {
    '0' <= c <= '9'
  }

  /** A digit of base 16 when `hex`, of base 10 otherwise. */
  predicate IsRadixDigit(c: char, hex: bool)
  {
    IsDigit(c) || (hex && ('a' <= c <= 'f' || 'A' <= c <= 'F'))
  }

  function Radix(hex: bool): nat
  {
    if hex then 16 else 10
  }

  predicate AllDigits(s: string, hex: bool)
  {
    forall i :: 0 <= i < |s| ==> IsRadixDigit(s[i], hex)
  }

  function DigitValue(c: char): (d: nat)
    requires IsRadixDigit(c, true)
    ensures d < 16
    ensures IsDigit(c) ==> d < 10
  {
    if IsDigit(c) then c as int - '0' as int
    else if 'a' <= c <= 'f' then c as int - 'a' as int + 10
    else c as int - 'A' as int + 10
  }

  function DigitChar(d: nat): (c: char)
    requires d < 10
    ensures IsDigit(c) && DigitValue(c) == d
  {
    ('0' as int + d) as char
  }

  /** The longest prefix of `s` made of digits of the radix. */
  function LeadingDigits(s: string, hex: bool): string
  {
    if s == [] || !IsRadixDigit(s[0], hex) then [] else [s[0]] + LeadingDigits(s[1..], hex)
  }

  /** `LeadingDigits` is a prefix made of digits, and the character after it
      is not one. */
  lemma {:induction false} LeadingDigitsIsLongestDigitPrefix(s: string, hex: bool)
    ensures LeadingDigits(s, hex) <= s && AllDigits(LeadingDigits(s, hex), hex)
    ensures |LeadingDigits(s, hex)| < |s| ==> !IsRadixDigit(s[|LeadingDigits(s, hex)|], hex)
  {
    if s != [] && IsRadixDigit(s[0], hex) {
      LeadingDigitsIsLongestDigitPrefix(s[1..], hex);
    }
  }

  /** The value of a digit string, most significant digit first. */
  function DigitsValue(d: string, hex: bool): nat
    requires AllDigits(d, hex)
  {
    if d == [] then 0 else DigitsValue(d[..|d| - 1], hex) * Radix(hex) + DigitValue(d[|d| - 1])
  }

  /** Starts with `0x` or `0X`, the prefix that switches `parseInt` to base 16. */
  predicate HexPrefixed(u: string)
  {
    |u| >= 2 && u[0] == '0' && (u[1] == 'x' || u[1] == 'X')
  }

  /** `u` without one leading `+` or `-`. */
  function Unsigned(u: string): string
  {
    if u != [] && (u[0] == '+' || u[0] == '-') then u[1..] else u
  }

  /** The value of the digits `parseInt` reads from text that has lost its
      leading whitespace and sign, or NaN when there are none. */
  function ParseMagnitude(u: string): JsNumber
  {
    var hex := HexPrefixed(u);
    var body := if hex then u[2..] else u;
    LeadingDigitsIsLongestDigitPrefix(body, hex);
    var d := LeadingDigits(body, hex);
    if d == [] then NaN else Num(DigitsValue(d, hex))
  }

  /** Unary minus on the result. */
  function Negate(n: JsNumber): JsNumber
  {
    if n.Num? then Num(-n.value) else NaN
  }

  /** `parseInt(s)`, with no radix: skip the leading whitespace, take an
      optional sign, switch to base 16 after `0x`, then read the longest
      run of digits; NaN when that run is empty. */
  function ParseInt(s: string): JsNumber
  {
    var t := TrimStart(s);
    var m := ParseMagnitude(Unsigned(t));
    if t != [] && t[0] == '-' then Negate(m) else m
  }

  /** What the first character decides: empty text and text that starts with
      anything but a digit, whitespace or a sign give NaN; a digit not
      followed by `x` gives a non-negative number. */
  lemma ParseIntFirstCharacter(s: string)
    ensures s == [] ==> ParseInt(s).NaN?
    ensures s != [] && !IsDigit(s[0]) && !IsJsWhitespace(s[0]) && s[0] != '+' && s[0] != '-' ==> ParseInt(s).NaN?
    ensures s != [] && IsDigit(s[0]) && !HexPrefixed(s) ==> ParseInt(s).Num? && ParseInt(s).value >= 0
  {
  }

  /** `String(n)` for a non-negative integer: its decimal digits, no leading zero. */
  function Decimal(n: nat): (s: string)
    ensures s != [] && AllDigits(s, false)
    ensures |s| > 1 ==> s[0] != '0'
  {
    if n < 10 then [DigitChar(n)] else Decimal(n / 10) + [DigitChar(n % 10)]
  }

  /** Text made only of digits is its own leading-digit prefix. */
  lemma {:induction false} LeadingDigitsOfDigits(s: string, hex: bool)
    requires AllDigits(s, hex)
    ensures LeadingDigits(s, hex) == s
  {
    if s != [] {
      LeadingDigitsOfDigits(s[1..], hex);
    }
  }

  lemma {:induction false} DecimalValue(n: nat)
    ensures DigitsValue(Decimal(n), false) == n
  {
    if n >= 10 {
      var s := Decimal(n);
      assert s[..|s| - 1] == Decimal(n / 10);
      DecimalValue(n / 10);
    }
  }

  /** `parseInt(String(n)) === n`: decimal text parses back to its value. */
  lemma ParseDecimal(n: nat)
    ensures ParseInt(Decimal(n)) == Num(n)
  {
    LeadingDigitsOfDigits(Decimal(n), false);
    DecimalValue(n);
  }

  /** Leading whitespace does not change what `parseInt` reads. */
  lemma ParseIntSkipsWhitespace(w: string, s: string)
    requires AllWhitespace(w)
    ensures ParseInt(w + s) == ParseInt(s)
  {
    TrimStartOfWhitespace(w, s);
  }

  lemma {:induction false} TrimStartOfWhitespace(w: string, s: string)
    requires AllWhitespace(w)
    ensures TrimStart(w + s) == TrimStart(s)
  {
    if w != [] {
      assert (w + s)[0] == w[0] && IsJsWhitespace(w[0]);
      assert (w + s)[1..] == w[1..] + s;
      assert TrimStart(w + s) == TrimStart(w[1..] + s);
      TrimStartOfWhitespace(w[1..], s);
    } else {
      assert w + s == s;
    }
  }

  /** A `+` leaves the value as it is and a `-` negates it, for text that
      does not itself start with whitespace or a sign. */
  lemma ParseIntSign(s: string)
    requires s != [] ==> !IsJsWhitespace(s[0]) && s[0] != '+' && s[0] != '-'
    ensures ParseInt("+" + s) == ParseInt(s)
    ensures ParseInt("-" + s) == Negate(ParseInt(s))
  {
    assert ("+" + s)[1..] == s;
    assert ("-" + s)[1..] == s;
  }

  /** After `0x`, the hexadecimal digits are read in base 16. */
  lemma ParseHex(h: string)
    requires h != [] && AllDigits(h, true)
    ensures ParseInt("0x" + h) == Num(DigitsValue(h, true))
  {
    assert ("0x" + h)[2..] == h;
    LeadingDigitsOfDigits(h, true);
  }

  // ---------------------------------------------------------------------------
  // String.prototype.trim

  /** The characters `trim` removes: ECMAScript WhiteSpace (tab, vertical tab,
      form feed, the byte-order mark and every Unicode space separator) and
      LineTerminator (LF, CR, U+2028, U+2029). */
  predicate IsJsWhitespace(c: char)
  {
    || c == '\t' || c == '\U{000B}' || c == '\U{000C}' || c == ' '
    || c == '\U{00A0}' || c == '\U{1680}' || ('\U{2000}' <= c <= '\U{200A}')
    || c == '\U{202F}' || c == '\U{205F}' || c == '\U{3000}' || c == '\U{FEFF}'
    || c == '\n' || c == '\r' || c == '\U{2028}' || c == '\U{2029}'
  }

  predicate AllWhitespace(s: string)
  {
    forall i :: 0 <= i < |s| ==> IsJsWhitespace(s[i])
  }

  /** `s` without its leading whitespace. */
  function TrimStart(s: string): string
  {
    if s != [] && IsJsWhitespace(s[0]) then TrimStart(s[1..]) else s
  }

  /** `s` without its trailing whitespace. */
  function TrimEnd(s: string): string
  {
    if s != [] && IsJsWhitespace(s[|s| - 1]) then TrimEnd(s[..|s| - 1]) else s
  }

  /** `s.trim()`. */
  function Trim(s: string): string
  {
    TrimEnd(TrimStart(s))
  }

  /** `TrimStart` removes exactly a whitespace prefix and stops at the first
      other character. */
  lemma {:induction false} TrimStartRemovesWhitespacePrefix(s: string)
    ensures |TrimStart(s)| <= |s| && TrimStart(s) == s[|s| - |TrimStart(s)|..]
    ensures AllWhitespace(s[..|s| - |TrimStart(s)|])
    ensures TrimStart(s) != [] ==> !IsJsWhitespace(TrimStart(s)[0])
  {
    if s != [] && IsJsWhitespace(s[0]) {
      TrimStartRemovesWhitespacePrefix(s[1..]);
      var t := TrimStart(s[1..]);
      assert s[..|s| - |t|] == [s[0]] + s[1..][..|s[1..]| - |t|];
    }
  }

  /** `TrimEnd` removes exactly a whitespace suffix and stops at the last
      other character. */
  lemma {:induction false} TrimEndRemovesWhitespaceSuffix(s: string)
    ensures TrimEnd(s) <= s
    ensures AllWhitespace(s[|TrimEnd(s)|..])
    ensures TrimEnd(s) != [] ==> !IsJsWhitespace(TrimEnd(s)[|TrimEnd(s)| - 1])
  {
    if s != [] && IsJsWhitespace(s[|s| - 1]) {
      var p := s[..|s| - 1];
      TrimEndRemovesWhitespaceSuffix(p);
      var t := TrimEnd(p);
      assert s[|t|..] == p[|t|..] + [s[|s| - 1]];
    }
  }

  /** `s.trim().length === 0` exactly when every character of `s` is whitespace. */
  lemma TrimEmptyIffBlank(s: string)
    ensures |Trim(s)| == 0 <==> AllWhitespace(s)
  {
    var t := TrimStart(s);
    TrimStartRemovesWhitespacePrefix(s);
    TrimEndRemovesWhitespaceSuffix(t);
    if !AllWhitespace(s) {
      var i :| 0 <= i < |s| && !IsJsWhitespace(s[i]);
    }
  }
}
