/**
 * The few pieces of JavaScript semantics the relay route, the page and the
 * snippet generator rely on: JSON values as `JSON.parse` yields them, what a
 * thrown value carries, truthiness (`if (!x)`, `x || d`), `String(v)` for the
 * message of `new Error(v)`, the decimal form of an integer in a template
 * literal, and `String.prototype.trim`.
 */
module Js {

  datatype Option<+T> = None | Some(value: T)

  /** A JSON value. Numbers are integral (see README, "Left out"); an object
      is a map from member name to value, so key order is not kept. */
  datatype Json =
    | JNull
    | JBool(b: bool)
    | JNum(n: int)
    | JStr(s: string)
    | JArr(items: seq<Json>)
    | JObj(fields: map<string, Json>)

  /** A value reaching a `catch`: an `Error` with its `message`, or anything else. */
  datatype Thrown = ErrorThrown(message: string) | OtherThrown

  /** JavaScript truthiness of a JSON value. `NaN` cannot come out of JSON;
      `-0` can, and is falsy like the `JNum(0)` it is modelled as. */
  predicate Truthy(v: Json) {
    match v
    case JNull => false
    case JBool(b) => b
    case JNum(n) => n != 0
    case JStr(s) => s != ""
    case JArr(_) => true
    case JObj(_) => true
  }

  /** Truthiness of a property read, `None` standing for `undefined`. */
  predicate Present(o: Option<Json>) {
    o.Some? && Truthy(o.value)
  }

  /** `v.k` for a non-null value and a property name that is neither an array
      index nor `length`: only an object's own member is found. */
  function Member(v: Json, k: string): (r: Option<Json>)
    requires !v.JNull?
    ensures r.Some? <==> v.JObj? && k in v.fields
    ensures r.Some? ==> r.value == v.fields[k]
  {
    if v.JObj? && k in v.fields then Some(v.fields[k]) else None
  }

  /** `o || d`: the value read when it is truthy, the default otherwise. */
  function OrElse(o: Option<Json>, d: Json): (r: Json)
    ensures Present(o) ==> r == o.value
    ensures !Present(o) ==> r == d
  {
    if Present(o) then o.value else d
  }

  /** The `message` of an `Error`, else the caller's fallback text. */
  function MessageOr(t: Thrown, fallback: string): (r: string)
    ensures t.ErrorThrown? ==> r == t.message
    ensures t.OtherThrown? ==> r == fallback
  {
    match t
    case ErrorThrown(m) => m
    case OtherThrown => fallback
  }

  // ---------------------------------------------------------------------
  // Decimal digits, as a template literal `${n}` writes an integer

  function DigitChar(d: nat): (c: char)
    requires d < 10
    ensures '0' <= c <= '9'
  {
    "0123456789"[d]
  }

  function DigitValue(c: char): nat {
    if '0' <= c <= '9' then (c - '0') as nat else 0
  }

  predicate AllDigits(s: string) {
    forall i :: 0 <= i < |s| ==> '0' <= s[i] <= '9'
  }

  /** The shortest decimal numeral of `n`. */
  function NatToDecimal(n: nat): (r: string)
    ensures |r| >= 1 && AllDigits(r)
    ensures r[0] == '0' ==> n == 0
    decreases n
  {
    if n < 10 then [DigitChar(n)] else NatToDecimal(n / 10) + [DigitChar(n % 10)]
  }

  /** The value of a string of decimal digits (the inverse of NatToDecimal). */
  function DecimalValue(s: string): nat
    decreases |s|
  {
    if s == [] then 0 else DecimalValue(s[..|s| - 1]) * 10 + DigitValue(s[|s| - 1])
  }

  lemma {:induction false} DecimalRoundTrip(n: nat)
    ensures DecimalValue(NatToDecimal(n)) == n
    decreases n
  {
    var r := NatToDecimal(n);
    if n < 10 {
      assert r[..|r| - 1] == [];
    } else {
      DecimalRoundTrip(n / 10);
      assert r[..|r| - 1] == NatToDecimal(n / 10);
    }
  }

  /** `${n}` for an integer. */
  function IntToDecimal(n: int): (r: string)
    ensures |r| >= 1
    ensures n >= 0 <==> r[0] != '-'
    ensures n >= 0 ==> AllDigits(r) && DecimalValue(r) == n
    ensures n < 0 ==> AllDigits(r[1..]) && DecimalValue(r[1..]) == -n
    ensures n >= 0 && |r| > 1 ==> r[0] != '0'
    ensures n < 0 ==> |r| >= 2 && r[1] != '0'
  {
    if n < 0 then
      DecimalRoundTrip(-n);
      assert ("-" + NatToDecimal(-n))[1..] == NatToDecimal(-n);
      "-" + NatToDecimal(-n)
    else
      DecimalRoundTrip(n);
      NatToDecimal(n)
  }

  /** Two integers print alike only if they are equal. */
  lemma NatToDecimalInjective(a: nat, b: nat)
    requires NatToDecimal(a) == NatToDecimal(b)
    ensures a == b
  {
    DecimalRoundTrip(a);
    DecimalRoundTrip(b);
  }

  /** Two integers print alike only if they are equal. */
  lemma IntToDecimalInjective(a: int, b: int)
    requires IntToDecimal(a) == IntToDecimal(b)
    ensures a == b
  {
    var s := IntToDecimal(a);
    if a < 0 && b < 0 {
      assert s[1..] == NatToDecimal(-a) == NatToDecimal(-b);
      NatToDecimalInjective(-a, -b);
    } else if a >= 0 && b >= 0 {
      NatToDecimalInjective(a, b);
    }
  }

  // ---------------------------------------------------------------------
  // String(v), for the values this code turns into an Error message

  /** The elements of `parts` separated by `sep`, as `Array.prototype.join`. */
  function Join(parts: seq<string>, sep: string): (r: string)
    ensures parts == [] ==> r == ""
    ensures |parts| == 1 ==> r == parts[0]
    decreases |parts|
  {
    if parts == [] then ""
    else if |parts| == 1 then parts[0]
    else parts[0] + sep + Join(parts[1..], sep)
  }

  /** `String(v)`: an array joins its elements with commas (a null element
      prints as nothing), an object prints as `[object Object]`. */
  function ToJsString(v: Json): (r: string)
    ensures v.JStr? ==> r == v.s
    decreases v
  {
    match v
    case JNull => "null"
    case JBool(b) => if b then "true" else "false"
    case JNum(n) => IntToDecimal(n)
    case JStr(s) => s
    case JObj(_) => "[object Object]"
    case JArr(items) =>
      Join(seq(|items|, i requires 0 <= i < |items| =>
             if items[i].JNull? then "" else ToJsString(items[i])), ",")
  }

  // ---------------------------------------------------------------------
  // String.prototype.trim

  /** ECMAScript WhiteSpace and LineTerminator code points. */
  predicate IsJsWhitespace(c: char) {
    // TAB, LF, VT, FF, CR, SPACE
    c == '\t' || c == '\n' || c == '\U{000B}' || c == '\U{000C}' || c == '\r' || c == ' '
    // NBSP, OGHAM SPACE MARK, EN QUAD .. HAIR SPACE
    || c == '\U{00A0}' || c == '\U{1680}' || ('\U{2000}' <= c <= '\U{200A}')
    // LINE SEPARATOR, PARAGRAPH SEPARATOR, NARROW NBSP, MEDIUM MATHEMATICAL SPACE
    || c == '\U{2028}' || c == '\U{2029}' || c == '\U{202F}' || c == '\U{205F}'
    // IDEOGRAPHIC SPACE, BYTE ORDER MARK
    || c == '\U{3000}' || c == '\U{FEFF}'
  }

  /** Every character of `s` is white space (vacuously so for ""). */
  predicate IsBlank(s: string) {
    forall i :: 0 <= i < |s| ==> IsJsWhitespace(s[i])
  }

  function TrimStart(s: string): (r: string)
    ensures r == [] || !IsJsWhitespace(r[0])
    ensures |r| <= |s| && r == s[|s| - |r|..]
    ensures IsBlank(s[..|s| - |r|])
    decreases |s|
  {
    if s != [] && IsJsWhitespace(s[0]) then
      var r := TrimStart(s[1..]);
      var k := |s| - |r|;
      assert s[..k] == [s[0]] + s[1..][..k - 1];
      r
    else
      assert s[..0] == [];
      s
  }

  function TrimEnd(s: string): (r: string)
    ensures r == [] || !IsJsWhitespace(r[|r| - 1])
    ensures |r| <= |s| && r == s[..|r|]
    ensures IsBlank(s[|r|..])
    decreases |s|
  {
    if s != [] && IsJsWhitespace(s[|s| - 1]) then TrimEnd(s[..|s| - 1]) else s
  }

  /** `s.trim()`. */
  function Trim(s: string): (r: string)
    ensures r == [] || (!IsJsWhitespace(r[0]) && !IsJsWhitespace(r[|r| - 1]))
    ensures exists i, j :: 0 <= i <= j <= |s| && r == s[i..j] && IsBlank(s[..i]) && IsBlank(s[j..])
  {
    var t := TrimStart(s);
    var r := TrimEnd(t);
    var i := |s| - |t|;
    var j := i + |r|;
    assert r == s[i..j];
    assert s[j..] == t[|r|..];
    r
  }

  lemma {:induction false} TrimStartKeepsBlankness(s: string)
    ensures IsBlank(TrimStart(s)) <==> IsBlank(s)
    decreases |s|
  {
    if s != [] && IsJsWhitespace(s[0]) {
      TrimStartKeepsBlankness(s[1..]);
      assert IsBlank(s[1..]) ==> IsBlank(s) by {
        if IsBlank(s[1..]) {
          forall i | 0 <= i < |s| ensures IsJsWhitespace(s[i]) {
            if i > 0 { assert s[i] == s[1..][i - 1]; }
          }
        }
      }
    }
  }

  lemma {:induction false} TrimEndEmptyIffBlank(s: string)
    ensures TrimEnd(s) == [] <==> IsBlank(s)
    decreases |s|
  {
    if s != [] && IsJsWhitespace(s[|s| - 1]) {
      var p := s[..|s| - 1];
      TrimEndEmptyIffBlank(p);
      assert IsBlank(p) ==> IsBlank(s) by {
        if IsBlank(p) {
          forall i | 0 <= i < |s| ensures IsJsWhitespace(s[i]) {
            if i < |s| - 1 { assert s[i] == p[i]; }
          }
        }
      }
    }
  }

  /** `!s.trim()` holds exactly when `s` is made of white space only. */
  lemma TrimEmptyIffBlank(s: string)
    ensures Trim(s) == [] <==> IsBlank(s)
  {
    TrimEndEmptyIffBlank(TrimStart(s));
    TrimStartKeepsBlankness(s);
  }
}
