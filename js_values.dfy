/**
 * JavaScript values as the API controllers and helpers handle them: the
 * JSON-shaped values of query strings, filter objects and documents, plus the
 * few runtime conversions the source relies on (truthiness, `String(v)`,
 * `v * 1`). Numbers are integers; a JavaScript object is a map from its keys
 * to its values (key order is not modelled).
 */
module JsValues {

  datatype Option<+T> = None | Some(value: T)

  datatype Result<+T, +E> = Success(value: T) | Failure(error: E)

  /** An exception raised by the JavaScript runtime itself. */
  datatype JsError = TypeError(message: string) | SyntaxError(message: string)

  datatype Value =
    | Undefined
    | Null
    | Bool(b: bool)
    | Num(n: int)
    | NaN
    | Str(s: string)
    | Arr(items: seq<Value>)
    | Obj(fields: map<string, Value>)
      /** `new RegExp(source, 'i')` */
    | CIPattern(source: string)
      /** a regular-expression literal without flags, `/source/` */
    | RegexLiteral(source: string)

  /** JavaScript truthiness: `if (v)`, `v || d`, `!v`. */
  predicate Truthy(v: Value) {
    match v
    case Undefined => false
    case Null => false
    case Bool(b) => b
    case Num(n) => n != 0
    case NaN => false
    case Str(s) => s != ""
    case _ => true
  }

  /** A string-valued document field is truthy when present and non-empty. */
  predicate Present(o: Option<string>) {
    o.Some? && o.value != ""
  }

  function Min(a: int, b: int): int { if a < b then a else b }

  function Max(a: int, b: int): int { if a < b then b else a }

  predicate StartsWith(s: string, prefix: string) {
    |prefix| <= |s| && s[..|prefix|] == prefix
  }

  /** The set of elements of a list, as `includes` sees them. */
  function Elements<T>(s: seq<T>): set<T> {
    set x | x in s
  }

  // ---------------------------------------------------------------------------
  // Decimal numerals
  // ---------------------------------------------------------------------------

  predicate IsDigit(c: char) {
    '0' <= c <= '9'
  }

  predicate AllDigits(s: string) {
    forall i | 0 <= i < |s| :: IsDigit(s[i])
  }

  function DigitChar(d: int): (c: char)
    requires 0 <= d < 10
    ensures IsDigit(c)
  {
    ('0' as int + d) as char
  }

  function DigitValue(c: char): (d: nat)
    requires IsDigit(c)
    ensures d < 10 && DigitChar(d) == c
  {
    c as int - '0' as int
  }

  /** The decimal numeral of a natural number, without leading zeros. */
  function NatToString(n: nat): (s: string)
    ensures |s| > 0 && AllDigits(s)
    ensures (|s| > 1 ==> s[0] != '0')
    decreases n
  {
    if n < 10 then [DigitChar(n)] else NatToString(n / 10) + [DigitChar(n % 10)]
  }

  /** `String(n)` for an integer. */
  function IntToString(n: int): string {
    if n < 0 then "-" + NatToString(-n) else NatToString(n)
  }

  function ParseDigits(s: string): nat
    requires AllDigits(s)
    decreases |s|
  {
    if s == [] then 0 else ParseDigits(s[..|s| - 1]) * 10 + DigitValue(s[|s| - 1])
  }

  /**
   * `Number(s)` restricted to integer numerals: the empty string is 0, an
   * optionally signed run of digits is its value, anything else is NaN.
   */
  function NumberOf(s: string): Value {
    if s == "" then Num(0)
    else if AllDigits(s) then Num(ParseDigits(s))
    else if |s| > 1 && (s[0] == '-' || s[0] == '+') && AllDigits(s[1..]) then
      Num(if s[0] == '-' then -(ParseDigits(s[1..]) as int) else ParseDigits(s[1..]))
    else NaN
  }

  lemma {:induction false} ParseNatToString(n: nat)
    ensures ParseDigits(NatToString(n)) == n
    decreases n
  {
    if n >= 10 {
      var s := NatToString(n);
      assert s[..|s| - 1] == NatToString(n / 10);
      ParseNatToString(n / 10);
    }
  }

  /** Reading back the numeral of an integer gives the integer. */
  lemma {:induction false} NumberOfIntToString(n: int)
    ensures NumberOf(IntToString(n)) == Num(n)
  {
    if n < 0 {
      var s := IntToString(n);
      assert s[1..] == NatToString(-n);
      assert !AllDigits(s) by { assert !IsDigit(s[0]); }
      ParseNatToString(-n);
    } else {
      ParseNatToString(n);
    }
  }

  // ---------------------------------------------------------------------------
  // Conversions
  // ---------------------------------------------------------------------------

  /** `list.join(sep)` over strings. */
  function Join(parts: seq<string>, sep: string): string
    decreases |parts|
  {
    if |parts| == 0 then ""
    else if |parts| == 1 then parts[0]
    else parts[0] + sep + Join(parts[1..], sep)
  }

  /** `String(v)`; an array is joined with "," and its null or undefined items print as "". */
  function JsString(v: Value): string
    decreases v
  {
    match v
    case Undefined => "undefined"
    case Null => "null"
    case Bool(b) => if b then "true" else "false"
    case Num(n) => IntToString(n)
    case NaN => "NaN"
    case Str(s) => s
    case Arr(items) =>
      Join(seq(|items|, i requires 0 <= i < |items| =>
                 if items[i] == Null || items[i] == Undefined then "" else JsString(items[i])), ",")
    case Obj(_) => "[object Object]"
    case CIPattern(src) => "/" + src + "/i"
    case RegexLiteral(src) => "/" + src + "/"
  }

  /** An element of a list as `join` writes it: null and undefined print as "". */
  function ItemString(v: Value): string {
    if v == Null || v == Undefined then "" else JsString(v)
  }

  /** `v * 1`: a number, or NaN. Objects and arrays go through their string form. */
  function ToNumber(v: Value): (r: Value)
    ensures r.Num? || r.NaN?
  {
    match v
    case Undefined => NaN
    case Null => Num(0)
    case Bool(b) => Num(if b then 1 else 0)
    case Num(_) => v
    case NaN => NaN
    case Str(s) => NumberOf(s)
    case _ => NumberOf(JsString(v))
  }

  /** `v * 1 || default`: the number `v` denotes unless that is 0 or NaN. */
  function NumberOr(v: Value, default: int): (n: int)
    ensures ToNumber(v).Num? && ToNumber(v).n != 0 ==> n == ToNumber(v).n
    ensures !(ToNumber(v).Num? && ToNumber(v).n != 0) ==> n == default
  {
    match ToNumber(v)
    case Num(k) => if k != 0 then k else default
    case _ => default
  }

  /** A numeral parameter is read back as the number it writes. */
  lemma {:induction false} NumberOrNumeral(n: int, default: int)
    requires n != 0
    ensures NumberOr(Str(IntToString(n)), default) == n
  {
    NumberOfIntToString(n);
  }
}
