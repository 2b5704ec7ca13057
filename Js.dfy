/**
 * The JavaScript values the front end reads from the server and from
 * storage, and the coercions it applies to them: truthiness (`if (x)`,
 * `!x`, `Boolean(x)`), `a || b`, `a ?? b`, `Number(x)` and `String(x)`.
 * Numbers are integers; see README.
 */
module Js {
  import opened Text

  datatype Option<+T> = None | Some(value: T)

  datatype Value = Undefined | Null | Bool(b: bool) | Num(n: int) | Str(s: string)

  predicate Truthy(v: Value) {
    match v
    case Undefined => false
    case Null => false
    case Bool(b) => b
    case Num(n) => n != 0
    case Str(s) => s != ""
  }

  predicate Nullish(v: Value) {
    v.Undefined? || v.Null?
  }

  /** `a || b` */
  function Or(a: Value, b: Value): Value {
    if Truthy(a) then a else b
  }

  /** `a ?? b` */
  function Coalesce(a: Value, b: Value): Value {
    if Nullish(a) then b else a
  }

  /** `a || b` on strings, where the empty string is the only falsy one. */
  function OrElse(a: string, b: string): string {
    if a != "" then a else b
  }

  /** A string field that may be missing: `o.k || ""`. */
  function TextOr(o: Option<string>, fallback: string): string {
    if o.Some? && o.value != "" then o.value else fallback
  }

  /** `[a, b].filter(Boolean).join(" ")` */
  function JoinNonEmpty(a: string, b: string): (r: string)
    ensures r == "" <==> a == "" && b == ""
  {
    if a != "" && b != "" then a + " " + b else a + b
  }

  // ---------------------------------------------------------------------
  // Number(x)
  // ---------------------------------------------------------------------

  /**
   * The result of `Number(x)`. A string that is not, after trimming, empty or
   * an optionally signed run of decimal digits is kept as `Unparsed`: JavaScript
   * reads most such strings as NaN and a few (fractions, exponents, hexadecimal,
   * "Infinity") as other numbers, which this model does not evaluate.
   */
  datatype Numeric = Finite(i: int) | NaN | Unparsed(text: string)

  /** `Number(s)` for a string. */
  function StringToNumber(s: string): (r: Numeric)
    ensures AllDigits(Trim(s)) ==> r == Finite(DecimalValue(Trim(s)))
  {
    var t := Trim(s);
    if AllDigits(t) then Finite(DecimalValue(t))
    else if |t| >= 2 && t[0] == '+' && AllDigits(t[1..]) then Finite(DecimalValue(t[1..]))
    else if |t| >= 2 && t[0] == '-' && AllDigits(t[1..]) then Finite(0 - DecimalValue(t[1..]))
    else Unparsed(t)
  }

  /** `Number(v)`. */
  function ToNumber(v: Value): Numeric {
    match v
    case Undefined => NaN
    case Null => Finite(0)
    case Bool(b) => Finite(if b then 1 else 0)
    case Num(n) => Finite(n)
    case Str(s) => StringToNumber(s)
  }

  /** `Number(String(n))` gives n back for every non-negative integer. */
  lemma NumberOfDecimal(n: nat)
    ensures StringToNumber(DecimalString(n)) == Finite(n)
  {
    DigitsTrimmed(DecimalString(n));
    DecimalRoundTrip(n);
  }

  // ---------------------------------------------------------------------
  // String(x)
  // ---------------------------------------------------------------------

  /** `String(v)`. */
  function ToStr(v: Value): string {
    match v
    case Undefined => "undefined"
    case Null => "null"
    case Bool(b) => if b then "true" else "false"
    case Num(n) => if n < 0 then "-" + DecimalString(-n) else DecimalString(n)
    case Str(s) => s
  }

  /** `String(x) === String(y)` on non-negative numbers holds exactly when they are equal. */
  lemma NumberTextInjective(a: nat, b: nat)
    ensures ToStr(Num(a)) == ToStr(Num(b)) <==> a == b
  {
    DecimalRoundTrip(a);
    DecimalRoundTrip(b);
  }
}
