/** The JavaScript values a callee can throw or reject with, the `Error`
    objects among them, and the `String(e)` conversion that `toError` applies
    to everything that is not already an `Error`. */
module JsValues {

  datatype Option<+T> = None | Some(value: T)

  /** An object for which `e instanceof Error` holds: its `name` ("Error",
      "TypeError", ...) and its `message`. */
  datatype JsError = JsError(name: string, message: string)

  /** What `new Error(message)` creates: an Error named "Error" carrying
      `message`, which `String` shows as "Error: " and the message (or
      "Error" alone for an empty message). */
  function NewError(message: string): (err: JsError)
    ensures err.name == "Error" && err.message == message
    ensures ErrorToString(err) == if message == "" then "Error" else "Error: " + message
  {
    JsError("Error", message)
  }

  /** The error `String(e)` throws for an object that has no primitive
      conversion (for example one created by `Object.create(null)`). */
  const NoPrimitiveConversion: JsError :=
    JsError("TypeError", "Cannot convert object to primitive value")

  /** Any value that can be thrown or rejected with. Numbers are the safe
      integers here. An object that is not an Error carries the result of its
      primitive conversion, or None when that conversion throws. */
  datatype JsValue =
    | Undefined
    | Null
    | Bool(b: bool)
    | Num(n: SafeInteger)
    | Str(s: string)
    | ErrorObject(err: JsError)
    | Obj(primitive: Option<string>)

  /** How an evaluation ends: normally with a value, or by throwing one. */
  datatype Completion<+T> = Normal(value: T) | Abrupt(thrown: JsValue)

  function DigitChar(d: nat): (c: char)
    requires d < 10
    ensures '0' <= c <= '9' && c as int - '0' as int == d
  {
    ('0' as int + d) as char
  }

  /** A string made of decimal digits only. */
  predicate IsDigits(s: string) {
    forall i :: 0 <= i < |s| ==> '0' <= s[i] <= '9'
  }

  /** The natural number a string of decimal digits denotes, most significant
      digit first. */
  function DecimalValue(s: string): nat
    requires IsDigits(s)
    decreases |s|
  {
    if s == [] then 0
    else DecimalValue(s[..|s| - 1]) * 10 + (s[|s| - 1] as int - '0' as int)
  }

  /** The decimal digits of a natural number, most significant first. */
  function NatToDecimal(n: nat): (r: string)
    ensures |r| > 0 && IsDigits(r)
    ensures (|r| > 1) == (n >= 10)
    decreases n
  {
    if n < 10 then [DigitChar(n)] else NatToDecimal(n / 10) + [DigitChar(n % 10)]
  }

  /** The digits of `n` denote `n`, and there is no leading zero: they are
      the canonical numeral of `n`. */
  lemma {:induction false} NatToDecimalDenotes(n: nat)
    ensures DecimalValue(NatToDecimal(n)) == n
    ensures n >= 10 ==> NatToDecimal(n)[0] != '0'
    decreases n
  {
    if n >= 10 {
      NatToDecimalDenotes(n / 10);
      var r := NatToDecimal(n);
      assert r[..|r| - 1] == NatToDecimal(n / 10);
      assert r[0] == NatToDecimal(n / 10)[0];
    }
  }

  /** The largest integer a JavaScript number holds exactly
      (`Number.MAX_SAFE_INTEGER`, 2^53 - 1). */
  const MaxSafeInteger: int := 0x1F_FFFF_FFFF_FFFF

  /** The integers that are JavaScript numbers exactly. On them `String`
      prints the plain decimal numeral (the exponent form only starts at
      10^21). */
  type SafeInteger = n: int | -MaxSafeInteger <= n <= MaxSafeInteger

  /** `String(n)` for an integral number: a minus sign exactly for the
      negative ones, followed by the canonical numeral of the magnitude. */
  function NumberToString(n: int): (r: string)
    ensures |r| > 0
    ensures (r[0] == '-') == (n < 0)
    ensures var digits := if n < 0 then r[1..] else r;
            IsDigits(digits) && DecimalValue(digits) == (if n < 0 then -n else n)
            && (|digits| > 1 ==> digits[0] != '0')
  {
    var m: nat := if n < 0 then -n else n;
    NatToDecimalDenotes(m);
    if n < 0 then "-" + NatToDecimal(m) else NatToDecimal(m)
  }

  /** Distinct numbers print differently. */
  lemma NumberToStringInjective(m: int, n: int)
    requires NumberToString(m) == NumberToString(n)
    ensures m == n
  {
  }

  /** `Error.prototype.toString`: name and message joined by ": ", either one
      alone when the other is empty. Only `String` of a non-Error is ever
      taken by `toError`; this keeps `Stringify` total. */
  function ErrorToString(e: JsError): string {
    if e.name == "" then e.message
    else if e.message == "" then e.name
    else e.name + ": " + e.message
  }

  /** `String(e)`. It throws, with a TypeError, exactly for an object that has
      no primitive conversion; a string converts to itself. */
  function Stringify(e: JsValue): (r: Completion<string>)
    ensures r.Abrupt? <==> e == Obj(None)
    ensures r.Abrupt? ==> r.thrown == ErrorObject(NoPrimitiveConversion)
    ensures e.Str? ==> r == Normal(e.s)
    ensures e.Obj? && e.primitive.Some? ==> r == Normal(e.primitive.value)
  {
    match e
    case Undefined => Normal("undefined")
    case Null => Normal("null")
    case Bool(b) => Normal(if b then "true" else "false")
    case Num(n) => Normal(NumberToString(n))
    case Str(s) => Normal(s)
    case ErrorObject(err) => Normal(ErrorToString(err))
    case Obj(None) => Abrupt(ErrorObject(NoPrimitiveConversion))
    case Obj(Some(s)) => Normal(s)
  }
}
