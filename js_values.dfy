/** JavaScript values as the chart settings object holds them, and the
    string conversion JavaScript applies when a value is concatenated to a
    string or passed where a string is expected. */
module JsValues {

  datatype Option<+T> = None | Some(value: T)

  /** A JavaScript value. Numbers are integers or NaN, which are the numbers
      parseInt and the chart ids give; a data attribute such as
      `data-rotated="1.5"` or `"Infinity"`, which `.data()` turns into a
      non-integer number, has no counterpart here. Arrays and plain
      objects hold values. */
  datatype Value =
    | Undefined
    | Null
    | Bool(b: bool)
    | Int(i: int)
    | NaN
    | Str(s: string)
    | List(items: seq<Value>)
    | Obj(fields: map<string, Value>)

  /** Reading a property: a missing key reads as `undefined`. */
  function Get(m: map<string, Value>, key: string): Value {
    if key in m then m[key] else Undefined
  }

  predicate IsDigit(ch: char) {
    '0' <= ch <= '9'
  }

  predicate AllDigits(s: string) {
    forall k :: 0 <= k < |s| ==> IsDigit(s[k])
  }

  function DigitChar(d: nat): (ch: char)
    requires d < 10
    ensures IsDigit(ch) && ch as int - '0' as int == d
  {
    (('0' as int) + d) as char
  }

  /** The decimal digits of a natural number, without leading zeros. */
  function NatDecimal(n: nat): string
    decreases n
  {
    if n < 10 then [DigitChar(n)] else NatDecimal(n / 10) + [DigitChar(n % 10)]
  }

  /** Number.prototype.toString for an integer below 10^21 in magnitude;
      from 10^21 on JavaScript writes the exponent form ("1e+21"), which
      this function does not. */
  function DecimalString(n: int): string {
    if n < 0 then "-" + NatDecimal(-n) else NatDecimal(n)
  }

  /** A natural number is written as a non-empty string of digits. */
  lemma {:induction false} NatDecimalDigits(n: nat)
    ensures |NatDecimal(n)| > 0 && AllDigits(NatDecimal(n))
    decreases n
  {
    if n >= 10 {
      NatDecimalDigits(n / 10);
    }
  }

  /** An integer is written as a minus sign followed by the digits of its
      magnitude, or as those digits alone. */
  lemma DecimalStringShape(n: int)
    ensures n < 0 ==> DecimalString(n) == "-" + NatDecimal(-n)
    ensures n >= 0 ==> DecimalString(n) == NatDecimal(n)
    ensures |DecimalString(n)| > 0 && (DecimalString(n)[0] == '-' || IsDigit(DecimalString(n)[0]))
  {
    NatDecimalDigits(if n < 0 then -n else n);
  }

  /** String(v): the conversion used by `'prefix' + v` and by the
      replacement argument of String.prototype.replace. */
  function JsString(v: Value): string
    decreases v, 1
  {
    match v
    case Undefined => "undefined"
    case Null => "null"
    case Bool(b) => if b then "true" else "false"
    case Int(i) => DecimalString(i)
    case NaN => "NaN"
    case Str(s) => s
    case List(items) => JoinArray(items)
    case Obj(_) => "[object Object]"
  }

  /** Array.prototype.toString: the elements joined by commas, with
      `null` and `undefined` elements written as empty strings. */
  function JoinArray(items: seq<Value>): string
    decreases items, 0
  {
    if items == [] then ""
    else
      var first := if items[0] == Undefined || items[0] == Null then "" else JsString(items[0]);
      if |items| == 1 then first else first + "," + JoinArray(items[1..])
  }
}
