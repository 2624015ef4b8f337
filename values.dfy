/** Dynamically typed values as they occur in the keyword arguments of the
    metrics API and in structured log events, and their `%s` rendering. */
module Values {

  datatype Option<T> = None | Some(value: T)

  /** The outcome of an operation that may raise: its value, or the error. */
  datatype Result<T> = Ok(value: T) | Err(message: string)

  /** A value of a keyword argument or of an event-dict entry.
      `Nil` stands for Python's `None`. */
  datatype Value = Str(s: string) | Int(i: int) | Real(r: real) | Bool(b: bool) | Nil

  /** `isinstance(v, (numbers.Number, bool))` */
  predicate IsNumber(v: Value) {
    v.Int? || v.Real? || v.Bool?
  }

  /** The number a numeric value takes part in arithmetic as (`True` is 1). */
  function NumOf(v: Value): real
    requires IsNumber(v)
  {
    match v
    case Int(i) => i as real
    case Real(r) => r
    case Bool(b) => if b then 1.0 else 0.0
  }

  /** Python truthiness, as used by `if event.get(...)`. */
  predicate Truthy(v: Value) {
    match v
    case Str(s) => |s| > 0
    case Int(i) => i != 0
    case Real(r) => r != 0.0
    case Bool(b) => b
    case Nil => false
  }

  /** The decimal digits of a character, as a number. */
  function DigitValue(c: char): nat
    requires '0' <= c <= '9'
  {
    c as nat - '0' as nat
  }

  predicate AllDigits(s: string) {
    forall i :: 0 <= i < |s| ==> '0' <= s[i] <= '9'
  }

  /** The number a string of decimal digits denotes. */
  function DigitsValue(s: string): nat
    requires AllDigits(s)
  {
    if |s| == 0 then 0 else DigitsValue(s[..|s| - 1]) * 10 + DigitValue(s[|s| - 1])
  }

  /** `'%s' % n` for a non-negative integer: decimal digits, no leading zero. */
  function NatText(n: nat): (r: string)
    ensures |r| > 0 && AllDigits(r)
    ensures |r| > 1 ==> r[0] != '0'
    ensures DigitsValue(r) == n
  {
    var d := [('0' as nat + n % 10) as char];
    if n < 10 then d
    else
      var p := NatText(n / 10);
      assert (p + d)[..|p + d| - 1] == p;
      p + d
  }

  /** `'%s' % i` for an integer. */
  function IntText(i: int): (r: string)
    ensures |r| > 0
    ensures i >= 0 ==> AllDigits(r) && DigitsValue(r) == i
    ensures i >= 0 && |r| > 1 ==> r[0] != '0'
    ensures i < 0 ==> r[0] == '-' && AllDigits(r[1..]) && DigitsValue(r[1..]) == -i
    ensures i < 0 && |r| > 2 ==> r[1] != '0'
  {
    if i >= 0 then NatText(i) else "-" + NatText(-i)
  }

  /** Distinct integers render as distinct texts, so a rendered counter or
      timestamp identifies its value. */
  lemma IntTextInjective(i: int, j: int)
    requires IntText(i) == IntText(j)
    ensures i == j
  {
    if i < 0 && j < 0 {
      assert IntText(i)[1..] == IntText(j)[1..];
    }
  }

  /** `'%s' % v`. Floats are rendered by `realText`, standing for Python's
      float formatting, which this model does not reproduce. */
  function Render(v: Value, realText: real -> string): string {
    match v
    case Str(s) => s
    case Int(i) => IntText(i)
    case Real(r) => realText(r)
    case Bool(b) => if b then "True" else "False"
    case Nil => "None"
  }
}
