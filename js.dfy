/** JavaScript notions the two services rely on: optional properties, rejected
    promises, truthiness of string values, and the decimal rendering of a
    number inside a template literal. */
module Js {

  /** A property that may be absent (`undefined`). */
  datatype Option<+T> = None | Some(value: T)

  /** A settled promise: fulfilled with a value, or rejected with an Error of
      which only the `message` is observable to the callers in this system. */
  datatype Result<+T> = Ok(value: T) | Err(message: string)

  /** Truthiness of a string-valued property: `undefined` and `""` are falsy. */
  predicate Truthy(v: Option<string>) {
    v.Some? && v.value != ""
  }

  /** `v || fallback` for a string-valued property. */
  function OrElse(v: Option<string>, fallback: string): string {
    if Truthy(v) then v.value else fallback
  }

  /** How a template literal `${v}` renders a string-valued property. */
  function Template(v: Option<string>): string {
    if v.Some? then v.value else "undefined"
  }

  predicate IsDigits(s: string) {
    forall i :: 0 <= i < |s| ==> '0' <= s[i] <= '9'
  }

  function DigitChar(d: nat): (c: char)
    requires d < 10
    ensures '0' <= c <= '9'
  {
    ('0' as int + d) as char
  }

  function DigitValue(c: char): (d: nat)
    requires '0' <= c <= '9'
    ensures d < 10
  {
    c as int - '0' as int
  }

  /** The decimal rendering of a non-negative integer, as `${n}` produces it. */
  function Decimal(n: nat): (s: string)
    ensures |s| >= 1 && IsDigits(s)
    ensures n < 10 <==> |s| == 1
    decreases n
  {
    if n < 10 then [DigitChar(n)] else Decimal(n / 10) + [DigitChar(n % 10)]
  }

  /** Reads a string of decimal digits back as a number. */
  function ParseDecimal(s: string): nat
    requires IsDigits(s)
  {
    if s == [] then 0 else ParseDecimal(s[..|s| - 1]) * 10 + DigitValue(s[|s| - 1])
  }

  /** The rendering loses nothing: the number can be read back from it. */
  lemma {:induction false} ParseDecimalOfDecimal(n: nat)
    ensures ParseDecimal(Decimal(n)) == n
    decreases n
  {
    var s := Decimal(n);
    if n >= 10 {
      assert s[..|s| - 1] == Decimal(n / 10);
      ParseDecimalOfDecimal(n / 10);
    }
  }
}
