/** JavaScript value semantics that the controller's decisions depend on:
    null/undefined identifiers, truthiness, `||` defaults, and the decimal
    rendering that template literals apply to integers. */
module JsValues {

  datatype Option<+T> = None | Some(value: T)

  /** A player identifier as the client holds it. `playerId` starts as `null`;
      a server reply without `player_id` yields `undefined`. Strict equality
      `===` on these values is Dafny's `==`: `null === null` and
      `undefined === undefined` hold, `undefined === null` does not. */
  datatype Id = Undefined | Null | Num(n: int)

  /** `if (x)` on an identifier: only a non-zero number is truthy. */
  predicate Truthy(x: Id) {
    x.Num? && x.n != 0
  }

  /** `x || 0` on an identifier. */
  function OrZero(x: Id): (r: int)
    ensures Truthy(x) ==> r == x.n
    ensures !Truthy(x) ==> r == 0
  {
    if Truthy(x) then x.n else 0
  }

  /** `Math.min(a, b)` on integers. */
  function Min(a: int, b: int): (r: int) {
    if a <= b then a else b
  }

  /** `if (token)`: a missing token and the empty string are falsy. */
  predicate TokenTruthy(t: Option<string>) {
    t.Some? && t.value != ""
  }

  predicate IsDigit(c: char) {
    '0' <= c <= '9'
  }

  predicate IsDigits(s: string) {
    forall i :: 0 <= i < |s| ==> IsDigit(s[i])
  }

  function DigitChar(d: nat): (c: char)
    requires d < 10
  {
    ('0' as int + d) as char
  }

  /** Decimal text of a natural number, as `${n}` renders it. */
  function NatText(n: nat): (r: string) {
    if n < 10 then [DigitChar(n)] else NatText(n / 10) + [DigitChar(n % 10)]
  }

  /** Decimal text of an integer, with a leading '-' for negatives. */
  function IntText(i: int): (r: string) {
    if i < 0 then "-" + NatText(-i) else NatText(i)
  }

  /** The text of a natural number is a non-empty run of digits, with a
      leading zero only for zero itself. */
  lemma {:induction false} NatTextDigits(n: nat)
    ensures var s := NatText(n);
      |s| >= 1 && IsDigits(s) && ((s[0] == '0') <==> n == 0)
  {
    if n >= 10 {
      NatTextDigits(n / 10);
      var s := NatText(n);
      assert s[0] == NatText(n / 10)[0];
    }
  }

  /** The text of an integer ends in a digit. */
  lemma IntTextEndsInDigit(i: int)
    ensures |IntText(i)| >= 1 && IsDigit(IntText(i)[|IntText(i)| - 1])
  {
    NatTextDigits(if i < 0 then -i else i);
  }

  /** `${x}` on an identifier. */
  function IdText(x: Id): (r: string) {
    match x
    case Undefined => "undefined"
    case Null => "null"
    case Num(n) => IntText(n)
  }

  /** The value of a string of decimal digits; the reading side of NatText. */
  function DigitsValue(s: string): nat
    requires IsDigits(s)
  {
    if s == [] then 0 else DigitsValue(s[..|s| - 1]) * 10 + (s[|s| - 1] as int - '0' as int)
  }

  /** Reads back what IntText writes. */
  function ParseInt(s: string): (r: Option<int>) {
    if |s| >= 2 && s[0] == '-' && IsDigits(s[1..]) then Some(-(DigitsValue(s[1..]) as int))
    else if |s| >= 1 && IsDigits(s) then Some(DigitsValue(s))
    else None
  }

  lemma {:induction false} NatTextRoundTrip(n: nat)
    ensures IsDigits(NatText(n)) && DigitsValue(NatText(n)) == n
  {
    NatTextDigits(n);
    if n >= 10 {
      var s := NatText(n);
      assert s[..|s| - 1] == NatText(n / 10);
      NatTextRoundTrip(n / 10);
    }
  }

  lemma IntTextRoundTrip(i: int)
    ensures ParseInt(IntText(i)) == Some(i)
  {
    var s := IntText(i);
    if i < 0 {
      assert s[1..] == NatText(-i);
      NatTextRoundTrip(-i);
    } else {
      NatTextRoundTrip(i);
    }
  }

  /** Distinct integers render to distinct texts. */
  lemma IntTextInjective(a: int, b: int)
    requires IntText(a) == IntText(b)
    ensures a == b
  {
    IntTextRoundTrip(a);
    IntTextRoundTrip(b);
  }
}
