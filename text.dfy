/** Decimal rendering of integers, as Swift's string interpolation `"\(n)"`
    writes an `Int`, its inverse, and the "prefix: description" error texts. */
module Text {
  import opened Wrappers

  predicate IsDigit(c: char) {
    '0' <= c <= '9'
  }

  function DigitChar(d: nat): (c: char)
    requires d < 10
    ensures IsDigit(c)
  {
    (48 + d) as char
  }

  function DigitValue(c: char): (d: nat)
    requires IsDigit(c)
    ensures d < 10
  {
    (c as int - 48) as nat
  }

  predicate AllDigits(s: string) {
    forall i :: 0 <= i < |s| ==> IsDigit(s[i])
  }

  /** The decimal digits of `n`, most significant first, without leading zeros. */
  function NatToString(n: nat): (s: string)
    ensures |s| > 0 && AllDigits(s)
    ensures n < 10 ==> |s| == 1
    ensures s[0] == '0' ==> n == 0
    decreases n
  {
    if n < 10 then [DigitChar(n)] else NatToString(n / 10) + [DigitChar(n % 10)]
  }

  /** `"\(n)"` for a Swift `Int`: a minus sign before the digits of a negative value. */
  function IntToString(n: int): (s: string)
    ensures |s| > 0
  {
    if n < 0 then "-" + NatToString(-n) else NatToString(n)
  }

  /** The value of a string of decimal digits. */
  function DigitsValue(s: string): nat
    requires AllDigits(s)
    decreases |s|
  {
    if s == [] then 0 else DigitsValue(s[..|s| - 1]) * 10 + DigitValue(s[|s| - 1])
  }

  function ParseNat(s: string): Option<nat> {
    if s != [] && AllDigits(s) then Some(DigitsValue(s)) else None
  }

  /** Reads back what `IntToString` writes. */
  function ParseInt(s: string): Option<int> {
    if s != [] && s[0] == '-' then
      match ParseNat(s[1..])
      case Some(k) => Some(-(k as int))
      case None => None
    else
      match ParseNat(s)
      case Some(k) => Some(k as int)
      case None => None
  }

  lemma {:induction false} NatToStringRoundTrip(n: nat)
    ensures DigitsValue(NatToString(n)) == n
    decreases n
  {
    var s := NatToString(n);
    if n >= 10 {
      var prefix := NatToString(n / 10);
      assert s == prefix + [DigitChar(n % 10)];
      assert s[..|s| - 1] == prefix;
      NatToStringRoundTrip(n / 10);
    }
  }

  /** Parsing the rendering of any integer gives that integer back. */
  lemma IntToStringRoundTrip(n: int)
    ensures ParseInt(IntToString(n)) == Some(n)
  {
    if n < 0 {
      var digits := NatToString(-n);
      assert IntToString(n)[1..] == digits;
      NatToStringRoundTrip(-n);
    } else {
      NatToStringRoundTrip(n);
    }
  }

  /** Different integers are rendered differently. */
  lemma IntToStringInjective(m: int, n: int)
    requires IntToString(m) == IntToString(n)
    ensures m == n
  {
    IntToStringRoundTrip(m);
    IntToStringRoundTrip(n);
  }

  /** `"\(prefix): \(description)"`, the shape of every error text the view-models show. */
  function ErrorMessage(prefix: string, description: string): (m: string)
    ensures prefix <= m
    ensures |m| == |prefix| + 2 + |description|
  {
    prefix + ": " + description
  }

  /** The description an error text carries after `prefix`, if it has that prefix. */
  function DescriptionOf(prefix: string, message: string): Option<string> {
    if |message| >= |prefix| + 2 && message[..|prefix| + 2] == prefix + ": "
    then Some(message[|prefix| + 2..])
    else None
  }

  lemma ErrorMessageRoundTrip(prefix: string, description: string)
    ensures DescriptionOf(prefix, ErrorMessage(prefix, description)) == Some(description)
  {
    var m := ErrorMessage(prefix, description);
    assert m[..|prefix| + 2] == prefix + ": ";
    assert m[|prefix| + 2..] == description;
  }
}
