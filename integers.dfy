/** Python's `int(text)` on a decimal string, as used for `PreviewPoint`,
    `BeatmapID`, `BeatmapsetID` and the leading type code of an event line.
    Accepted text: an optional `+` or `-` followed by one or more ASCII digits.
    `IntToString` (Python's `str(n)`) is its reference partner. */
module Integers {
  import opened Wrappers

  predicate IsDigit(ch: char) {
    '0' <= ch <= '9'
  }

  predicate IsSign(ch: char) {
    ch == '+' || ch == '-'
  }

  predicate AllDigits(s: string) {
    forall i :: 0 <= i < |s| ==> IsDigit(s[i])
  }

  /** The text `int` accepts: a sign is optional, at least one digit is not. */
  predicate IsIntegerText(s: string) {
    if |s| > 0 && IsSign(s[0]) then |s| > 1 && AllDigits(s[1..])
    else |s| > 0 && AllDigits(s)
  }

  function DigitValue(ch: char): (d: nat)
    requires IsDigit(ch)
    ensures d < 10
  {
    (ch as int - '0' as int) as nat
  }

  function DigitChar(d: nat): (ch: char)
    requires d < 10
    ensures IsDigit(ch) && DigitValue(ch) == d
  {
    ('0' as int + d) as char
  }

  /** The value of a non-empty run of decimal digits, most significant first. */
  function ParseDigits(s: string): (r: Option<nat>)
    ensures r.Some? <==> |s| > 0 && AllDigits(s)
    decreases |s|
  {
    if |s| == 0 || !IsDigit(s[|s| - 1]) then None
    else if |s| == 1 then Some(DigitValue(s[0]))
    else
      match ParseDigits(s[..|s| - 1])
      case None => None
      case Some(v) => Some(10 * v + DigitValue(s[|s| - 1]))
  }

  function Pow10(n: nat): (p: nat)
    ensures p >= 1
  {
    if n == 0 then 1 else 10 * Pow10(n - 1)
  }

  /** The value of a run of decimal digits read from the front: the leading
      digit weighs `10^(|s| - 1)`, so leading zeros add nothing. */
  function DecimalValue(s: string): nat
    requires AllDigits(s)
    decreases |s|
  {
    if s == [] then 0 else DigitValue(s[0]) * Pow10(|s| - 1) + DecimalValue(s[1..])
  }

  /** `int(s)`: `None` stands for the `ValueError` Python raises. */
  function ParseInt(s: string): (r: Option<int>)
    ensures r.Some? <==> IsIntegerText(s)
    ensures r.Some? && s[0] == '-' ==> r.value <= 0
    ensures r.Some? && s[0] != '-' ==> r.value >= 0
  {
    if |s| > 0 && IsSign(s[0]) then
      match ParseDigits(s[1..])
      case None => None
      case Some(v) => Some(if s[0] == '-' then -(v as int) else v)
    else
      match ParseDigits(s)
      case None => None
      case Some(v) => Some(v as int)
  }

  /** Python's `str(n)` for a natural number: decimal, no leading zeros. */
  function NatToString(n: nat): (s: string)
    ensures |s| > 0 && AllDigits(s)
    decreases n
  {
    if n < 10 then [DigitChar(n)] else NatToString(n / 10) + [DigitChar(n % 10)]
  }

  /** Python's `str(n)` for any integer. */
  function IntToString(n: int): string {
    if n < 0 then "-" + NatToString(-n) else NatToString(n)
  }

  lemma {:induction false} ParseDigitsInvertsNatToString(n: nat)
    ensures ParseDigits(NatToString(n)) == Some(n)
    decreases n
  {
    if n >= 10 {
      var s := NatToString(n);
      ParseDigitsInvertsNatToString(n / 10);
      assert s[..|s| - 1] == NatToString(n / 10);
    }
  }

  /** Every integer written in decimal reads back as itself. */
  lemma ParseIntInvertsIntToString(n: int)
    ensures ParseInt(IntToString(n)) == Some(n)
  {
    if n < 0 {
      ParseDigitsInvertsNatToString(-n);
      assert IntToString(n)[1..] == NatToString(-n);
    } else {
      ParseDigitsInvertsNatToString(n);
    }
  }

  /** Appending a digit shifts the value one place left. */
  lemma {:induction false} DecimalValueAppend(s: string, ch: char)
    requires AllDigits(s) && IsDigit(ch)
    ensures AllDigits(s + [ch])
    ensures DecimalValue(s + [ch]) == 10 * DecimalValue(s) + DigitValue(ch)
    decreases |s|
  {
    var t := s + [ch];
    assert AllDigits(t) by {
      forall i | 0 <= i < |t| ensures IsDigit(t[i]) {
        if i < |s| { assert t[i] == s[i]; }
      }
    }
    if s != [] {
      assert t[1..] == s[1..] + [ch];
      DecimalValueAppend(s[1..], ch);
      var d, p := DigitValue(s[0]), Pow10(|s| - 1);
      calc {
        DecimalValue(t);
        d * (10 * p) + DecimalValue(s[1..] + [ch]);
        d * (10 * p) + 10 * DecimalValue(s[1..]) + DigitValue(ch);
        { assert d * (10 * p) == 10 * (d * p); }
        10 * (d * p + DecimalValue(s[1..])) + DigitValue(ch);
      }
    }
  }

  /** A leading zero does not change the value: `int("0500") == int("500")`. */
  lemma LeadingZeroIgnored(t: string)
    requires AllDigits(t)
    ensures AllDigits("0" + t)
    ensures DecimalValue("0" + t) == DecimalValue(t)
  {
    assert ("0" + t)[1..] == t;
  }

  /** `int` reads a digit run as its decimal value, whatever leading zeros it has. */
  lemma {:induction false} ParseDigitsIsDecimalValue(s: string)
    requires |s| > 0 && AllDigits(s)
    ensures ParseDigits(s) == Some(DecimalValue(s))
    decreases |s|
  {
    if |s| > 1 {
      var init, last := s[..|s| - 1], s[|s| - 1];
      assert s == init + [last];
      ParseDigitsIsDecimalValue(init);
      DecimalValueAppend(init, last);
    }
  }

  /** The value `int(s)` returns: the decimal value of the digits, negated
      after a `-`, unchanged after a `+` or with no sign. */
  lemma ParseIntValue(s: string)
    requires IsIntegerText(s)
    ensures s[0] == '-' ==> ParseInt(s) == Some(-(DecimalValue(s[1..]) as int))
    ensures s[0] == '+' ==> ParseInt(s) == Some(DecimalValue(s[1..]) as int)
    ensures !IsSign(s[0]) ==> ParseInt(s) == Some(DecimalValue(s) as int)
  {
    if IsSign(s[0]) {
      var digits := s[1..];
      ParseDigitsIsDecimalValue(digits);
      if s[0] == '-' {
        assert ParseInt(s) == Some(-(DecimalValue(digits) as int));
      } else {
        assert ParseInt(s) == Some(DecimalValue(digits) as int);
      }
    } else {
      ParseDigitsIsDecimalValue(s);
    }
  }
}
