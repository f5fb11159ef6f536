/**
 * Decimal rendering of integers, as `strconv.Itoa` and `fmt.Sprintf("%.0f", x)`
 * print them, with the parser that undoes it.
 */
module Decimal {
  import opened Wrappers
  import opened Json

  predicate IsDigit(c: char) {
    '0' <= c <= '9'
  }

  predicate AllDigits(s: string) {
    forall i :: 0 <= i < |s| ==> IsDigit(s[i])
  }

  function DigitChar(d: nat): (c: char)
    requires d < 10
    ensures IsDigit(c) && c as int - '0' as int == d
  {
    (d + '0' as int) as char
  }

  /**
   * The canonical spelling of an integer, as `strconv.Itoa` and `%.0f` write it:
   * digits with no leading zero (a lone "0" aside), or '-' followed by such
   * digits that do not start with '0' (so there is no "-0").
   */
  predicate Canonical(s: string) {
    || (|s| >= 1 && AllDigits(s) && (s[0] == '0' ==> s == "0"))
    || (|s| >= 2 && s[0] == '-' && AllDigits(s[1..]) && s[1] != '0')
  }

  /** The shortest base-10 spelling of `n`: at least one digit, no leading zero. */
  function NatToDecimal(n: nat): (s: string)
    ensures |s| >= 1 && AllDigits(s)
    ensures s[0] == '0' ==> s == "0"
    ensures s[0] == '0' <==> n == 0
    decreases n
  {
    if n < 10 then [DigitChar(n)] else NatToDecimal(n / 10) + [DigitChar(n % 10)]
  }

  /** `strconv.Itoa(i)`: a leading '-' for negative numbers, then the digits. */
  function IntToDecimal(i: int): (s: string)
    ensures |s| >= 1 && Canonical(s)
    ensures i >= 0 ==> AllDigits(s)
    ensures i < 0 ==> |s| >= 2 && s[0] == '-' && AllDigits(s[1..]) && s[1] != '0'
  {
    if i < 0 then "-" + NatToDecimal(-i) else NatToDecimal(i)
  }

  /** The value of a string of digits (the empty string reads as 0). */
  function DigitsValue(s: string): nat
    requires AllDigits(s)
  {
    if s == [] then 0 else DigitsValue(s[..|s| - 1]) * 10 + (s[|s| - 1] as int - '0' as int)
  }

  /** Reads back a decimal integer: an optional '-' and at least one digit. */
  function ParseInt(s: string): Option<int> {
    if |s| >= 2 && s[0] == '-' && AllDigits(s[1..]) then Some(-(DigitsValue(s[1..]) as int))
    else if |s| >= 1 && AllDigits(s) then Some(DigitsValue(s))
    else None
  }

  lemma {:induction false} NatToDecimalRoundTrip(n: nat)
    ensures DigitsValue(NatToDecimal(n)) == n
    decreases n
  {
    if n >= 10 {
      var s := NatToDecimal(n);
      NatToDecimalRoundTrip(n / 10);
      assert s[..|s| - 1] == NatToDecimal(n / 10);
    }
  }

  /** Printing an integer and reading it back gives the integer: nothing is lost. */
  lemma IntToDecimalRoundTrip(i: int)
    ensures ParseInt(IntToDecimal(i)) == Some(i)
  {
    if i < 0 {
      NatToDecimalRoundTrip(-i);
      assert IntToDecimal(i)[1..] == NatToDecimal(-i);
    } else {
      NatToDecimalRoundTrip(i);
      assert NatToDecimal(i)[0] != '-';
    }
  }

  /** Two different integers never print the same. */
  lemma IntToDecimalInjective(i: int, j: int)
    requires IntToDecimal(i) == IntToDecimal(j)
    ensures i == j
  {
    IntToDecimalRoundTrip(i);
    IntToDecimalRoundTrip(j);
  }

  /** Canonical digits are the spelling of their own value: no other text has that shape. */
  lemma {:induction false} CanonicalDigits(s: string)
    requires |s| >= 1 && AllDigits(s) && (s[0] == '0' ==> s == "0")
    ensures s == NatToDecimal(DigitsValue(s))
    decreases |s|
  {
    if |s| >= 2 {
      var front := s[..|s| - 1];
      assert front[0] == s[0];
      CanonicalDigits(front);
      var v := DigitsValue(front);
      assert v != 0;
      var d := s[|s| - 1] as int - '0' as int;
      assert DigitsValue(s) == v * 10 + d;
      assert DigitsValue(s) / 10 == v && DigitsValue(s) % 10 == d;
      assert s == front + [DigitChar(d)];
    } else {
      var d := s[0] as int - '0' as int;
      assert s == [DigitChar(d)];
    }
  }

  /**
   * The canonical spelling is unique: any canonical text is `strconv.Itoa` of the
   * integer it reads as, so a value and the canonical shape fix the text.
   */
  lemma CanonicalIsItoa(s: string)
    requires Canonical(s)
    ensures ParseInt(s).Some? && s == IntToDecimal(ParseInt(s).value)
  {
    if |s| >= 2 && s[0] == '-' && AllDigits(s[1..]) && s[1] != '0' {
      var t := s[1..];
      CanonicalDigits(t);
      var v := DigitsValue(t);
      assert v != 0;
      assert s == "-" + t;
    } else {
      CanonicalDigits(s);
    }
  }

  /**
   * `fmt.Sprintf("%.0f", x)`: an integral float prints as its integer; any other
   * float prints as the integer it rounds to. The text is canonical (no leading
   * zero, never a decimal point) and reads back as exactly that integer, which by
   * `CanonicalIsItoa` makes it the one spelling of that integer.
   */
  function FormatFixed0(n: Number): (s: string)
    ensures |s| >= 1 && '.' !in s && Canonical(s)
    ensures n.Integral? ==> ParseInt(s) == Some(n.value)
    ensures n.NonIntegral? ==> ParseInt(s) == Some(n.nearest)
  {
    match n
    case Integral(v) =>
      IntToDecimalRoundTrip(v);
      IntToDecimal(v)
    case NonIntegral(nearest, _) =>
      IntToDecimalRoundTrip(nearest);
      IntToDecimal(nearest)
  }
}
