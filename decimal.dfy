/**
 * Decimal text of integers, as Java's `String.valueOf(int)` writes it:
 * the digits of the magnitude, most significant first, with a leading
 * '-' for negatives and no leading zeros. A parser is given as its
 * inverse, and the "digit 3 occurs" test is related to plain arithmetic.
 */
module Decimal {
  import opened Wrappers

  predicate IsDigit(c: char) {
    '0' <= c <= '9'
  }

  predicate AllDigits(s: string) {
    forall k :: 0 <= k < |s| ==> IsDigit(s[k])
  }

  function Abs(i: int): nat {
    if i < 0 then -i else i
  }

  function DigitChar(d: nat): (c: char)
    requires d < 10
    ensures IsDigit(c)
  {
    ('0' as int + d) as char
  }

  function DigitValue(c: char): (d: nat)
    requires IsDigit(c)
    ensures d < 10 && DigitChar(d) == c
  {
    c as int - '0' as int
  }

  /** Decimal digits of a natural number, without leading zeros. */
  function NatToString(n: nat): string
    decreases n
  {
    if n < 10 then [DigitChar(n)] else NatToString(n / 10) + [DigitChar(n % 10)]
  }

  /** `String.valueOf(int)`: a '-' before the digits of a negative number. */
  function IntToString(i: int): string {
    if i < 0 then "-" + NatToString(-i) else NatToString(i)
  }

  /** At least one digit, and no leading zero unless the number is 0. */
  lemma {:induction false} NatToStringShape(n: nat)
    ensures |NatToString(n)| >= 1 && AllDigits(NatToString(n))
    ensures NatToString(n)[0] == '0' ==> n == 0
    decreases n
  {
    if n >= 10 {
      NatToStringShape(n / 10);
      var s := NatToString(n);
      assert s == NatToString(n / 10) + [DigitChar(n % 10)];
      assert s[0] == NatToString(n / 10)[0];
    }
  }

  /**
   * The text is `-?[0-9]+`, starts with '-' exactly for negatives, holds
   * no space, and has no leading zero unless the number is 0.
   */
  lemma IntToStringShape(i: int)
    ensures |IntToString(i)| >= 1
    ensures IntToString(i)[0] == '-' <==> i < 0
    ensures ' ' !in IntToString(i)
    ensures IsSignedDigits(IntToString(i))
    ensures i >= 0 && IntToString(i)[0] == '0' ==> i == 0
    ensures i < 0 ==> |IntToString(i)| >= 2 && IntToString(i)[1] != '0'
  {
    var s := IntToString(i);
    NatToStringShape(Abs(i));
    if i < 0 {
      assert s[1..] == NatToString(-i);
      assert s[1] == NatToString(-i)[0];
    }
    forall k | 0 <= k < |s|
      ensures s[k] != ' '
    {
      if i < 0 && k > 0 {
        assert s[k] == NatToString(Abs(i))[k - 1];
      }
    }
  }

  /** Text of the form `-?[0-9]+`. */
  predicate IsSignedDigits(s: string) {
    if |s| >= 1 && s[0] == '-' then |s| >= 2 && AllDigits(s[1..]) else |s| >= 1 && AllDigits(s)
  }

  /** Value of a run of decimal digits (leading zeros allowed). */
  function DigitsValue(s: string): nat
    requires AllDigits(s)
    decreases |s|
  {
    if s == [] then 0 else DigitsValue(s[..|s| - 1]) * 10 + DigitValue(s[|s| - 1])
  }

  /** Reads back text of the form `-?[0-9]+`; anything else is None. */
  function ParseInt(s: string): (r: Option<int>)
    ensures r.Some? <==> IsSignedDigits(s)
  {
    if |s| >= 2 && s[0] == '-' && AllDigits(s[1..]) then Option<int>.Some(-(DigitsValue(s[1..]) as int))
    else if |s| >= 1 && s[0] != '-' && AllDigits(s) then Some(DigitsValue(s))
    else None
  }

  lemma {:induction false} NatRoundTrip(n: nat)
    ensures AllDigits(NatToString(n)) && DigitsValue(NatToString(n)) == n
    decreases n
  {
    NatToStringShape(n);
    var s := NatToString(n);
    if n >= 10 {
      NatRoundTrip(n / 10);
      assert s[..|s| - 1] == NatToString(n / 10);
    }
  }

  /** Parsing the text `String.valueOf` writes gives the number back. */
  lemma IntRoundTrip(i: int)
    ensures ParseInt(IntToString(i)) == Some(i)
  {
    var s := IntToString(i);
    IntToStringShape(i);
    if i < 0 {
      assert s[1..] == NatToString(-i);
      NatRoundTrip(-i);
    } else {
      NatRoundTrip(i);
    }
  }

  /** Two numbers with the same decimal text are equal. */
  lemma IntToStringInjective(i: int, j: int)
    requires IntToString(i) == IntToString(j)
    ensures i == j
  {
    IntRoundTrip(i);
    IntRoundTrip(j);
  }

  /** Decimal digit `d` occurs in the base-10 expansion of `n`. */
  predicate HasDigit(n: nat, d: nat)
    decreases n
  {
    n % 10 == d || (n >= 10 && HasDigit(n / 10, d))
  }

  lemma {:induction false} DigitInNatText(n: nat, d: nat)
    requires d < 10
    ensures DigitChar(d) in NatToString(n) <==> HasDigit(n, d)
    decreases n
  {
    if n >= 10 {
      DigitInNatText(n / 10, d);
      assert NatToString(n) == NatToString(n / 10) + [DigitChar(n % 10)];
      assert DigitChar(n % 10) == DigitChar(d) <==> n % 10 == d;
    }
  }

  /** The character '3' occurs in `String.valueOf(i)` exactly when 3 is a digit of |i|. */
  lemma {:induction false} ThreeInText(i: int)
    ensures '3' in IntToString(i) <==> HasDigit(Abs(i), 3)
  {
    DigitInNatText(Abs(i), 3);
    assert DigitChar(3) == '3';
    if i < 0 {
      assert IntToString(i) == "-" + NatToString(Abs(i));
    }
  }

}
