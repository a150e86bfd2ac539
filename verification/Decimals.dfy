/**
 Natural numbers in decimal, printed and recognised.

 Printing is what `str` and f-strings do: no sign, no leading zero. A text is recognised as a count
 exactly when it is printed for some number, and that number is read back from its digits.

 The fingerprint relies on it twice: a printed count holds neither a tab nor a line break, and two
 different counts are printed differently.
 */
module Decimals {

  function Digit(n: nat): char
    requires n < 10
  {
    ['0', '1', '2', '3', '4', '5', '6', '7', '8', '9'][n]
  }

  // A natural number in decimal, as `str` and f-strings print it.
  function Decimal(n: nat): string {
    if n < 10 then [Digit(n)] else Decimal(n / 10) + [Digit(n % 10)]
  }

  lemma {:induction false} DecimalIsPlain(n: nat)
    ensures Decimal(n) != "" && '\t' !in Decimal(n) && '\n' !in Decimal(n)
  {
    if n >= 10 {
      DecimalIsPlain(n / 10);
    }
  }

  lemma DecimalParts(n: nat)
    ensures var d := Decimal(n);
            && |d| > 0 && d[|d| - 1] == Digit(n % 10)
            && (n < 10 <==> |d| == 1)
            && (n >= 10 ==> d[..|d| - 1] == Decimal(n / 10))
  {
    if n >= 10 {
      DecimalIsPlain(n / 10);
    }
  }

  lemma {:induction false} DecimalInjective(m: nat, n: nat)
    requires Decimal(m) == Decimal(n)
    ensures m == n
  {
    DecimalParts(m);
    DecimalParts(n);
    if m >= 10 && n >= 10 {
      DecimalInjective(m / 10, n / 10);
    }
  }

  // What `str` prints for a natural number: digits, without a leading zero.
  predicate IsCount(s: string) {
    s != "" && AllDigits(s) && (|s| > 1 ==> s[0] != '0')
  }

  predicate AllDigits(s: string) {
    forall i :: 0 <= i < |s| ==> '0' <= s[i] <= '9'
  }

  function Value(s: string): nat
    requires AllDigits(s)
  {
    if s == "" then 0 else 10 * Value(s[..|s| - 1]) + (s[|s| - 1] as int - '0' as int)
  }

  lemma {:induction false} DecimalIsCount(n: nat)
    ensures IsCount(Decimal(n)) && (n > 0 ==> Decimal(n)[0] != '0')
  {
    if n >= 10 {
      DecimalIsCount(n / 10);
    }
  }

  lemma DecimalStep(n: nat, c: char)
    requires n > 0 && '0' <= c <= '9'
    ensures Decimal(10 * n + (c as int - '0' as int)) == Decimal(n) + [c]
  {
    var d := c as int - '0' as int;
    assert (10 * n + d) / 10 == n && (10 * n + d) % 10 == d;
    DigitIs(c);
  }

  lemma DigitIs(c: char)
    requires '0' <= c <= '9'
    ensures Digit(c as int - '0' as int) == c
  {}

  lemma ValueLast(init: string, last: char)
    requires AllDigits(init) && '0' <= last <= '9'
    ensures AllDigits(init + [last])
    ensures Value(init + [last]) == 10 * Value(init) + (last as int - '0' as int)
  {
    assert (init + [last])[..|init|] == init;
  }

  lemma CountInit(s: string)
    requires IsCount(s) && |s| > 1
    ensures var init, last := s[..|s| - 1], s[|s| - 1];
            && IsCount(init) && init[0] == s[0] && '0' <= last <= '9' && s == init + [last]
            && Value(s) == 10 * Value(init) + (last as int - '0' as int)
  {
    ValueLast(s[..|s| - 1], s[|s| - 1]);
    assert s == s[..|s| - 1] + [s[|s| - 1]];
  }

  lemma OneDigit(c: char)
    requires '0' <= c <= '9'
    ensures Value([c]) == c as int - '0' as int && Decimal(Value([c])) == [c]
  {
    ValueLast("", c);
    assert "" + [c] == [c];
    DigitIs(c);
  }

  lemma {:induction false} CountIsPositive(s: string)
    requires IsCount(s) && s[0] != '0'
    ensures Value(s) > 0
  {
    if |s| == 1 {
      assert s == [s[0]];
      OneDigit(s[0]);
    } else {
      CountInit(s);
      CountIsPositive(s[..|s| - 1]);
    }
  }

  lemma {:induction false} CountIsDecimal(s: string)
    requires IsCount(s)
    ensures Decimal(Value(s)) == s
  {
    if |s| == 1 {
      assert s == [s[0]];
      OneDigit(s[0]);
    } else {
      CountInit(s);
      CountIsPositive(s[..|s| - 1]);
      CountIsDecimal(s[..|s| - 1]);
      DecimalStep(Value(s[..|s| - 1]), s[|s| - 1]);
    }
  }
}
