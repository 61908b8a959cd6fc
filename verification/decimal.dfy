/** Decimal digits and the decimal spelling of natural numbers, as produced by
    Python's integer and fixed-point formatting. */
module Decimal {

  predicate IsDigit(c: char) {
    '0' <= c <= '9'
  }

  function DigitValue(c: char): (n: nat)
    requires IsDigit(c)
    ensures n < 10
  {
    c as int - '0' as int
  }

  function DigitChar(n: nat): (c: char)
    requires n < 10
    ensures IsDigit(c) && DigitValue(c) == n
  {
    ('0' as int + n) as char
  }

  lemma DigitCharOfValue(c: char)
    requires IsDigit(c)
    ensures DigitChar(DigitValue(c)) == c
  {
  }

  predicate AllDigits(s: string) {
    forall i :: 0 <= i < |s| ==> IsDigit(s[i])
  }

  /** The number a string of decimal digits denotes, most significant first. */
  function Value(s: string): nat
    requires AllDigits(s)
  {
    if s == [] then 0 else 10 * Value(s[..|s| - 1]) + DigitValue(s[|s| - 1])
  }

  /** The shortest decimal spelling of `n`, as Python's str(n). */
  function NatToString(n: nat): (r: string)
    ensures |r| >= 1 && AllDigits(r)
    ensures |r| > 1 ==> r[0] != '0'
  {
    if n < 10 then [DigitChar(n)] else NatToString(n / 10) + [DigitChar(n % 10)]
  }

  lemma {:induction false} ValueOfNatToString(n: nat)
    ensures Value(NatToString(n)) == n
  {
    if n >= 10 {
      var r := NatToString(n);
      assert r[..|r| - 1] == NatToString(n / 10);
      ValueOfNatToString(n / 10);
    }
  }

  /** `n` written with exactly two digits, zero-padded on the left (`%02d`). */
  function Pad2(n: nat): (r: string)
    requires n < 100
    ensures |r| == 2 && AllDigits(r)
  {
    [DigitChar(n / 10), DigitChar(n % 10)]
  }

  /** `n` written with exactly four digits, zero-padded on the left (`%04d`). */
  function Pad4(n: nat): (r: string)
    requires n < 10000
    ensures |r| == 4 && AllDigits(r)
  {
    [DigitChar(n / 1000), DigitChar(n / 100 % 10), DigitChar(n / 10 % 10), DigitChar(n % 10)]
  }

  /** The value of the two digits s[i], s[i+1]. */
  function TwoDigits(s: string, i: nat): (n: nat)
    requires i + 2 <= |s| && IsDigit(s[i]) && IsDigit(s[i + 1])
    ensures n < 100
  {
    10 * DigitValue(s[i]) + DigitValue(s[i + 1])
  }

  /** The value of the four digits s[i..i+4]. */
  function FourDigits(s: string, i: nat): (n: nat)
    requires i + 4 <= |s| && AllDigits(s[i..i + 4])
    ensures n < 10000
  {
    assert IsDigit(s[i..i + 4][0]) && IsDigit(s[i..i + 4][1]) && IsDigit(s[i..i + 4][2]) && IsDigit(s[i..i + 4][3]);
    1000 * DigitValue(s[i]) + 100 * DigitValue(s[i + 1]) + 10 * DigitValue(s[i + 2]) + DigitValue(s[i + 3])
  }

  lemma Pad2RoundTrip(n: nat)
    requires n < 100
    ensures TwoDigits(Pad2(n), 0) == n
  {
  }

  lemma Pad4RoundTrip(n: nat)
    requires n < 10000
    ensures FourDigits(Pad4(n), 0) == n
  {
    var q1, q2, q3 := n / 10, n / 100, n / 1000;
    assert n == 10 * q1 + n % 10;
    assert q1 == 10 * (q1 / 10) + q1 % 10;
    assert q1 / 10 == q2;
    assert q2 == 10 * (q2 / 10) + q2 % 10;
    assert q2 / 10 == q3;
  }

  lemma ValueOfTwoDigits(s: string)
    requires |s| == 2 && AllDigits(s)
    ensures Value(s) == TwoDigits(s, 0)
  {
    assert s[..|s| - 1] == [s[0]];
    assert [s[0]][..0] == [];
    assert Value([s[0]]) == DigitValue(s[0]);
  }

  lemma TwoDigitsRoundTrip(s: string, i: nat)
    requires i + 2 <= |s| && IsDigit(s[i]) && IsDigit(s[i + 1])
    ensures Pad2(TwoDigits(s, i)) == s[i..i + 2]
  {
    DigitCharOfValue(s[i]);
    DigitCharOfValue(s[i + 1]);
  }

  lemma FourDigitsRoundTrip(s: string, i: nat)
    requires i + 4 <= |s| && AllDigits(s[i..i + 4])
    ensures Pad4(FourDigits(s, i)) == s[i..i + 4]
  {
    assert IsDigit(s[i..i + 4][0]) && IsDigit(s[i..i + 4][1]) && IsDigit(s[i..i + 4][2]) && IsDigit(s[i..i + 4][3]);
    var a, b, c, d := DigitValue(s[i]), DigitValue(s[i + 1]), DigitValue(s[i + 2]), DigitValue(s[i + 3]);
    var n := FourDigits(s, i);
    DivisionByTen(n, 100 * a + 10 * b + c, d);
    DivisionByTen(100 * a + 10 * b + c, 10 * a + b, c);
    DivisionByTen(10 * a + b, a, b);
    assert n / 100 == (n / 10) / 10;
    assert n / 1000 == ((n / 10) / 10) / 10;
    DigitCharOfValue(s[i]);
    DigitCharOfValue(s[i + 1]);
    DigitCharOfValue(s[i + 2]);
    DigitCharOfValue(s[i + 3]);
  }

  lemma DivisionByTen(n: nat, q: nat, r: nat)
    requires r < 10 && n == 10 * q + r
    ensures n / 10 == q && n % 10 == r
  {
  }
}
