/** The currency text `f"${amount:.2f}"`: a dollar sign, a minus sign for a
    negative amount, the whole dollars in decimal and exactly two digits of
    cents. Amounts are held as an exact whole number of cents. */
module Currency {
  import opened Wrappers
  import opened Decimal

  function Abs(n: int): nat {
    if n < 0 then -n else n
  }

  function FormatUsd(cents: int): string {
    "$" + (if cents < 0 then "-" else "") + NatToString(Abs(cents) / 100) + "." + Pad2(Abs(cents) % 100)
  }

  /** The text is a dollar sign, a minus sign exactly when the amount is
      negative, at least one digit of dollars, a point and two digits. */
  lemma UsdShape(cents: int)
    ensures var r := FormatUsd(cents);
      && |r| >= 5 && r[0] == '$'
      && r[|r| - 3] == '.' && IsDigit(r[|r| - 2]) && IsDigit(r[|r| - 1])
      && (r[1] == '-' <==> cents < 0)
      && AllDigits(r[|r| - 2..])
  {
    var whole := NatToString(Abs(cents) / 100);
    assert whole[0] != '-';
  }

  /** Reads back a currency text written by FormatUsd: the inverse used to
      state that the text carries the exact amount. */
  function ParseUsd(s: string): Option<int> {
    if |s| < 5 || s[0] != '$' || s[|s| - 3] != '.' then None
    else
      var body := s[1..|s| - 3];
      var negative := |body| > 0 && body[0] == '-';
      var whole := if negative then body[1..] else body;
      var fraction := s[|s| - 2..];
      if whole == [] || !AllDigits(whole) || !AllDigits(fraction) then None
      else
        var magnitude := Value(whole) * 100 + Value(fraction);
        Some(if negative then -magnitude else magnitude)
  }

  /** The currency text denotes exactly the amount it was made from. */
  lemma {:induction false} UsdRoundTrip(cents: int)
    ensures ParseUsd(FormatUsd(cents)) == Some(cents)
  {
    UsdShape(cents);
    var a := Abs(cents);
    var s := FormatUsd(cents);
    var whole := NatToString(a / 100);
    var sign := if cents < 0 then "-" else "";
    assert s == "$" + sign + whole + "." + Pad2(a % 100);
    assert s[1..|s| - 3] == sign + whole;
    assert s[|s| - 2..] == Pad2(a % 100);
    ValueOfNatToString(a / 100);
    var p := Pad2(a % 100);
    ValueOfTwoDigits(p);
    Pad2RoundTrip(a % 100);
    if cents < 0 {
      assert (sign + whole)[1..] == whole;
    } else {
      assert sign + whole == whole;
      assert whole[0] != '-';
    }
  }
}
