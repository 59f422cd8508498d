/** Decimal rendering of a natural number, as `std::to_string` and `fmt` print it,
    and the value `std::from_chars` reads back. */
module Decimal {

  predicate IsDigit(c: char) { '0' <= c <= '9' }

  predicate AllDigits(s: string) { forall c <- s :: IsDigit(c) }

  function DigitChar(d: nat): (c: char)
    requires d < 10
    ensures IsDigit(c) && c as int - '0' as int == d
  {
    (d + '0' as int) as char
  }

  function ToDecimal(n: nat): (s: string)
    ensures s != "" && AllDigits(s) && (n == 0 ==> s == "0") && (n > 0 ==> s[0] != '0')
  {
    if n < 10 then [DigitChar(n)] else ToDecimal(n / 10) + [DigitChar(n % 10)]
  }

  function FromDecimal(s: string): nat
    requires AllDigits(s)
  {
    if s == "" then 0
    else
      var init := s[..|s| - 1];
      assert s[|s| - 1] in s;
      assert forall c <- init :: c in s;
      10 * FromDecimal(init) + (s[|s| - 1] as int - '0' as int)
  }

  lemma FromDecimalPush(s: string, c: char)
    requires AllDigits(s) && IsDigit(c)
    ensures AllDigits(s + [c]) && FromDecimal(s + [c]) == 10 * FromDecimal(s) + (c as int - '0' as int)
  {
    assert (s + [c])[..|s|] == s;
  }

  lemma {:induction false} DecimalRoundTrip(n: nat)
    ensures FromDecimal(ToDecimal(n)) == n
  {
    if n < 10 {
      assert FromDecimal("") == 0;
      assert ToDecimal(n)[..0] == "";
    } else {
      DecimalRoundTrip(n / 10);
      assert ToDecimal(n)[..|ToDecimal(n)| - 1] == ToDecimal(n / 10);
    }
  }

  /** The other way round: digits without a leading zero are the text of their number. */
  lemma {:induction false} TextRoundTrip(s: string)
    requires s != "" && AllDigits(s) && s[0] != '0'
    ensures FromDecimal(s) > 0 && ToDecimal(FromDecimal(s)) == s
  {
    hide FromDecimal, ToDecimal;
    var init, c := s[..|s| - 1], s[|s| - 1];
    assert s == init + [c] && c in s;
    if init == "" {
      assert s == [c];
      OneDigit(c);
    } else {
      assert forall d <- init :: d in s;
      TextRoundTrip(init);
      FromDecimalPush(init, c);
      LastDigit(FromDecimal(init), c);
    }
  }

  lemma OneDigit(c: char)
    requires IsDigit(c)
    ensures FromDecimal([c]) == c as int - '0' as int && ToDecimal(FromDecimal([c])) == [c]
  {
    FromDecimalPush("", c);
    assert "" + [c] == [c];
  }

  lemma LastDigit(m: nat, c: char)
    requires m > 0 && IsDigit(c)
    ensures ToDecimal(10 * m + (c as int - '0' as int)) == ToDecimal(m) + [c]
  {
    var d := c as int - '0' as int;
    assert (10 * m + d) / 10 == m && (10 * m + d) % 10 == d;
  }
}
