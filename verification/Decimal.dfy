/** Decimal numerals without sign or leading zeros, as fmt and encoding/json print them. */
module Decimal {
  function DigitChar(d: nat): (c: char)
    requires d < 10
    ensures IsDigit(c) && DigitValue(c) == d
  {
    (d as char) + '0'
  }

  predicate IsDigit(c: char) {
    '0' <= c <= '9'
  }

  function DigitValue(c: char): nat
    requires IsDigit(c)
  {
    c as nat - '0' as nat
  }

  predicate AllDigits(s: string) {
    forall k :: 0 <= k < |s| ==> IsDigit(s[k])
  }

  function Print(n: nat): string {
    if n < 10 then [DigitChar(n)] else Print(n / 10) + [DigitChar(n % 10)]
  }

  function Value(s: string): nat
    requires AllDigits(s)
  {
    if s == "" then 0 else 10 * Value(s[..|s| - 1]) + DigitValue(s[|s| - 1])
  }

  /** Printing then reading gives the number back; the numeral is canonical. */
  lemma {:induction false} PrintRoundTrip(n: nat)
    ensures Print(n) != "" && AllDigits(Print(n)) && Value(Print(n)) == n
    ensures Print(n)[0] == '0' ==> n == 0 && |Print(n)| == 1
  {
    if n >= 10 {
      PrintRoundTrip(n / 10);
      var front := Print(n / 10);
      assert Print(n)[..|front|] == front;
      assert Print(n)[0] == front[0];
    } else {
      assert Print(n)[..0] == "";
    }
  }
}
