/** Decimal numerals, as `format!` and the key buffer write them. */
module Decimal {
  predicate IsDigit(c: char) { '0' <= c <= '9' }

  predicate AllDigits(s: string) { forall i :: 0 <= i < |s| ==> IsDigit(s[i]) }

  function DigitChar(d: nat): (c: char)
    requires d < 10
    ensures IsDigit(c) && (c as int) - ('0' as int) == d
  {
    ((d + '0' as int) as char)
  }

  function DigitValue(c: char): nat
    requires IsDigit(c)
  {
    (c as int) - ('0' as int)
  }

  function Numeral(n: nat): (s: string)
    ensures s != "" && AllDigits(s)
  {
    if n < 10 then [DigitChar(n)] else Numeral(n / 10) + [DigitChar(n % 10)]
  }

  function Value(s: string): nat
    requires AllDigits(s)
  {
    if s == "" then 0 else 10 * Value(s[..|s| - 1]) + DigitValue(s[|s| - 1])
  }

  lemma {:induction false} NumeralValue(n: nat)
    ensures Value(Numeral(n)) == n
  {
    if n >= 10 {
      NumeralValue(n / 10);
      assert Numeral(n)[..|Numeral(n)| - 1] == Numeral(n / 10);
    }
  }

  /** No digit string of the same value is shorter. */
  lemma {:induction false} NumeralShortest(s: string)
    requires s != "" && AllDigits(s)
    ensures |Numeral(Value(s))| <= |s|
  {
    if Value(s) >= 10 {
      var init := s[..|s| - 1];
      assert Value(s) / 10 == Value(init);
      assert init != "";
      NumeralShortest(init);
    }
  }

  function Power10(k: nat): nat { if k == 0 then 1 else 10 * Power10(k - 1) }

  lemma {:induction false} NumeralLength(n: nat, k: nat)
    requires k >= 1 && n < Power10(k)
    ensures |Numeral(n)| <= k
  {
    if n >= 10 { NumeralLength(n / 10, k - 1); }
  }

  /** Two numerals, each followed by something that is no digit, are the same if the texts are. */
  lemma NumeralPrefix(m: nat, n: nat, a: string, b: string)
    requires Numeral(m) + a == Numeral(n) + b
    requires (a == "" || !IsDigit(a[0])) && (b == "" || !IsDigit(b[0]))
    ensures m == n && a == b
  {
    var x, y := Numeral(m), Numeral(n);
    assert forall i :: 0 <= i < |x| ==> IsDigit((x + a)[i]);
    assert forall i :: 0 <= i < |y| ==> IsDigit((y + b)[i]);
    assert a != "" ==> !IsDigit((x + a)[|x|]);
    assert b != "" ==> !IsDigit((y + b)[|y|]);
    if |x| != |y| { assert false; }
    assert x == (x + a)[..|x|] == y;
    assert a == (x + a)[|x|..] == b;
    NumeralValue(m);
    NumeralValue(n);
  }
}
