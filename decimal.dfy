/**
 * Unsigned 64-bit ids as decimal text: `ulong.ToString()` and `ulong.TryParse`,
 * the latter restricted to strings of ASCII digits.
 */
module Decimal {
  import opened Wrappers

  const MaxULong: nat := 0xFFFF_FFFF_FFFF_FFFF

  /** A value of C#'s `ulong`. */
  type ULong = n: nat | n <= MaxULong

  predicate IsDigit(c: char)
  {
    '0' <= c <= '9'
  }

  predicate AllDigits(s: string)
  {
    forall i :: 0 <= i < |s| ==> IsDigit(s[i])
  }

  function DigitValue(c: char): nat
    requires IsDigit(c)
  {
    c as int - '0' as int
  }

  function DigitChar(d: nat): (c: char)
    requires d < 10
    ensures IsDigit(c) && DigitValue(c) == d
  {
    ('0' as int + d) as char
  }

  /** The number a digit string denotes (leading zeros allowed). */
  function Value(s: string): nat
    requires AllDigits(s)
  {
    if s == [] then 0 else Value(s[..|s| - 1]) * 10 + DigitValue(s[|s| - 1])
  }

  /** `n.ToString()`: the canonical decimal text, with no leading zero. */
  function ToDecimal(n: nat): (r: string)
    ensures r != [] && AllDigits(r)
    ensures |r| > 1 ==> r[0] != '0'
  {
    if n < 10 then [DigitChar(n)] else ToDecimal(n / 10) + [DigitChar(n % 10)]
  }

  /** `ulong.TryParse(s, out v)` on digit strings: `None` for the empty string, a non-digit or overflow. */
  function TryParseULong(s: string): Option<ULong>
  {
    if s != [] && AllDigits(s) && Value(s) <= MaxULong then Some(Value(s)) else None
  }

  lemma {:induction false} ValueOfDecimal(n: nat)
    ensures Value(ToDecimal(n)) == n
  {
    if n >= 10 {
      ValueOfDecimal(n / 10);
      var r := ToDecimal(n);
      assert r[..|r| - 1] == ToDecimal(n / 10);
    }
  }

  /** Round trip: the text `ToString` writes for a `ulong` parses back to that value. */
  lemma ParseOfDecimal(n: ULong)
    ensures TryParseULong(ToDecimal(n)) == Some(n)
  {
    ValueOfDecimal(n);
  }

  lemma {:induction false} LeadingDigitPositive(s: string)
    requires s != [] && AllDigits(s) && s[0] != '0'
    ensures Value(s) > 0
  {
    if |s| > 1 {
      LeadingDigitPositive(s[..|s| - 1]);
    }
  }

  /** The converse round trip: canonical digit text that parses is exactly what `ToString` writes back. */
  lemma {:induction false} DecimalOfParse(s: string)
    requires s != [] && AllDigits(s) && (|s| > 1 ==> s[0] != '0')
    ensures ToDecimal(Value(s)) == s
  {
    if |s| > 1 {
      var init := s[..|s| - 1];
      LeadingDigitPositive(init);
      DecimalOfParse(init);
      var d := DigitValue(s[|s| - 1]);
      assert Value(s) / 10 == Value(init) && Value(s) % 10 == d;
      assert DigitChar(d) == s[|s| - 1];
      assert s == init + [s[|s| - 1]];
    } else {
      assert DigitChar(DigitValue(s[0])) == s[0];
    }
  }
}
