/**
 * Decimal digits: PHP writes an integer into a string as its shortest decimal
 * numeral, and `gmdate` writes date fields as zero-padded decimal numerals.
 */
module Decimal {

  predicate IsDigit(c: char) { '0' <= c <= '9' }

  predicate AllDigits(s: string) { forall i :: 0 <= i < |s| ==> IsDigit(s[i]) }

  function DigitChar(d: nat): (c: char)
    requires d < 10
  {
    (('0' as int) + d) as char
  }

  function DigitValue(c: char): (d: nat)
    requires IsDigit(c)
  {
    (c as int) - ('0' as int)
  }

  function Pow10(n: nat): (p: nat)
    ensures p >= 1
  {
    if n == 0 then 1 else 10 * Pow10(n - 1)
  }

  /** The number a string of digits denotes (most significant digit first). */
  function Read(s: string): nat
    requires AllDigits(s)
    decreases |s|
  {
    if |s| == 0 then 0 else 10 * Read(s[..|s| - 1]) + DigitValue(s[|s| - 1])
  }

  /** The shortest numeral of `n`: no leading zero unless `n` is 0. */
  function Numeral(n: nat): (s: string)
    ensures |s| > 0 && AllDigits(s)
    decreases n
  {
    if n < 10 then [DigitChar(n)] else Numeral(n / 10) + [DigitChar(n % 10)]
  }

  /** The last `width` digits of `n`, with leading zeros (the `%0Nd` of a date field). */
  function Padded(n: nat, width: nat): (s: string)
    ensures |s| == width && AllDigits(s)
    decreases width
  {
    if width == 0 then [] else Padded(n / 10, width - 1) + [DigitChar(n % 10)]
  }

  /** A numeral PHP itself could print for a natural number. */
  predicate Canonical(s: string) {
    |s| > 0 && AllDigits(s) && (s[0] == '0' ==> |s| == 1)
  }

  lemma DivBound(n: nat, width: nat)
    requires width > 0 && n < Pow10(width)
    ensures n / 10 < Pow10(width - 1)
  {
  }

  /** A zero-padded numeral reads back as the number it was made from. */
  lemma {:induction false} ReadPadded(n: nat, width: nat)
    requires n < Pow10(width)
    ensures Read(Padded(n, width)) == n
    decreases width
  {
    if width > 0 {
      DivBound(n, width);
      ReadPadded(n / 10, width - 1);
      var s := Padded(n, width);
      assert s[..|s| - 1] == Padded(n / 10, width - 1);
    }
  }

  /** Every string of digits is the zero-padded numeral of what it reads as. */
  lemma {:induction false} PaddedRead(s: string)
    requires AllDigits(s)
    ensures Read(s) < Pow10(|s|) && Padded(Read(s), |s|) == s
    decreases |s|
  {
    if |s| > 0 {
      var init := s[..|s| - 1];
      PaddedRead(init);
      var n := Read(s);
      assert n / 10 == Read(init) && n % 10 == DigitValue(s[|s| - 1]);
      assert s == init + [s[|s| - 1]];
    }
  }

  /** The shortest numeral reads back as the number it was made from, and is canonical. */
  lemma {:induction false} ReadNumeral(n: nat)
    ensures Read(Numeral(n)) == n
    ensures Canonical(Numeral(n))
    decreases n
  {
    var s := Numeral(n);
    if n >= 10 {
      ReadNumeral(n / 10);
      assert s[..|s| - 1] == Numeral(n / 10);
      assert s[0] == Numeral(n / 10)[0];
      assert |Numeral(n / 10)| == 1 ==> Numeral(n / 10)[0] != '0';
    }
  }

  /** Every canonical numeral is the shortest numeral of what it reads as. */
  lemma {:induction false} NumeralRead(s: string)
    requires Canonical(s)
    ensures Numeral(Read(s)) == s
    decreases |s|
  {
    var init := s[..|s| - 1];
    var n := Read(s);
    if |s| == 1 {
      assert init == [];
    } else {
      assert Canonical(init) by { assert init[0] == s[0]; }
      NumeralRead(init);
      NonZeroLead(init);
      assert n / 10 == Read(init) && n % 10 == DigitValue(s[|s| - 1]);
      assert s == init + [s[|s| - 1]];
    }
  }

  /** A canonical numeral of two or more digits denotes at least 10. */
  lemma {:induction false} NonZeroLead(s: string)
    requires Canonical(s)
    ensures |s| > 1 ==> Read(s) >= 10
    ensures s[0] != '0' ==> Read(s) >= 1
    ensures s[0] == '0' ==> Read(s) == 0
    decreases |s|
  {
    if |s| == 1 {
      assert s[..0] == [];
    } else {
      var init := s[..|s| - 1];
      assert init[0] == s[0];
      NonZeroLead(init);
    }
  }
}
