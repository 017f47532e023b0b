/** Decimal formatting of `usize` values as `format!("{}")` and the
    zero-padded `format!("{:03}")` / `format!("{:04}")` write them. */
module Format {

  predicate IsDigit(c: char) {
    '0' <= c <= '9'
  }

  predicate AllDigits(s: string) {
    forall i :: 0 <= i < |s| ==> IsDigit(s[i])
  }

  function DigitChar(d: nat): (c: char)
    requires d < 10
    ensures IsDigit(c) && c as int - '0' as int == d
  {
    ('0' as int + d) as char
  }

  /** The number a string of decimal digits denotes (leading zeros allowed). */
  function DigitsValue(s: string): nat
    requires AllDigits(s)
    decreases |s|
  {
    if s == [] then 0
    else DigitsValue(s[..|s| - 1]) * 10 + (s[|s| - 1] as int - '0' as int)
  }

  /** `n` in decimal, without leading zeros; `0` is written `"0"`. */
  function Digits(n: nat): (s: string)
    ensures |s| > 0 && AllDigits(s)
    ensures n > 0 ==> s[0] != '0'
    decreases n
  {
    if n < 10 then [DigitChar(n)] else Digits(n / 10) + [DigitChar(n % 10)]
  }

  /** Reading back what `Digits` writes gives the number. */
  lemma {:induction false} DigitsRoundTrip(n: nat)
    ensures DigitsValue(Digits(n)) == n
    decreases n
  {
    if n >= 10 {
      DigitsRoundTrip(n / 10);
      var s := Digits(n);
      assert s[..|s| - 1] == Digits(n / 10);
    } else {
      assert Digits(n)[..0] == [];
    }
  }

  function Pow10(k: nat): nat {
    if k == 0 then 1 else 10 * Pow10(k - 1)
  }

  /** `Digits(n)` fits in `w` characters exactly when `w > 0` and `n < 10^w`. */
  lemma {:induction false} DigitsLength(n: nat, w: nat)
    ensures |Digits(n)| <= w <==> 0 < w && n < Pow10(w)
    decreases n
  {
    if n >= 10 {
      if w > 0 {
        DigitsLength(n / 10, w - 1);
      } else {
        assert |Digits(n)| > 0;
      }
    } else if w > 0 {
      assert Pow10(w) >= 10 by { PowAtLeastTen(w); }
    }
  }

  lemma {:induction false} PowAtLeastTen(w: nat)
    requires w > 0
    ensures Pow10(w) >= 10
    decreases w
  {
    if w > 1 {
      PowAtLeastTen(w - 1);
    }
  }

  function Zeros(k: nat): (s: string)
    ensures |s| == k && AllDigits(s)
    ensures forall i :: 0 <= i < k ==> s[i] == '0'
  {
    seq(k, _ => '0')
  }

  /** Leading zeros do not change the value. */
  lemma {:induction false} LeadingZeros(k: nat, s: string)
    requires AllDigits(s)
    ensures AllDigits(Zeros(k) + s) && DigitsValue(Zeros(k) + s) == DigitsValue(s)
    decreases |s|
  {
    var z := Zeros(k) + s;
    if s == [] {
      assert z == Zeros(k);
      ZerosValue(k);
    } else {
      LeadingZeros(k, s[..|s| - 1]);
      assert z[..|z| - 1] == Zeros(k) + s[..|s| - 1];
    }
  }

  lemma {:induction false} ZerosValue(k: nat)
    ensures DigitsValue(Zeros(k)) == 0
    decreases k
  {
    if k > 0 {
      ZerosValue(k - 1);
      assert Zeros(k)[..k - 1] == Zeros(k - 1);
    }
  }

  /** `format!("{:0w}", n)`: `n` in decimal, left-padded with zeros to at
      least `w` characters. */
  function ZeroPad(n: nat, w: nat): string {
    var d := Digits(n);
    if |d| >= w then d else Zeros(w - |d|) + d
  }

  /** The padded form has width `w` when `n < 10^w` (and is the plain number
      otherwise), consists of digits, and reads back as `n`. */
  lemma ZeroPadSpec(n: nat, w: nat)
    ensures |ZeroPad(n, w)| == (if 0 < w && n < Pow10(w) then w else |Digits(n)|)
    ensures AllDigits(ZeroPad(n, w)) && DigitsValue(ZeroPad(n, w)) == n
  {
    DigitsLength(n, w);
    DigitsRoundTrip(n);
    var d := Digits(n);
    if |d| < w {
      LeadingZeros(w - |d|, d);
    }
  }
}
