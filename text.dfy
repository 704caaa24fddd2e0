/** String helpers shared by the views: JavaScript's `toUpperCase` on the ASCII
    letters, and `parseFloat` on what a browser number input can hold. */
module Text {
  import opened Wrappers

  function UpperChar(c: char): char {
    if 'a' <= c <= 'z' then (c as int - 'a' as int + 'A' as int) as char else c
  }

  /** `s.toUpperCase()`: every lower-case ASCII letter becomes its capital, all
      other characters stay, and the length does not change. */
  function ToUpper(s: string): (r: string)
    ensures |r| == |s|
    ensures forall i :: 0 <= i < |s| ==> r[i] == UpperChar(s[i])
    ensures forall i :: 0 <= i < |r| ==> !('a' <= r[i] <= 'z')
  {
    if s == [] then [] else [UpperChar(s[0])] + ToUpper(s[1..])
  }

  predicate IsDigit(c: char) {
    '0' <= c <= '9'
  }

  predicate AllDigits(s: string) {
    forall i :: 0 <= i < |s| ==> IsDigit(s[i])
  }

  function DigitValue(c: char): nat
    requires IsDigit(c)
  {
    c as int - '0' as int
  }

  /** The value of a string of decimal digits, most significant first. */
  function DigitsValue(s: string): nat
    requires AllDigits(s)
  {
    if s == [] then 0 else DigitsValue(s[..|s| - 1]) * 10 + DigitValue(s[|s| - 1])
  }

  /** 10 to the k; never zero, which `ParseUnsigned` needs to divide by it. */
  function Pow10(k: nat): (p: nat)
    ensures p >= 1
  {
    if k == 0 then 1 else 10 * Pow10(k - 1)
  }

  /** Position of the first '.' in `s`, or |s| when there is none. */
  function DotIndex(s: string): (k: nat)
    ensures k <= |s|
    ensures forall i :: 0 <= i < k ==> s[i] != '.'
    ensures k < |s| ==> s[k] == '.'
  {
    if s == [] then 0 else if s[0] == '.' then 0 else 1 + DotIndex(s[1..])
  }

  /** An unsigned decimal `digits[.digits]` with at least one digit in all. */
  function ParseUnsigned(s: string): (r: Option<real>)
    ensures r.Some? ==> r.value >= 0.0
    ensures r.Some? ==> exists i :: 0 <= i < |s| && IsDigit(s[i])
  {
    var k := DotIndex(s);
    var whole := s[..k];
    var frac := if k < |s| then s[k + 1..] else [];
    if AllDigits(whole) && AllDigits(frac) && |whole| + |frac| > 0 then
      assert |whole| > 0 ==> IsDigit(s[0]);
      assert |whole| == 0 ==> IsDigit(s[k + 1]);
      Some(DigitsValue(whole) as real + DigitsValue(frac) as real / Pow10(|frac|) as real)
    else None
  }

  /** `parseFloat` on a decimal `[-]digits[.digits]`; a string with no digit at
      all, the empty string included, is None (NaN). */
  function ParseFloat(s: string): (r: Option<real>)
    ensures (forall i :: 0 <= i < |s| ==> !IsDigit(s[i])) ==> r == None
  {
    if |s| > 0 && s[0] == '-' then
      match ParseUnsigned(s[1..])
      case Some(v) => Some(-v)
      case None => None
    else ParseUnsigned(s)
  }

  function DigitChar(d: nat): (c: char)
    requires d < 10
    ensures IsDigit(c) && DigitValue(c) == d
  {
    ('0' as int + d) as char
  }

  /** The decimal rendering of a natural number, as a user types it. */
  function ShowNat(n: nat): (s: string)
    ensures |s| > 0 && AllDigits(s)
  {
    if n < 10 then [DigitChar(n)] else ShowNat(n / 10) + [DigitChar(n % 10)]
  }

  lemma {:induction false} DigitsValueShowNat(n: nat)
    ensures DigitsValue(ShowNat(n)) == n
  {
    var s := ShowNat(n);
    if n >= 10 {
      DigitsValueShowNat(n / 10);
      assert s[..|s| - 1] == ShowNat(n / 10);
    }
  }

  /** Typing the digits of n into a number input and parsing them gives back n. */
  lemma ParseShowNat(n: nat)
    ensures ParseFloat(ShowNat(n)) == Some(n as real)
  {
    var s := ShowNat(n);
    assert forall i :: 0 <= i < |s| ==> s[i] != '.';
    assert s[..|s|] == s;
    DigitsValueShowNat(n);
  }

  /** Typing "-" followed by the digits of n gives back -n. */
  lemma ParseNegShowNat(n: nat)
    ensures ParseFloat("-" + ShowNat(n)) == Some(-(n as real))
  {
    var s := "-" + ShowNat(n);
    assert s[1..] == ShowNat(n);
    ParseShowNat(n);
  }

  /** A non-negative value in tenths as a user types it into an input with
      `step: '0.1'`: the whole part, then "." and the tenths digit unless it is 0. */
  function ShowTenths(t: nat): (s: string)
    ensures |s| > 0 && IsDigit(s[0])
  {
    if t % 10 == 0 then ShowNat(t / 10) else ShowNat(t / 10) + "." + [DigitChar(t % 10)]
  }

  /** In digits, a point and a tail, the first point is the one after the digits. */
  lemma DotAfterDigits(w: string, tail: string)
    requires AllDigits(w)
    ensures var s := w + "." + tail;
      DotIndex(s) == |w| && s[..|w|] == w && s[|w| + 1..] == tail
  {
    var s := w + "." + tail;
    assert forall i :: 0 <= i < |w| ==> s[i] == w[i];
    assert s[|w|] == '.';
  }

  /** A string whose first point follows the digits `w` and is followed by
      the digits `frac` is that decimal. */
  lemma ParseFloatDecimal(s: string, w: string, frac: string)
    requires |w| > 0 && AllDigits(w) && AllDigits(frac)
    requires DotIndex(s) == |w| < |s| && s[..|w|] == w && s[|w| + 1..] == frac
    ensures ParseFloat(s) == Some(DigitsValue(w) as real + DigitsValue(frac) as real / Pow10(|frac|) as real)
  {
    assert IsDigit(w[0]) && s[0] == w[0];
    assert ParseFloat(s) == ParseUnsigned(s);
  }

  /** Digits, a point and more digits parse to the whole part plus the
      fraction scaled by its number of digits. */
  lemma ParseDecimal(w: string, frac: string)
    requires |w| > 0 && AllDigits(w) && AllDigits(frac)
    ensures ParseFloat(w + "." + frac)
            == Some(DigitsValue(w) as real + DigitsValue(frac) as real / Pow10(|frac|) as real)
  {
    DotAfterDigits(w, frac);
    ParseFloatDecimal(w + "." + frac, w, frac);
  }

  /** The digits of n, a point and one more digit d parse to n + d/10. */
  lemma ParseTenths(n: nat, d: nat)
    requires d < 10
    ensures ParseFloat(ShowNat(n) + "." + [DigitChar(d)]) == Some(n as real + d as real / 10.0)
  {
    var frac := [DigitChar(d)];
    ParseDecimal(ShowNat(n), frac);
    assert frac[..0] == [];
    assert DigitsValue(frac) == d;
    assert Pow10(|frac|) == 10;
    DigitsValueShowNat(n);
  }

  /** Typing a value in tenths and parsing it gives back that value. */
  lemma ParseShowTenths(t: nat)
    ensures ParseFloat(ShowTenths(t)) == Some(t as real / 10.0)
  {
    var q, d := t / 10, t % 10;
    assert t == q * 10 + d;
    assert t as real / 10.0 == q as real + d as real / 10.0;
    if d == 0 {
      ParseShowNat(q);
    } else {
      ParseTenths(q, d);
    }
  }
}
