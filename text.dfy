/** String operations the components rely on: `toLowerCase` (ASCII
    letters), `includes`, number-to-text in base 10 and 16 with their
    parsers, `padStart(2, '0')` and the digit filter `replace(/[^0-9]/g, '')`. */
module Text {
  import Seqs

  predicate IsAsciiUpper(c: char)
  {
    'A' <= c <= 'Z'
  }

  function LowerChar(c: char): (r: char)
    ensures !IsAsciiUpper(r)
  {
    if IsAsciiUpper(c) then (c as int + 32) as char else c
  }

  /** `s.toLowerCase()` restricted to ASCII letters. */
  function ToLower(s: string): (r: string)
    ensures |r| == |s|
    ensures forall i :: 0 <= i < |s| ==> r[i] == LowerChar(s[i])
  {
    seq(|s|, i requires 0 <= i < |s| => LowerChar(s[i]))
  }

  /** `hay.includes(needle)`: some slice of `hay` equals `needle`. */
  predicate Contains(hay: string, needle: string)
    decreases |hay|
  {
    needle <= hay || (|hay| > 0 && Contains(hay[1..], needle))
  }

  /** The empty string occurs in every string. */
  lemma ContainsEmpty(hay: string)
    ensures Contains(hay, "")
  {
  }

  /** A string contains itself. */
  lemma ContainsSelf(s: string)
    ensures Contains(s, s)
  {
  }

  // ----- digits and positional notation -----

  predicate IsDecimalDigit(c: char)
  {
    '0' <= c <= '9'
  }

  predicate IsLowerHexDigit(c: char)
  {
    IsDecimalDigit(c) || 'a' <= c <= 'f'
  }

  /** The digit character for `d`, lower-case beyond 9, as
      `Number.prototype.toString(radix)` writes it. */
  function DigitChar(d: nat): (c: char)
    requires d < 16
    ensures IsLowerHexDigit(c)
    ensures d < 10 ==> IsDecimalDigit(c)
  {
    if d < 10 then ('0' as int + d) as char else ('a' as int + d - 10) as char
  }

  function DigitValue(c: char): (d: nat)
    requires IsLowerHexDigit(c)
    ensures d < 16
    ensures IsDecimalDigit(c) ==> d < 10
  {
    if IsDecimalDigit(c) then c as int - '0' as int else c as int - 'a' as int + 10
  }

  lemma DigitRoundTrip(d: nat)
    requires d < 16
    ensures DigitValue(DigitChar(d)) == d
  {
  }

  predicate IsDigitIn(c: char, base: nat)
  {
    IsLowerHexDigit(c) && DigitValue(c) < base
  }

  lemma DigitCharIn(d: nat, base: nat)
    requires d < base <= 16
    ensures IsDigitIn(DigitChar(d), base) && DigitValue(DigitChar(d)) == d
  {
  }

  /** Euclidean division facts for a base, stated once for the solver. */
  lemma DivMod(n: nat, base: nat)
    requires 2 <= base <= n
    ensures n % base < base && n / base < n && n == (n / base) * base + n % base
  {
  }

  /** `n.toString(base)` for a non-negative integer: most significant
      digit first, no sign, no leading zeros. */
  function ToBase(n: nat, base: nat): (r: string)
    requires 2 <= base <= 16
    ensures |r| >= 1
    ensures forall i :: 0 <= i < |r| ==> IsDigitIn(r[i], base)
    decreases n
  {
    if n < base then
      DigitCharIn(n, base);
      [DigitChar(n)]
    else
      var d := n % base;
      DivMod(n, base);
      DigitCharIn(d, base);
      var high := ToBase(n / base, base);
      var r := high + [DigitChar(d)];
      assert forall i :: 0 <= i < |high| ==> r[i] == high[i];
      r
  }

  /** The value of a string of digits in the given base. */
  function FromBase(s: string, base: nat): nat
    requires 2 <= base <= 16
    requires forall i :: 0 <= i < |s| ==> IsDigitIn(s[i], base)
  {
    if s == [] then 0
    else
      var last := s[|s| - 1];
      assert IsDigitIn(last, base);
      FromBase(s[..|s| - 1], base) * base + DigitValue(last)
  }

  /** Writing a number and reading it back gives the number. */
  lemma {:induction false} BaseRoundTrip(n: nat, base: nat)
    requires 2 <= base <= 16
    ensures FromBase(ToBase(n, base), base) == n
    decreases n
  {
    var r := ToBase(n, base);
    if n < base {
      DigitCharIn(n, base);
      assert r[..0] == [];
    } else {
      DivMod(n, base);
      DigitCharIn(n % base, base);
      BaseRoundTrip(n / base, base);
      assert r[..|r| - 1] == ToBase(n / base, base);
    }
  }

  /** Only zero is written with a leading zero. */
  lemma {:induction false} NoLeadingZero(n: nat, base: nat)
    requires 2 <= base <= 16
    ensures ToBase(n, base)[0] == '0' ==> n == 0
    decreases n
  {
    if n >= base {
      DivMod(n, base);
      NoLeadingZero(n / base, base);
    }
  }

  function Pow(b: nat, k: nat): (r: nat)
    ensures b >= 2 ==> r >= 1
  {
    if k == 0 then 1 else b * Pow(b, k - 1)
  }

  lemma DivBelow(n: nat, b: nat, m: nat)
    requires 1 <= b && n < b * m
    ensures n / b < m
  {
  }

  /** A number below base^k needs at most k digits. */
  lemma {:induction false} ToBaseLength(n: nat, base: nat, k: nat)
    requires 2 <= base <= 16 && 1 <= k
    requires n < Pow(base, k)
    ensures |ToBase(n, base)| <= k
    decreases k
  {
    if n >= base {
      assert Pow(base, 1) == base;
      assert k != 1;
      assert Pow(base, k) == base * Pow(base, k - 1);
      DivMod(n, base);
      DivBelow(n, base, Pow(base, k - 1));
      ToBaseLength(n / base, base, k - 1);
    }
  }

  /** A leading zero does not change the value of a digit string. */
  lemma {:induction false} LeadingZero(s: string, base: nat)
    requires 2 <= base <= 16
    requires forall i :: 0 <= i < |s| ==> IsDigitIn(s[i], base)
    ensures IsDigitIn('0', base) && FromBase(['0'] + s, base) == FromBase(s, base)
  {
    var t := ['0'] + s;
    if s != [] {
      assert t[..|t| - 1] == ['0'] + s[..|s| - 1];
      LeadingZero(s[..|s| - 1], base);
    }
  }

  function Decimal(n: nat): (r: string)
    ensures forall i :: 0 <= i < |r| ==> IsDecimalDigit(r[i])
  {
    var r := ToBase(n, 10);
    assert forall i :: 0 <= i < |r| ==> IsDigitIn(r[i], 10);
    r
  }

  /** `x.toString()` for any integer: a minus sign before the digits of a
      negative number. */
  function IntToString(x: int): (r: string)
  {
    if x < 0 then "-" + Decimal(-x) else Decimal(x)
  }

  /** `s.padStart(2, '0')`. */
  function PadStart2(s: string): (r: string)
    ensures |s| >= 2 ==> r == s
    ensures |s| < 2 ==> |r| == 2 && r[2 - |s|..] == s && forall i :: 0 <= i < 2 - |s| ==> r[i] == '0'
  {
    if |s| >= 2 then s else seq(2 - |s|, _ => '0') + s
  }

  /** Padding one digit with a zero keeps its value. */
  lemma PadStart2Value(s: string)
    requires 1 <= |s| <= 2
    requires forall i :: 0 <= i < |s| ==> IsDecimalDigit(s[i])
    ensures |PadStart2(s)| == 2
    ensures forall i :: 0 <= i < 2 ==> IsDecimalDigit(PadStart2(s)[i])
    ensures FromBase(PadStart2(s), 10) == FromBase(s, 10)
  {
    if |s| < 2 {
      assert PadStart2(s) == ['0'] + s;
      LeadingZero(s, 10);
    }
  }

  /** `r` writes `seconds` as `m:ss`: minutes without leading zeros, a
      colon, and two digits of seconds below 60. */
  predicate IsDuration(r: string, seconds: nat)
  {
    && |r| >= 4 && r[|r| - 3] == ':'
    && (forall i :: 0 <= i < |r| && i != |r| - 3 ==> IsDecimalDigit(r[i]))
    && FromBase(r[|r| - 2..], 10) < 60
    && FromBase(r[..|r| - 3], 10) * 60 + FromBase(r[|r| - 2..], 10) == seconds
    && (r[0] == '0' ==> |r| == 4)
  }

  /** `${Math.floor(s / 60)}:${(s % 60).toString().padStart(2, '0')}`. */
  function FormatDuration(seconds: nat): (r: string)
    ensures IsDuration(r, seconds)
  {
    var mins := Decimal(seconds / 60);
    NoLeadingZero(seconds / 60, 10);
    var secs := Decimal(seconds % 60);
    BaseRoundTrip(seconds / 60, 10);
    BaseRoundTrip(seconds % 60, 10);
    assert Pow(10, 2) == 100;
    ToBaseLength(seconds % 60, 10, 2);
    var padded := PadStart2(secs);
    PadStart2Value(secs);
    var r := mins + ":" + padded;
    assert r[..|r| - 3] == mins;
    assert r[|r| - 2..] == padded;
    r
  }

  /** `s.replace(/[^0-9]/g, '')`. */
  function DigitsOnly(s: string): (r: string)
  {
    Seqs.Filter(s, IsDecimalDigit)
  }
}
