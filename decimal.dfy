/**
 * Decimal rendering of integers as Python's format specs produce it
 * (f"{n:04d}", f"{n:02d}") and the parse that inverts it.
 */
module Decimal {

  predicate IsDigit(c: char) {
    '0' <= c <= '9'
  }

  predicate AllDigits(s: string) {
    forall i | 0 <= i < |s| :: IsDigit(s[i])
  }

  function DigitChar(d: nat): (c: char)
    requires d < 10
    ensures IsDigit(c)
  {
    ('0' as int + d) as char
  }

  function DigitValue(c: char): (d: nat)
    requires IsDigit(c)
    ensures d < 10
  {
    c as int - '0' as int
  }

  /** str(n) for n >= 0: the shortest decimal numeral. */
  function Digits(n: nat): (r: string)
    ensures r != [] && AllDigits(r)
    decreases n
  {
    if n < 10 then [DigitChar(n)] else Digits(n / 10) + [DigitChar(n % 10)]
  }

  function Repeat(c: char, k: int): (r: string)
    ensures |r| == if k < 0 then 0 else k
    ensures forall i | 0 <= i < |r| :: r[i] == c
    decreases k
  {
    if k <= 0 then [] else [c] + Repeat(c, k - 1)
  }

  /** f"{n:0{width}d}" for n >= 0: the numeral, left-padded with zeros to at least `width` characters, never cut. */
  function ZeroPad(n: nat, width: int): string {
    Repeat('0', width - |Digits(n)|) + Digits(n)
  }

  /** f"{n:0{width}d}" for any integer: a minus sign takes one place of the width. */
  function FormatInt(n: int, width: int): string {
    if n < 0 then "-" + ZeroPad(-n, width - 1) else ZeroPad(n, width)
  }

  /** int(s) for a string of decimal digits (the empty string reads as 0). */
  function ParseDigits(s: string): nat
    requires AllDigits(s)
    decreases |s|
  {
    if s == [] then 0 else ParseDigits(s[..|s| - 1]) * 10 + DigitValue(s[|s| - 1])
  }

  lemma {:induction false} ParseDigitsOf(n: nat)
    ensures ParseDigits(Digits(n)) == n
    decreases n
  {
    if n >= 10 {
      var d := Digits(n / 10) + [DigitChar(n % 10)];
      assert d[..|d| - 1] == Digits(n / 10);
      ParseDigitsOf(n / 10);
    }
  }

  lemma {:induction false} ParseZeros(k: int)
    ensures ParseDigits(Repeat('0', k)) == 0
    decreases k
  {
    if k > 0 {
      var z := Repeat('0', k);
      assert z[..|z| - 1] == Repeat('0', k - 1);
      ParseZeros(k - 1);
    }
  }

  lemma {:induction false} ParseLeadingZeros(k: int, s: string)
    requires AllDigits(s)
    ensures ParseDigits(Repeat('0', k) + s) == ParseDigits(s)
    decreases |s|
  {
    var t := Repeat('0', k) + s;
    if s == [] {
      assert t == Repeat('0', k);
      ParseZeros(k);
    } else {
      assert t[..|t| - 1] == Repeat('0', k) + s[..|s| - 1];
      ParseLeadingZeros(k, s[..|s| - 1]);
    }
  }

  /** Zero padding is lossless: int(f"{n:0{width}d}") == n, and the padded numeral is exactly max(width, len(str(n))) long. */
  lemma ZeroPadRoundTrip(n: nat, width: int)
    ensures AllDigits(ZeroPad(n, width))
    ensures |ZeroPad(n, width)| == if width > |Digits(n)| then width else |Digits(n)|
    ensures ParseDigits(ZeroPad(n, width)) == n
  {
    ParseLeadingZeros(width - |Digits(n)|, Digits(n));
    ParseDigitsOf(n);
  }

  /** Distinct numbers never get the same padded numeral. */
  lemma ZeroPadInjective(n: nat, m: nat, width: int)
    requires ZeroPad(n, width) == ZeroPad(m, width)
    ensures n == m
  {
    ZeroPadRoundTrip(n, width);
    ZeroPadRoundTrip(m, width);
  }

  /** Numbers below 100 padded to width 2 take exactly two digits. */
  lemma {:induction false} TwoDigits(n: nat)
    requires n < 100
    ensures |ZeroPad(n, 2)| == 2 && AllDigits(ZeroPad(n, 2))
  {
    if n >= 10 {
      assert Digits(n / 10) == [DigitChar(n / 10)];
    }
    ZeroPadRoundTrip(n, 2);
  }
}
