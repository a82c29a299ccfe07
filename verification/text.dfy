/** Text helpers: prefixes, and the decimal rendering of Go's `%d` verb with a scanner that reads it back. */
module Text {
  import opened Wrappers

  /** `p` is a prefix of `s`. */
  predicate HasPrefix<T(==)>(s: seq<T>, p: seq<T>)
  {
    |p| <= |s| && s[..|p|] == p
  }

  /** A sequence never starts with one that differs from it at some position. */
  lemma PrefixMismatch<T>(s: seq<T>, p: seq<T>, i: nat)
    requires i < |p| && i < |s| && s[i] != p[i]
    ensures !HasPrefix(s, p)
  {
  }

  lemma PrefixOfConcat<T>(p: seq<T>, r: seq<T>)
    ensures HasPrefix(p + r, p)
    ensures (p + r)[|p|..] == r
  {
    assert (p + r)[..|p|] == p;
  }

  predicate IsDigit(c: char)
  {
    '0' <= c <= '9'
  }

  predicate AllDigits(s: string)
  {
    forall i :: 0 <= i < |s| ==> IsDigit(s[i])
  }

  function DigitChar(d: nat): (c: char)
    requires d < 10
    ensures IsDigit(c)
  {
    ('0' as int + d) as char
  }

  function DigitValue(c: char): (d: nat)
    requires IsDigit(c)
    ensures d < 10
    ensures DigitChar(d) == c
  {
    c as int - '0' as int
  }

  /** Decimal digits of `n`, most significant first, without leading zeros. */
  function NatToDigits(n: nat): (s: string)
    ensures |s| >= 1 && AllDigits(s)
    ensures s[0] == '0' ==> n == 0
    decreases n
  {
    if n < 10 then [DigitChar(n)] else NatToDigits(n / 10) + [DigitChar(n % 10)]
  }

  /** The value of a string of decimal digits (empty reads as zero). */
  function ParseDigits(s: string): nat
    requires AllDigits(s)
  {
    if |s| == 0 then 0 else ParseDigits(s[..|s| - 1]) * 10 + DigitValue(s[|s| - 1])
  }

  lemma {:induction false} ParseNatToDigits(n: nat)
    ensures ParseDigits(NatToDigits(n)) == n
    decreases n
  {
    if n >= 10 {
      var s := NatToDigits(n);
      assert s[..|s| - 1] == NatToDigits(n / 10);
      ParseNatToDigits(n / 10);
    }
  }

  /** Go's `fmt.Sprintf("%d", i)` for a signed integer. */
  function IntToDecimal(i: int): string
  {
    if i < 0 then "-" + NatToDigits(-i) else NatToDigits(i)
  }

  /** Length of the longest prefix of `s` made of digits. */
  function DigitRunLength(s: string): (k: nat)
    ensures k <= |s|
    ensures forall i :: 0 <= i < k ==> IsDigit(s[i])
    ensures k < |s| ==> !IsDigit(s[k])
  {
    if |s| == 0 || !IsDigit(s[0]) then 0 else 1 + DigitRunLength(s[1..])
  }

  /** Reads an optional minus sign and a maximal non-empty run of digits; returns the value and what follows. */
  function ScanInt(s: string): Option<(int, string)>
  {
    if |s| > 0 && s[0] == '-' then
      var t := s[1..];
      var k := DigitRunLength(t);
      if k == 0 then None else Some((-(ParseDigits(t[..k]) as int), t[k..]))
    else
      var k := DigitRunLength(s);
      if k == 0 then None else Some((ParseDigits(s[..k]), s[k..]))
  }

  lemma {:induction false} DigitRunOfDigits(d: string, r: string)
    requires AllDigits(d)
    requires r == [] || !IsDigit(r[0])
    ensures DigitRunLength(d + r) == |d|
  {
    if |d| > 0 {
      assert (d + r)[1..] == d[1..] + r;
      DigitRunOfDigits(d[1..], r);
    }
  }

  /** The digit run at the front of a rendered natural followed by a non-digit is exactly the rendering. */
  lemma ScanDigits(n: nat, r: string)
    requires r == [] || !IsDigit(r[0])
    ensures var d := NatToDigits(n);
      && DigitRunLength(d + r) == |d| > 0
      && (d + r)[..|d|] == d && (d + r)[|d|..] == r
      && ParseDigits(d) == n
  {
    var d := NatToDigits(n);
    ParseNatToDigits(n);
    DigitRunOfDigits(d, r);
    PrefixOfConcat(d, r);
  }

  lemma ScanNegative(n: nat, r: string)
    requires r == [] || !IsDigit(r[0])
    ensures ScanInt("-" + (NatToDigits(n) + r)) == Some((-(n as int), r))
  {
    ScanDigits(n, r);
    var t := NatToDigits(n) + r;
    assert ("-" + t)[1..] == t;
  }

  lemma ScanNonNegative(n: nat, r: string)
    requires r == [] || !IsDigit(r[0])
    ensures ScanInt(NatToDigits(n) + r) == Some((n, r))
  {
    ScanDigits(n, r);
  }

  /** Reading back the rendering of any integer, followed by text that does not start with a digit, gives the integer and that text. */
  lemma ScanIntToDecimal(i: int, r: string)
    requires r == [] || !IsDigit(r[0])
    ensures ScanInt(IntToDecimal(i) + r) == Some((i, r))
  {
    if i < 0 {
      assert IntToDecimal(i) + r == "-" + (NatToDigits(-i) + r);
      ScanNegative(-i, r);
    } else {
      ScanNonNegative(i, r);
    }
  }
}
