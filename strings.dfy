/**
 * String helpers shared by the reconciler and the session manager: splitting at the
 * first occurrence of a character, and the zero-padded decimal rendering of Python's
 * `f"{n:03}"` together with the parser that inverts it.
 */
module Strings {

  /** The part of `s` before the first `c` and the part after it; `(s, [])` when `c` does not occur. */
  function SplitAtFirst(s: string, c: char): (r: (string, string))
    ensures c !in s ==> r == (s, [])
  {
    if s == [] then ([], [])
    else if s[0] == c then ([], s[1..])
    else
      var t := SplitAtFirst(s[1..], c);
      assert [s[0]] + s[1..] == s;
      ([s[0]] + t.0, t.1)
  }

  /** Splitting `a + [c] + b` at its first `c` gives back `a` and `b` whenever `a` has no `c`. */
  lemma {:induction false} SplitAtFirstConcat(a: string, c: char, b: string)
    requires c !in a
    ensures SplitAtFirst(a + [c] + b, c) == (a, b)
  {
    if a == [] {
      assert a + [c] + b == [c] + b;
    } else {
      assert (a + [c] + b)[1..] == a[1..] + [c] + b;
      SplitAtFirstConcat(a[1..], c, b);
      assert [a[0]] + a[1..] == a;
    }
  }

  /** A common suffix cancels. */
  lemma SuffixCancel(x: string, y: string, t: string)
    requires x + t == y + t
    ensures x == y
  {
    assert |x| == |y|;
    assert x == (x + t)[..|x|];
    assert y == (y + t)[..|y|];
  }

  /** A common prefix cancels. */
  lemma PrefixCancel(t: string, x: string, y: string)
    requires t + x == t + y
    ensures x == y
  {
    assert x == (t + x)[|t|..];
    assert y == (t + y)[|t|..];
  }

  predicate IsDigit(c: char) {
    '0' <= c <= '9'
  }

  function DigitChar(d: nat): (c: char)
    requires d < 10
    ensures IsDigit(c)
  {
    ('0' as int + d) as char
  }

  function DigitValue(c: char): nat {
    if IsDigit(c) then (c as int - '0' as int) else 0
  }

  /** The decimal rendering of `n`, most significant digit first, without leading zeros. */
  function Decimal(n: nat): (s: string)
    ensures |s| >= 1
    ensures forall i :: 0 <= i < |s| ==> IsDigit(s[i])
    ensures n > 0 ==> s[0] != '0'
  {
    if n < 10 then [DigitChar(n)] else Decimal(n / 10) + [DigitChar(n % 10)]
  }

  /** The value of a string of decimal digits, read most significant digit first. */
  function ParseDecimal(s: string): nat {
    if s == [] then 0 else ParseDecimal(s[..|s| - 1]) * 10 + DigitValue(s[|s| - 1])
  }

  /** `k` zero digits. */
  function Zeros(k: nat): (r: string)
    ensures |r| == k
    ensures forall i :: 0 <= i < k ==> r[i] == '0'
  {
    if k == 0 then [] else ['0'] + Zeros(k - 1)
  }

  /** `s` left-padded with '0' to at least `width` characters, as Python's `0` fill does. */
  function ZeroPad(s: string, width: nat): (r: string)
    ensures |r| == if |s| >= width then |s| else width
    ensures r[|r| - |s|..] == s
    ensures forall i :: 0 <= i < |r| - |s| ==> r[i] == '0'
  {
    if |s| >= width then s else Zeros(width - |s|) + s
  }

  lemma {:induction false} ParseDecimalRoundTrip(n: nat)
    ensures ParseDecimal(Decimal(n)) == n
  {
    if n >= 10 {
      var s := Decimal(n / 10) + [DigitChar(n % 10)];
      assert s[..|s| - 1] == Decimal(n / 10);
      ParseDecimalRoundTrip(n / 10);
    }
  }

  lemma {:induction false} ParseDecimalLeadingZero(s: string)
    ensures ParseDecimal(['0'] + s) == ParseDecimal(s)
  {
    if s != [] {
      var t := ['0'] + s;
      assert t[..|t| - 1] == ['0'] + s[..|s| - 1];
      ParseDecimalLeadingZero(s[..|s| - 1]);
    }
  }

  lemma {:induction false} ParseDecimalZeros(k: nat, s: string)
    ensures ParseDecimal(Zeros(k) + s) == ParseDecimal(s)
  {
    if k == 0 {
      assert Zeros(k) + s == s;
    } else {
      assert Zeros(k) + s == ['0'] + (Zeros(k - 1) + s);
      ParseDecimalLeadingZero(Zeros(k - 1) + s);
      ParseDecimalZeros(k - 1, s);
    }
  }

  lemma ParseDecimalZeroPad(s: string, width: nat)
    ensures ParseDecimal(ZeroPad(s, width)) == ParseDecimal(s)
  {
    if |s| < width {
      ParseDecimalZeros(width - |s|, s);
    }
  }

  /** Zero-padding keeps the number: the padded rendering parses back to `n`. */
  lemma PaddedDecimalRoundTrip(n: nat, width: nat)
    ensures ParseDecimal(ZeroPad(Decimal(n), width)) == n
  {
    ParseDecimalZeroPad(Decimal(n), width);
    ParseDecimalRoundTrip(n);
  }
}
