/** The JavaScript string operations the transport relies on: `split`,
    `padStart`, decimal formatting and parsing, `replace`, `trim`, and the
    code-point order in which the ledger sorts keys. */
module Strings {

  // ---------------------------------------------------------------------------
  //  split
  // ---------------------------------------------------------------------------

  /** `s.split(sep)` for a one-character separator. */
  function Split(s: string, sep: char): (parts: seq<string>)
    ensures |parts| >= 1
    decreases |s|
  {
    if |s| == 0 then [""]
    else if s[0] == sep then [""] + Split(s[1..], sep)
    else
      var rest := Split(s[1..], sep);
      [[s[0]] + rest[0]] + rest[1..]
  }

  /** Splitting `a + sep + b`, where `a` has no separator, gives `a` followed
      by the pieces of `b`. */
  lemma {:induction false} SplitFirst(a: string, sep: char, b: string)
    requires sep !in a
    ensures Split(a + [sep] + b, sep) == [a] + Split(b, sep)
    decreases |a|
  {
    if |a| == 0 {
      assert a + [sep] + b == [sep] + b;
      assert ([sep] + b)[1..] == b;
    } else {
      var s := a + [sep] + b;
      assert s[0] == a[0] && s[0] != sep;
      assert s[1..] == a[1..] + [sep] + b;
      SplitFirst(a[1..], sep, b);
      assert [a[0]] + a[1..] == a;
    }
  }

  // ---------------------------------------------------------------------------
  //  Decimal digits
  // ---------------------------------------------------------------------------

  predicate IsDigit(c: char)
  {
    '0' <= c <= '9'
  }

  predicate AllDigits(s: string)
  {
    forall i :: 0 <= i < |s| ==> IsDigit(s[i])
  }

  function DigitValue(c: char): (d: nat)
    requires IsDigit(c)
    ensures d < 10
  {
    (c as int) - ('0' as int)
  }

  function DigitChar(d: nat): (c: char)
    requires d < 10
    ensures IsDigit(c) && DigitValue(c) == d
  {
    (('0' as int) + d) as char
  }

  function Pow10(n: nat): (p: nat)
    ensures p >= 1
  {
    if n == 0 then 1 else 10 * Pow10(n - 1)
  }

  /** The number a string of decimal digits denotes, read from the left. */
  function DecimalValue(s: string): nat
    requires AllDigits(s)
  {
    if |s| == 0 then 0 else DigitValue(s[0]) * Pow10(|s| - 1) + DecimalValue(s[1..])
  }

  /** `n.toString()` for a natural number. */
  function NatToString(n: nat): (s: string)
    ensures AllDigits(s) && |s| >= 1
  {
    if n < 10 then [DigitChar(n)] else NatToString(n / 10) + [DigitChar(n % 10)]
  }

  /** A string of zeros, as `padStart` with '0' adds in front. */
  function Zeros(n: nat): (z: string)
    ensures |z| == n && AllDigits(z)
    ensures forall i :: 0 <= i < n ==> z[i] == '0'
  {
    seq(n, _ => '0')
  }

  /** `s.padStart(width, '0')`. */
  function PadStart(s: string, width: nat): (r: string)
    ensures |s| >= width ==> r == s
    ensures |s| < width ==> r == Zeros(width - |s|) + s
  {
    if |s| >= width then s else Zeros(width - |s|) + s
  }

  lemma {:induction false} DecimalValueSnoc(s: string, c: char)
    requires AllDigits(s) && IsDigit(c)
    ensures AllDigits(s + [c])
    ensures DecimalValue(s + [c]) == DecimalValue(s) * 10 + DigitValue(c)
    decreases |s|
  {
    if |s| > 0 {
      var t := s + [c];
      assert t[0] == s[0] && t[1..] == s[1..] + [c];
      DecimalValueSnoc(s[1..], c);
      var d, p := DigitValue(s[0]), Pow10(|s| - 1);
      var head, tail := d * p, DecimalValue(s[1..]);
      assert DecimalValue(s) == head + tail;
      assert DecimalValue(t) == d * Pow10(|s|) + tail * 10 + DigitValue(c);
      ShiftTen(d, p);
    }
  }

  /** Moving a factor of ten out of a product. */
  lemma ShiftTen(d: nat, p: nat)
    ensures d * (10 * p) == (d * p) * 10
  {
  }

  /** Reading back a formatted number gives the number. */
  lemma {:induction false} DecimalRoundTrip(n: nat)
    ensures DecimalValue(NatToString(n)) == n
  {
    if n >= 10 {
      DecimalRoundTrip(n / 10);
      DecimalValueSnoc(NatToString(n / 10), DigitChar(n % 10));
    }
  }

  lemma {:induction false} DecimalBound(s: string)
    requires AllDigits(s)
    ensures DecimalValue(s) < Pow10(|s|)
  {
    if |s| > 0 {
      DecimalBound(s[1..]);
      var d, p := DigitValue(s[0]), Pow10(|s| - 1);
      MulBelowTen(d, p);
      assert DecimalValue(s) == d * p + DecimalValue(s[1..]);
      assert Pow10(|s|) == 10 * p;
    }
  }

  lemma MulBelowTen(d: nat, p: nat)
    requires d < 10
    ensures d * p <= 9 * p
  {
    var k := 9 - d;
    assert 9 * p == d * p + k * p;
  }

  /** A number below 10^k is written with at most k digits. */
  lemma {:induction false} NatToStringLength(n: nat, k: nat)
    requires k >= 1 && n < Pow10(k)
    ensures |NatToString(n)| <= k
  {
    if n >= 10 {
      assert Pow10(1) == 10;
      assert Pow10(k) == 10 * Pow10(k - 1);
      assert n / 10 < Pow10(k - 1);
      NatToStringLength(n / 10, k - 1);
      assert |NatToString(n)| == |NatToString(n / 10)| + 1;
    }
  }

  /** Leading zeros do not change the value. */
  lemma {:induction false} LeadingZeros(n: nat, s: string)
    requires AllDigits(s)
    ensures AllDigits(Zeros(n) + s)
    ensures DecimalValue(Zeros(n) + s) == DecimalValue(s)
  {
    if n == 0 {
      assert Zeros(0) + s == s;
    } else {
      var t := Zeros(n) + s;
      assert t[1..] == Zeros(n - 1) + s;
      LeadingZeros(n - 1, s);
      assert t[0] == '0';
      assert AllDigits(t);
      assert DigitValue(t[0]) == 0;
      assert DecimalValue(t) == DigitValue(t[0]) * Pow10(|t| - 1) + DecimalValue(t[1..]);
    }
  }

  // ---------------------------------------------------------------------------
  //  Key order
  // ---------------------------------------------------------------------------

  /** Strict code-point order on strings, the order of ledger range scans. */
  predicate LexLess(a: string, b: string)
  {
    if |a| == 0 then |b| > 0
    else if |b| == 0 then false
    else if a[0] != b[0] then a[0] < b[0]
    else LexLess(a[1..], b[1..])
  }

  /** A common prefix does not change the order. */
  lemma {:induction false} LexLessPrefix(p: string, a: string, b: string)
    requires LexLess(a, b)
    ensures LexLess(p + a, p + b)
  {
    if |p| > 0 {
      assert (p + a)[0] == p[0] == (p + b)[0];
      assert (p + a)[1..] == p[1..] + a;
      assert (p + b)[1..] == p[1..] + b;
      LexLessPrefix(p[1..], a, b);
    } else {
      assert p + a == a && p + b == b;
    }
  }

  /** Two strings of equal length keep their order whatever follows them. */
  lemma {:induction false} LexLessExtend(a: string, b: string, x: string, y: string)
    requires |a| == |b| && LexLess(a, b)
    ensures LexLess(a + x, b + y)
  {
    assert |a| > 0;
    if a[0] == b[0] {
      assert (a + x)[1..] == a[1..] + x;
      assert (b + y)[1..] == b[1..] + y;
      LexLessExtend(a[1..], b[1..], x, y);
    }
  }

  /** For digit strings of one length, numeric order is code-point order. */
  lemma {:induction false} DigitsOrder(a: string, b: string)
    requires AllDigits(a) && AllDigits(b) && |a| == |b|
    requires DecimalValue(a) < DecimalValue(b)
    ensures LexLess(a, b)
  {
    var n := |a|;
    assert n > 0;
    var p := Pow10(n - 1);
    var da, db := DigitValue(a[0]), DigitValue(b[0]);
    var va, vb := DecimalValue(a[1..]), DecimalValue(b[1..]);
    assert DecimalValue(a) == da * p + va;
    assert DecimalValue(b) == db * p + vb;
    if da == db {
      assert a[0] == b[0];
      DigitsOrder(a[1..], b[1..]);
    } else if da > db {
      DecimalBound(b[1..]);
      HeadDigitDominates(db, da, vb, va, p);
      assert false;
    } else {
      assert a[0] < b[0];
    }
  }

  /** A larger leading digit outweighs any tail. */
  lemma HeadDigitDominates(lo: nat, hi: nat, vlo: nat, vhi: nat, p: nat)
    requires lo < hi && vlo < p
    ensures lo * p + vlo < hi * p + vhi
  {
    assert (lo + 1) * p == lo * p + p;
    assert (lo + 1) * p <= hi * p;
  }

  /** A key that starts with `start` and whose next character, if any, is below
      `bound` lies before `start + bound`. */
  lemma {:induction false} PrefixBelowBound(start: string, rest: string, bound: char)
    requires |rest| == 0 || rest[0] < bound
    ensures LexLess(start + rest, start + [bound])
  {
    assert LexLess(rest, [bound]);
    LexLessPrefix(start, rest, [bound]);
  }

  /** `start` itself and every extension of it do not lie before `start`. */
  lemma {:induction false} PrefixNotBelow(start: string, rest: string)
    ensures !LexLess(start + rest, start)
  {
    if |start| > 0 {
      assert (start + rest)[1..] == start[1..] + rest;
      PrefixNotBelow(start[1..], rest);
    }
  }

  // ---------------------------------------------------------------------------
  //  replace and trim
  // ---------------------------------------------------------------------------

  /** `s.replace(pattern, '')` for a string pattern: drops its first occurrence. */
  function RemoveFirst(s: string, pattern: string): (r: string)
    requires |pattern| > 0
    ensures |r| <= |s|
    decreases |s|
  {
    if |s| < |pattern| then s
    else if s[..|pattern|] == pattern then s[|pattern|..]
    else [s[0]] + RemoveFirst(s[1..], pattern)
  }

  /** The white space `trim` strips (the ASCII ones, no-break space and the
      byte order mark; other Unicode spaces are not modelled). */
  predicate IsSpace(c: char)
  {
    c == ' ' || c == '\t' || c == '\n' || c == '\r' || c == '\U{B}' || c == '\U{C}'
    || c == '\U{A0}' || c == '\U{FEFF}'
  }

  function TrimStart(s: string): (r: string)
    ensures |r| <= |s|
    ensures |r| > 0 ==> !IsSpace(r[0])
  {
    if |s| > 0 && IsSpace(s[0]) then TrimStart(s[1..]) else s
  }

  function TrimEnd(s: string): (r: string)
    ensures |r| <= |s|
    ensures |r| > 0 ==> !IsSpace(r[|r| - 1])
  {
    if |s| > 0 && IsSpace(s[|s| - 1]) then TrimEnd(s[..|s| - 1]) else s
  }

  /** `s.trim()`. */
  function Trim(s: string): (r: string)
    ensures |r| > 0 ==> !IsSpace(r[0]) && !IsSpace(r[|r| - 1])
  {
    var t := TrimStart(s);
    var r := TrimEnd(t);
    assert |r| > 0 ==> r == t[..|r|] by {
      TrimEndIsPrefix(t);
    }
    r
  }

  lemma {:induction false} TrimEndIsPrefix(s: string)
    ensures TrimEnd(s) == s[..|TrimEnd(s)|]
  {
    if |s| > 0 && IsSpace(s[|s| - 1]) {
      TrimEndIsPrefix(s[..|s| - 1]);
    }
  }
}
