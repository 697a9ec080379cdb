/**
 * The JavaScript string built-ins the core relies on: `startsWith`,
 * `split('.').pop()`, and the decimal rendering of a number (`${n}` and
 * date-fns' zero-padded `yyyy`, `MM`, `dd` fields).
 */
module Text {
  /** `s.startsWith(prefix)`: `s` is at least as long and agrees with `prefix` character by character. */
  predicate StartsWith(s: string, prefix: string): (b: bool)
    ensures b <==> |prefix| <= |s| && forall i :: 0 <= i < |prefix| ==> s[i] == prefix[i]
  {
    |prefix| <= |s| && s[..|prefix|] == prefix
  }

  /**
   * `s.split('.').pop()`: the text after the last '.', or all of `s` when it
   * has no '.'. `split` always yields at least one segment, so `pop` never
   * returns `undefined`; the segment is empty when `s` is empty or ends in '.'.
   * The segment is a suffix of `s`; that it is dot-free and starts after the
   * last '.' is LastSegmentSpec, kept apart so that callers which only pass
   * the segment along do not carry its quantifiers.
   */
  function LastSegment(s: string): (r: string)
    ensures |r| <= |s| && r == s[|s| - |r|..]
  {
    if s == [] then []
    else if s[|s| - 1] == '.' then []
    else LastSegment(s[..|s| - 1]) + [s[|s| - 1]]
  }

  /** `r` is a dot-free suffix of `s` that is all of `s` or follows a '.'. */
  predicate IsLastSegment(s: string, r: string) {
    && '.' !in r
    && |r| <= |s| && r == s[|s| - |r|..]
    && (|r| < |s| ==> s[|s| - |r| - 1] == '.')
  }

  /** What `split('.').pop()` returns: the dot-free suffix that is all of `s` or follows its last '.'. */
  lemma {:induction false} LastSegmentSpec(s: string)
    ensures IsLastSegment(s, LastSegment(s))
  {
    if s != [] && s[|s| - 1] != '.' {
      var t, c := s[..|s| - 1], s[|s| - 1];
      LastSegmentSpec(t);
      var r := LastSegment(t);
      assert LastSegment(s) == r + [c];
      DotFreeAppend(r, c);
      SuffixAppend(s, |r|);
    }
  }

  lemma DotFreeAppend(r: string, c: char)
    requires '.' !in r && c != '.'
    ensures '.' !in r + [c]
  {
    forall i | 0 <= i < |r| + 1 ensures (r + [c])[i] != '.' {
      if i < |r| { assert (r + [c])[i] == r[i]; }
    }
  }

  lemma SuffixAppend(s: string, k: nat)
    requires 1 <= |s| && k < |s|
    ensures s[..|s| - 1][|s| - 1 - k..] + [s[|s| - 1]] == s[|s| - 1 - k..]
    ensures k + 1 < |s| ==> s[..|s| - 1][|s| - 2 - k] == s[|s| - 2 - k]
  {
  }

  /** At most one string is the last segment of `s`. */
  lemma LastSegmentsAgree(s: string, r: string, t: string)
    requires IsLastSegment(s, r) && IsLastSegment(s, t)
    ensures r == t
  {
  }

  /** The ensures of LastSegment pin it down: no other string satisfies them. */
  lemma LastSegmentUnique(s: string, r: string)
    requires IsLastSegment(s, r)
    ensures r == LastSegment(s)
  {
    LastSegmentSpec(s);
    LastSegmentsAgree(s, r, LastSegment(s));
  }

  /** A name without '.' is its own last segment. */
  lemma LastSegmentNoDot(s: string)
    requires '.' !in s
    ensures LastSegment(s) == s
  {
    assert IsLastSegment(s, s);
    LastSegmentUnique(s, s);
  }

  /** Joining `p` and a dot-free `e` with '.' makes `e` the last segment. */
  lemma LastSegmentOfJoin(p: string, e: string)
    requires '.' !in e
    ensures LastSegment(p + "." + e) == e
  {
    var s := p + "." + e;
    assert s[|s| - |e|..] == e;
    assert s[|s| - |e| - 1] == '.';
    assert IsLastSegment(s, e);
    LastSegmentUnique(s, e);
  }

  predicate IsDigit(c: char) {
    '0' <= c <= '9'
  }

  function DigitChar(d: nat): (c: char)
    requires d < 10
    ensures IsDigit(c)
  {
    "0123456789"[d]
  }

  function DigitValue(c: char): (d: nat)
    ensures d < 10
    ensures IsDigit(c) ==> DigitChar(d) == c
  {
    if IsDigit(c) then (c as int - '0' as int) else 0
  }

  /** The shortest decimal rendering of `n` (what `${n}` gives for a non-negative integer). */
  function Decimal(n: nat): (r: string)
    ensures 1 <= |r|
    ensures forall i :: 0 <= i < |r| ==> IsDigit(r[i])
    // no leading zero: zero is the single digit "0", anything else starts with a non-zero digit
    ensures n == 0 ==> r == "0"
    ensures n > 0 ==> r[0] != '0'
  {
    if n < 10 then [DigitChar(n)] else Decimal(n / 10) + [DigitChar(n % 10)]
  }

  function Zeros(k: nat): (r: string)
    ensures |r| == k
    ensures forall i :: 0 <= i < k ==> r[i] == '0'
  {
    if k == 0 then [] else Zeros(k - 1) + "0"
  }

  /** `n` in decimal, left-padded with '0' to at least `width` characters; never truncated. */
  function ZeroPad(n: nat, width: nat): (r: string)
    ensures |r| == if |Decimal(n)| < width then width else |Decimal(n)|
    ensures forall i :: 0 <= i < |r| ==> IsDigit(r[i])
  {
    var d := Decimal(n);
    if |d| < width then Zeros(width - |d|) + d else d
  }

  /** Reads a string of digits as a number, most significant digit first. */
  function ParseDecimal(s: string): nat {
    if s == [] then 0 else ParseDecimal(s[..|s| - 1]) * 10 + DigitValue(s[|s| - 1])
  }

  /** Reading back the decimal rendering gives the number again. */
  lemma {:induction false} ParseDecimalOfDecimal(n: nat)
    ensures ParseDecimal(Decimal(n)) == n
  {
    if n >= 10 {
      var d := Decimal(n);
      assert d[..|d| - 1] == Decimal(n / 10);
      assert DigitValue(d[|d| - 1]) == n % 10;
      ParseDecimalOfDecimal(n / 10);
    }
  }

  /** Leading zeros do not change the value read. */
  lemma {:induction false} ParseDecimalLeadingZeros(k: nat, s: string)
    ensures ParseDecimal(Zeros(k) + s) == ParseDecimal(s)
  {
    if s == [] {
      assert Zeros(k) + s == Zeros(k);
      ZerosParseToZero(k);
    } else {
      var t := Zeros(k) + s;
      assert t[..|t| - 1] == Zeros(k) + s[..|s| - 1];
      ParseDecimalLeadingZeros(k, s[..|s| - 1]);
    }
  }

  lemma {:induction false} ZerosParseToZero(k: nat)
    ensures ParseDecimal(Zeros(k)) == 0
  {
    if k > 0 {
      assert Zeros(k)[..k - 1] == Zeros(k - 1);
      ZerosParseToZero(k - 1);
    }
  }

  /** Padding is undone by reading: the padded rendering round-trips to `n`. */
  lemma ParseZeroPad(n: nat, width: nat)
    ensures ParseDecimal(ZeroPad(n, width)) == n
  {
    var d := Decimal(n);
    ParseDecimalOfDecimal(n);
    if |d| < width {
      ParseDecimalLeadingZeros(width - |d|, d);
    }
  }
}
