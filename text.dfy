/**
 * The string operations of Python's `str` that the loader relies on: `isspace`,
 * `strip`, `rfind`, `startswith`, `split(sep, 1)` and `str(int)`.
 */
module Text {
  import opened Wrappers

  /**
   * `c.isspace()`: the Unicode characters of bidirectional class WS, B or S or of
   * general category Zs, that is tab to carriage return, the four separators
   * U+001C to U+001F, space, U+0085, U+00A0, U+1680, U+2000 to U+200A, U+2028,
   * U+2029, U+202F, U+205F and U+3000.
   */
  predicate IsSpace(c: char)
  {
    || '\t' <= c <= '\r' || '\U{1C}' <= c <= ' '
    || c == '\U{85}' || c == '\U{A0}' || c == '\U{1680}'
    || '\U{2000}' <= c <= '\U{200A}'
    || c == '\U{2028}' || c == '\U{2029}' || c == '\U{202F}' || c == '\U{205F}' || c == '\U{3000}'
  }

  /** `s.lstrip()`: drops the leading whitespace. */
  function StripLeft(s: string): (r: string)
    ensures |r| <= |s|
  {
    if s != [] && IsSpace(s[0]) then StripLeft(s[1..]) else s
  }

  /** `lstrip` keeps a suffix of `s`, dropping only whitespace, and what it keeps does not start with whitespace. */
  lemma {:induction false} StripLeftFacts(s: string)
    ensures var r := StripLeft(s);
      && |r| <= |s| && r == s[|s| - |r|..]
      && AllSpace(s[..|s| - |r|])
      && (r == [] || !IsSpace(r[0]))
  {
    if s != [] && IsSpace(s[0]) {
      StripLeftFacts(s[1..]);
      var r := StripLeft(s);
      assert s[..|s| - |r|] == [s[0]] + s[1..][..|s| - 1 - |r|];
    }
  }

  /** `s.rstrip()`: drops the trailing whitespace. */
  function StripRight(s: string): (r: string)
    ensures |r| <= |s|
  {
    if s != [] && IsSpace(s[|s| - 1]) then StripRight(s[..|s| - 1]) else s
  }

  /** `rstrip` keeps a prefix of `s`, dropping only whitespace, and what it keeps does not end with whitespace. */
  lemma {:induction false} StripRightFacts(s: string)
    ensures var r := StripRight(s);
      && |r| <= |s| && r == s[..|r|]
      && AllSpace(s[|r|..])
      && (r == [] || !IsSpace(r[|r| - 1]))
  {
    if s != [] && IsSpace(s[|s| - 1]) {
      var t := s[..|s| - 1];
      StripRightFacts(t);
      var r := StripRight(s);
      assert s[|r|..] == t[|r|..] + [s[|s| - 1]];
    }
  }

  /** Every character of `t` is whitespace. */
  predicate AllSpace(t: string)
  {
    forall i :: 0 <= i < |t| ==> IsSpace(t[i])
  }

  /** `s.strip()`: drops the whitespace at both ends. */
  function Strip(s: string): string
  {
    StripRight(StripLeft(s))
  }

  /**
   * `s` is the whitespace that `strip` drops on the left, then its result, then the
   * whitespace it drops on the right; the result neither starts nor ends with whitespace.
   */
  lemma StripSplits(s: string)
    ensures |Strip(s)| <= |s| - (|s| - |StripLeft(s)|)
    ensures s == s[..|s| - |StripLeft(s)|] + Strip(s) + s[|s| - |StripLeft(s)| + |Strip(s)|..]
    ensures AllSpace(s[..|s| - |StripLeft(s)|])
    ensures AllSpace(s[|s| - |StripLeft(s)| + |Strip(s)|..])
    ensures Strip(s) == [] || (!IsSpace(Strip(s)[0]) && !IsSpace(Strip(s)[|Strip(s)| - 1]))
  {
    var l := StripLeft(s);
    StripLeftFacts(s);
    StripRightFacts(l);
    Reassemble(s, l, StripRight(l));
  }

  /** The step of `StripSplits` that only concerns slicing: `s` is `s[..a] + l` and `l` is `r + l[|r|..]`. */
  lemma Reassemble(s: string, l: string, r: string)
    requires |l| <= |s| && l == s[|s| - |l|..] && AllSpace(s[..|s| - |l|])
    requires l == [] || !IsSpace(l[0])
    requires |r| <= |l| && r == l[..|r|] && AllSpace(l[|r|..])
    requires r == [] || !IsSpace(r[|r| - 1])
    ensures |r| <= |s| - (|s| - |l|)
    ensures s == s[..|s| - |l|] + r + s[|s| - |l| + |r|..]
    ensures AllSpace(s[..|s| - |l|])
    ensures AllSpace(s[|s| - |l| + |r|..])
    ensures r == [] || (!IsSpace(r[0]) && !IsSpace(r[|r| - 1]))
  {
    var a := |s| - |l|;
    assert s == s[..a] + l;
    assert l == r + l[|r|..];
    assert s[a + |r|..] == l[|r|..];
    assert r != [] ==> r[0] == l[0];
  }

  /** `s.rfind(c)`: the index of the last `c` in `s`, or -1. */
  function RFind(s: string, c: char): (r: int)
    ensures -1 <= r < |s|
    ensures r >= 0 ==> s[r] == c
  {
    if s == [] then -1
    else if s[|s| - 1] == c then |s| - 1
    else RFind(s[..|s| - 1], c)
  }

  /** `rfind` finds the last occurrence: no `c` follows it, and -1 means there is none at all. */
  lemma {:induction false} RFindLast(s: string, c: char)
    ensures forall j :: RFind(s, c) < j < |s| ==> s[j] != c
  {
    if s != [] && s[|s| - 1] != c {
      var t := s[..|s| - 1];
      RFindLast(t, c);
      forall j | RFind(s, c) < j < |s|
        ensures s[j] != c
      {
        if j < |t| {
          assert s[j] == t[j];
        }
      }
    }
  }

  /** `s.find(c)`: the index of the first `c` in `s`, or -1. */
  function Find(s: string, c: char): (r: int)
    ensures -1 <= r < |s|
    ensures r == -1 ==> c !in s
    ensures r >= 0 ==> s[r] == c && c !in s[..r]
  {
    if s == [] then -1
    else if s[0] == c then 0
    else
      var r := Find(s[1..], c);
      if r == -1 then -1 else r + 1
  }

  /** `s.startswith(p)`. */
  predicate StartsWith(s: string, p: string)
  {
    |p| <= |s| && s[..|p|] == p
  }

  /**
   * `a, b = s.split(":", 1)`: the text before and after the first colon; None when
   * `s` has no colon (the unpacking then raises ValueError).
   */
  function SplitFirstColon(s: string): (r: Option<(string, string)>)
    ensures r.None? <==> ':' !in s
    ensures r.Some? ==> r.value.0 + ":" + r.value.1 == s && ':' !in r.value.0
  {
    var i := Find(s, ':');
    if i < 0 then None
    else
      assert s == s[..i] + ":" + s[i + 1..];
      Some((s[..i], s[i + 1..]))
  }

  /** Splitting `t:k` at the first colon gives back `(t, k)` when `t` has no colon. */
  lemma {:induction false} SplitJoin(t: string, k: string)
    requires ':' !in t
    ensures SplitFirstColon(t + ":" + k) == Some((t, k))
  {
    var s := t + ":" + k;
    assert s[|t|] == ':';
    var r := SplitFirstColon(s);
    assert r.Some?;
    var i := Find(s, ':');
    assert s[..|t|] == t;
    assert s[|t| + 1..] == k;
  }

  function DigitChar(d: nat): (c: char)
    requires d < 10
    ensures '0' <= c <= '9'
  {
    ('0' as int + d) as char
  }

  /** `str(n)` for a natural number: its decimal digits, most significant first. */
  function NatToString(n: nat): (s: string)
    ensures |s| >= 1
  {
    if n < 10 then [DigitChar(n)] else NatToString(n / 10) + [DigitChar(n % 10)]
  }

  /** The printed form is all digits, and has more than one exactly for numbers from 10 up. */
  lemma {:induction false} NatToStringDigits(n: nat)
    ensures var s := NatToString(n);
      && (forall i :: 0 <= i < |s| ==> '0' <= s[i] <= '9')
      && (n >= 10 <==> |s| >= 2)
  {
    if n >= 10 {
      NatToStringDigits(n / 10);
      var t := NatToString(n / 10);
      var s := NatToString(n);
      assert s == t + [DigitChar(n % 10)];
      forall i | 0 <= i < |s| ensures '0' <= s[i] <= '9' {
        if i < |t| { assert s[i] == t[i]; }
      }
    }
  }

  /** `str(i)` for any integer: a minus sign before the digits of a negative number. */
  function IntToString(i: int): (s: string)
    ensures |s| >= 1
  {
    if i < 0 then "-" + NatToString(-i) else NatToString(i)
  }

  /** The printed form starts with a minus sign exactly for negative numbers. */
  lemma IntToStringSign(i: int)
    ensures (i < 0) <==> IntToString(i)[0] == '-'
  {
    NatToStringDigits(if i < 0 then -i else i);
  }

  lemma DigitCharInjective(a: nat, b: nat)
    requires a < 10 && b < 10 && DigitChar(a) == DigitChar(b)
    ensures a == b
  {
  }

  /** Different numbers print differently. */
  lemma {:induction false} NatToStringInjective(m: nat, n: nat)
    requires NatToString(m) == NatToString(n)
    ensures m == n
  {
    NatToStringDigits(m);
    NatToStringDigits(n);
    var s := NatToString(m);
    if m >= 10 && n >= 10 {
      assert NatToString(m / 10) == s[..|s| - 1] == NatToString(n / 10);
      NatToStringInjective(m / 10, n / 10);
      DigitCharInjective(m % 10, n % 10);
    } else if m < 10 && n < 10 {
      DigitCharInjective(m, n);
    }
  }

  /** Different integers print differently. */
  lemma {:induction false} IntToStringInjective(i: int, j: int)
    requires IntToString(i) == IntToString(j)
    ensures i == j
  {
    IntToStringSign(i);
    IntToStringSign(j);
    var s := IntToString(i);
    if i < 0 {
      assert NatToString(-i) == s[1..] == NatToString(-j);
      NatToStringInjective(-i, -j);
    } else {
      NatToStringInjective(i, j);
    }
  }
}
