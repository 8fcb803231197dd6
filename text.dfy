/** The handful of Python `str` operations the modelled code relies on:
    `strip`/`rstrip`, `startswith`, `in`, `replace(p, '')`, ASCII `lower`/`upper`,
    and decimal rendering of non-negative integers. */
module Text {

  /** The ASCII characters `str.strip()` removes: space, tab, line feed,
      carriage return, vertical tab, form feed and the four separators
      0x1C to 0x1F. */
  const Whitespace: set<char> := {' ', '\t', '\n', '\r', '\U{0B}', '\U{0C}', '\U{1C}', '\U{1D}', '\U{1E}', '\U{1F}'}

  /** `s.lstrip(cs)`: drops the leading characters that belong to `cs`. */
  function TrimLeftOf(s: string, cs: set<char>): string {
    if s != [] && s[0] in cs then TrimLeftOf(s[1..], cs) else s
  }

  /** `s.rstrip(cs)`: drops the trailing characters that belong to `cs`. */
  function TrimRightOf(s: string, cs: set<char>): string {
    if s != [] && s[|s| - 1] in cs then TrimRightOf(s[..|s| - 1], cs) else s
  }

  /** `s.strip()`. */
  function Strip(s: string): string {
    TrimRightOf(TrimLeftOf(s, Whitespace), Whitespace)
  }

  /** Left trimming keeps a suffix, drops only characters of `cs`, and stops
      at the first character outside `cs`. */
  lemma {:induction false} TrimLeftOfSuffix(s: string, cs: set<char>)
    ensures var r := TrimLeftOf(s, cs);
      && |r| <= |s| && r == s[|s| - |r|..]
      && (forall i :: 0 <= i < |s| - |r| ==> s[i] in cs)
      && (r != [] ==> r[0] !in cs)
    decreases |s|
  {
    if s != [] && s[0] in cs {
      TrimLeftOfSuffix(s[1..], cs);
      var r := TrimLeftOf(s[1..], cs);
      assert s[1..][|s| - 1 - |r|..] == s[|s| - |r|..];
      assert forall i :: 1 <= i < |s| - |r| ==> s[i] == s[1..][i - 1];
    }
  }

  /** Right trimming keeps a prefix, drops only characters of `cs`, and stops
      at the last character outside `cs`. */
  lemma {:induction false} TrimRightOfPrefix(s: string, cs: set<char>)
    ensures var r := TrimRightOf(s, cs);
      && |r| <= |s| && r == s[..|r|]
      && (forall i :: |r| <= i < |s| ==> s[i] in cs)
      && (r != [] ==> r[|r| - 1] !in cs)
    decreases |s|
  {
    if s != [] && s[|s| - 1] in cs {
      TrimRightOfPrefix(s[..|s| - 1], cs);
      var r := TrimRightOf(s[..|s| - 1], cs);
      assert s[..|s| - 1][..|r|] == s[..|r|];
    }
  }

  /** A stripped string neither starts nor ends with whitespace. */
  lemma StripEnds(s: string)
    ensures var r := Strip(s); |r| <= |s| && (r != [] ==> r[0] !in Whitespace && r[|r| - 1] !in Whitespace)
  {
    var l := TrimLeftOf(s, Whitespace);
    TrimLeftOfSuffix(s, Whitespace);
    TrimRightOfPrefix(l, Whitespace);
    var r := TrimRightOf(l, Whitespace);
    if r != [] {
      assert r[0] == l[0];
    }
  }

  predicate StartsWith(s: string, prefix: string) {
    |prefix| <= |s| && s[..|prefix|] == prefix
  }

  predicate EndsWith(s: string, suffix: string) {
    |suffix| <= |s| && s[|s| - |suffix|..] == suffix
  }

  /** Python's `sub in s`. */
  predicate Contains(s: string, sub: string)
    decreases |s|
  {
    StartsWith(s, sub) || (s != [] && Contains(s[1..], sub))
  }

  /** `s.replace(p, '')`: removes the non-overlapping occurrences of `p`
      found scanning left to right. */
  function RemoveAll(s: string, p: string): (r: string)
    requires p != []
    ensures |r| <= |s|
    decreases |s|
  {
    if |s| < |p| then s
    else if s[..|p|] == p then RemoveAll(s[|p|..], p)
    else [s[0]] + RemoveAll(s[1..], p)
  }

  lemma {:induction false} RemoveAbsent(s: string, p: string)
    requires p != [] && !Contains(s, p)
    ensures RemoveAll(s, p) == s
    decreases |s|
  {
    if |s| >= |p| {
      assert s[..|p|] != p;
      RemoveAbsent(s[1..], p);
      assert [s[0]] + s[1..] == s;
    }
  }

  /** Removing a one-character pattern leaves no occurrence of that character. */
  lemma {:induction false} RemoveCharGone(s: string, c: char)
    ensures c !in RemoveAll(s, [c])
    decreases |s|
  {
    if |s| >= 1 {
      RemoveCharGone(s[1..], c);
    }
  }

  /** Removing a pattern never introduces a character. */
  lemma {:induction false} RemoveKeepsAbsent(s: string, p: string, c: char)
    requires p != [] && c !in s
    ensures c !in RemoveAll(s, p)
    decreases |s|
  {
    if |s| >= |p| {
      if s[..|p|] == p {
        RemoveKeepsAbsent(s[|p|..], p, c);
      } else {
        RemoveKeepsAbsent(s[1..], p, c);
      }
    }
  }

  /** A leading occurrence of the pattern is dropped. */
  lemma RemoveLeading(p: string, t: string)
    requires p != []
    ensures RemoveAll(p + t, p) == RemoveAll(t, p)
  {
    assert (p + t)[..|p|] == p;
    assert (p + t)[|p|..] == t;
  }

  /** A stretch without the pattern's first character passes through unchanged. */
  lemma {:induction false} RemoveSkipsPrefix(x: string, y: string, p: string)
    requires p != [] && p[0] !in x
    ensures RemoveAll(x + y, p) == x + RemoveAll(y, p)
    decreases |x|
  {
    if x != [] {
      var s := x + y;
      assert s[0] == x[0];
      if |s| >= |p| {
        assert s[..|p|] != p by {
          assert s[..|p|][0] == x[0];
        }
        assert s[1..] == x[1..] + y;
        RemoveSkipsPrefix(x[1..], y, p);
        assert [x[0]] + (x[1..] + RemoveAll(y, p)) == x + RemoveAll(y, p);
      } else {
        assert RemoveAll(y, p) == y;
      }
    } else {
      assert x + y == y;
    }
  }

  /** `s.strip()` leaves a string alone whose ends are not whitespace. */
  lemma StripKeeps(s: string)
    requires s != [] && s[0] !in Whitespace && s[|s| - 1] !in Whitespace
    ensures Strip(s) == s
  {
  }

  /** Stripping only removes characters: whatever it keeps comes from the input. */
  lemma StripWithin(s: string, c: char)
    requires c !in s
    ensures c !in Strip(s)
  {
    var l := TrimLeftOf(s, Whitespace);
    TrimLeftOfSuffix(s, Whitespace);
    assert forall i :: 0 <= i < |l| ==> l[i] == s[|s| - |l| + i];
    var r := TrimRightOf(l, Whitespace);
    TrimRightOfPrefix(l, Whitespace);
    assert forall i :: 0 <= i < |r| ==> r[i] == l[i];
  }

  function LowerChar(c: char): char {
    if 'A' <= c <= 'Z' then (c as int + 32) as char else c
  }

  function UpperChar(c: char): char {
    if 'a' <= c <= 'z' then (c as int - 32) as char else c
  }

  /** `s.lower()` restricted to ASCII letters. */
  function Lower(s: string): (r: string)
    ensures |r| == |s| && forall i :: 0 <= i < |s| ==> r[i] == LowerChar(s[i])
  {
    seq(|s|, i requires 0 <= i < |s| => LowerChar(s[i]))
  }

  /** `s.upper()` restricted to ASCII letters. */
  function Upper(s: string): (r: string)
    ensures |r| == |s| && forall i :: 0 <= i < |s| ==> r[i] == UpperChar(s[i])
  {
    seq(|s|, i requires 0 <= i < |s| => UpperChar(s[i]))
  }

  predicate IsDigit(c: char) {
    '0' <= c <= '9'
  }

  function DigitChar(d: nat): (c: char)
    requires d < 10
    ensures IsDigit(c) && c as int - '0' as int == d
  {
    ('0' as int + d) as char
  }

  /** `str(n)` for a non-negative integer. */
  function NatToString(n: nat): (r: string)
    decreases n
  {
    if n < 10 then [DigitChar(n)] else NatToString(n / 10) + [DigitChar(n % 10)]
  }

  /** `int(s)` for a string of decimal digits (0 for the empty string). */
  function DigitsValue(s: string): int
    decreases |s|
  {
    if s == [] then 0 else DigitsValue(s[..|s| - 1]) * 10 + (s[|s| - 1] as int - '0' as int)
  }

  /** Decimal rendering is non-empty, made of digits only, and reads back as `n`. */
  lemma {:induction false} NatToStringRoundTrip(n: nat)
    ensures NatToString(n) != []
    ensures forall i :: 0 <= i < |NatToString(n)| ==> IsDigit(NatToString(n)[i])
    ensures DigitsValue(NatToString(n)) == n
    decreases n
  {
    var s := NatToString(n);
    if n >= 10 {
      NatToStringRoundTrip(n / 10);
      assert s[..|s| - 1] == NatToString(n / 10);
    }
  }
}
