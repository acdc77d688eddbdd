/** String operations the services rely on: prefix and substring tests,
    whitespace stripping (Python `str.strip()` / JavaScript `trim()`),
    ASCII lower-casing, removal of every occurrence of a pattern
    (Python `str.replace(p, "")`), joining, and decimal rendering. */
module Strings {

  /** The ASCII whitespace characters that both Python's `strip()` and
      JavaScript's `trim()` remove (Python's also removes `\x1c`-`\x1f`,
      which this model keeps). */
  predicate IsSpace(c: char) {
    c == ' ' || c == '\t' || c == '\n' || c == '\r' || c == '\U{000B}' || c == '\U{000C}'
  }

  predicate AllSpace(s: string) {
    forall i :: 0 <= i < |s| ==> IsSpace(s[i])
  }

  lemma AllSpaceAppend(a: string, b: string)
    requires AllSpace(a) && AllSpace(b)
    ensures AllSpace(a + b)
  {
  }

  /** `s.startswith(p)` in Python, `s.startsWith(p)` in JavaScript. */
  predicate StartsWith(s: string, p: string) {
    p <= s
  }

  // ---------------------------------------------------------------------
  // Substring containment

  /** Reference meaning of "t occurs in s at offset i". */
  ghost predicate OccursAt(s: string, t: string, i: int) {
    0 <= i && i + |t| <= |s| && s[i..i + |t|] == t
  }

  /** `t in s` in Python, `s.includes(t)` in JavaScript, by scanning the
      suffixes of `s` for one that starts with `t`. */
  predicate Contains(s: string, t: string)
    decreases |s|
  {
    t <= s || (|s| > 0 && Contains(s[1..], t))
  }

  /** The scan finds `t` exactly when `t` occurs somewhere in `s`. */
  lemma {:induction false} ContainsIff(s: string, t: string)
    ensures Contains(s, t) <==> exists i :: OccursAt(s, t, i)
    decreases |s|
  {
    if t <= s {
      assert s[0..|t|] == t;
      assert OccursAt(s, t, 0);
    } else if |s| == 0 {
    } else {
      ContainsIff(s[1..], t);
      if Contains(s[1..], t) {
        var i :| OccursAt(s[1..], t, i);
        assert s[1..][i..i + |t|] == s[i + 1..i + 1 + |t|];
        assert OccursAt(s, t, i + 1);
      }
      forall i | OccursAt(s, t, i) && i > 0 ensures Contains(s[1..], t) {
        assert s[1..][i - 1..i - 1 + |t|] == s[i..i + |t|];
        assert OccursAt(s[1..], t, i - 1);
      }
    }
  }

  /** A string contains every piece it is built from. */
  lemma ContainsInfix(a: string, t: string, b: string)
    ensures Contains(a + t + b, t)
  {
    var s := a + t + b;
    assert s[|a|..|a| + |t|] == t;
    assert OccursAt(s, t, |a|);
    ContainsIff(s, t);
  }

  /** Whether any of the keywords occurs in `s` (a chain of `includes`
      joined by `||`). */
  predicate ContainsAny(s: string, keywords: seq<string>) {
    exists k :: 0 <= k < |keywords| && Contains(s, keywords[k])
  }

  // ---------------------------------------------------------------------
  // Stripping

  /** Number of whitespace characters at the start of `s`. */
  function LeadingSpaces(s: string): (n: nat)
    ensures n <= |s|
    ensures AllSpace(s[..n])
    ensures n < |s| ==> !IsSpace(s[n])
  {
    if |s| == 0 || !IsSpace(s[0]) then 0
    else
      var m := LeadingSpaces(s[1..]);
      assert s[..m + 1] == [s[0]] + s[1..][..m];
      AllSpaceAppend([s[0]], s[1..][..m]);
      assert m + 1 < |s| ==> s[m + 1] == s[1..][m];
      m + 1
  }

  /** Number of whitespace characters at the end of `s`. */
  function TrailingSpaces(s: string): (n: nat)
    ensures n <= |s|
    ensures AllSpace(s[|s| - n..])
    ensures n < |s| ==> !IsSpace(s[|s| - n - 1])
  {
    if |s| == 0 || !IsSpace(s[|s| - 1]) then 0
    else
      var init := s[..|s| - 1];
      var m := TrailingSpaces(init);
      assert s[|s| - (m + 1)..] == init[|init| - m..] + [s[|s| - 1]];
      AllSpaceAppend(init[|init| - m..], [s[|s| - 1]]);
      assert m + 1 < |s| ==> s[|s| - (m + 1) - 1] == init[|init| - m - 1];
      m + 1
  }

  /** `r` is `s` with all leading and trailing whitespace removed: `r` is a
      window of `s`, everything outside the window is whitespace, and the
      window neither starts nor ends with whitespace. */
  ghost predicate IsStripOf(s: string, r: string) {
    && (r == [] || (!IsSpace(r[0]) && !IsSpace(r[|r| - 1])))
    && exists i :: StripWindow(s, r, i)
  }

  ghost predicate StripWindow(s: string, r: string, i: int) {
    && 0 <= i && i + |r| <= |s|
    && s[i..i + |r|] == r
    && AllSpace(s[..i]) && AllSpace(s[i + |r|..])
  }

  /** A whitespace run ending at the first non-space character is the
      leading run counted by `LeadingSpaces`. */
  lemma {:induction false} LeadingSpacesUnique(s: string, i: int)
    requires 0 <= i <= |s| && AllSpace(s[..i])
    requires i < |s| ==> !IsSpace(s[i])
    ensures i == LeadingSpaces(s)
    decreases i
  {
    if i > 0 {
      assert s[..i][0] == s[0];
      assert s[1..][..i - 1] == s[..i][1..];
      LeadingSpacesUnique(s[1..], i - 1);
    }
  }

  /** A whitespace run starting after the last non-space character is the
      trailing run counted by `TrailingSpaces`. */
  lemma {:induction false} TrailingSpacesUnique(s: string, e: int)
    requires 0 <= e <= |s| && AllSpace(s[e..])
    requires 0 < e ==> !IsSpace(s[e - 1])
    ensures |s| - e == TrailingSpaces(s)
    decreases |s| - e
  {
    if e < |s| {
      var init := s[..|s| - 1];
      assert s[e..][|s| - 1 - e] == s[|s| - 1];
      assert init[e..] == s[e..][..|s| - 1 - e];
      TrailingSpacesUnique(init, e);
    }
  }

  /** Python `s.strip()` and JavaScript `s.trim()`, restricted to ASCII
      whitespace. */
  function Strip(s: string): (r: string)
    ensures |r| <= |s|
    ensures IsStripOf(s, r)
    ensures StripWindow(s, r, LeadingSpaces(s))
  {
    var a := LeadingSpaces(s);
    if a == |s| then
      assert StripWindow(s, [], a) by { assert s[..a] == s; }
      []
    else
      var b := TrailingSpaces(s);
      assert a < |s| - b;
      var r := s[a..|s| - b];
      assert StripWindow(s, r, a);
      r
  }

  /** The strip specification determines its result: any `r` meeting it is
      the result of `Strip`. */
  lemma StripUnique(s: string, r: string)
    requires IsStripOf(s, r)
    ensures r == Strip(s)
  {
    var i :| StripWindow(s, r, i);
    if r == [] {
      assert s == s[..i] + s[i..];
      AllSpaceAppend(s[..i], s[i..]);
      assert s[..|s|] == s;
      LeadingSpacesUnique(s, |s|);
    } else {
      assert s[i] == r[0];
      LeadingSpacesUnique(s, i);
      assert s[i + |r| - 1] == r[|r| - 1];
      TrailingSpacesUnique(s, i + |r|);
      assert Strip(s) == s[i..i + |r|];
    }
  }

  /** Stripping twice is stripping once. */
  lemma StripIdempotent(s: string)
    ensures Strip(Strip(s)) == Strip(s)
  {
    var r := Strip(s);
    assert StripWindow(r, r, 0) by {
      assert r[..0] == [] && r[|r|..] == [];
    }
    StripUnique(r, r);
  }

  /** A string strips to nothing exactly when it is all whitespace. */
  lemma StripEmptyIff(s: string)
    ensures Strip(s) == [] <==> AllSpace(s)
  {
    var r := Strip(s);
    var i := LeadingSpaces(s);
    if r == [] {
      assert s == s[..i] + s[i..];
    } else {
      assert s[i] == r[0];
    }
  }

  /** A string that neither starts nor ends with whitespace is unchanged by
      stripping. */
  lemma StripKeepsTrimmed(s: string)
    requires s == [] || (!IsSpace(s[0]) && !IsSpace(s[|s| - 1]))
    ensures Strip(s) == s
  {
    assert StripWindow(s, s, 0) by {
      assert s[..0] == [] && s[|s|..] == [];
    }
    StripUnique(s, s);
  }

  /** Whitespace appended at the end is stripped away again. */
  lemma StripIgnoresTrailingSpace(s: string, pad: string)
    requires AllSpace(pad)
    ensures Strip(s + pad) == Strip(s)
  {
    var r := Strip(s);
    var i := LeadingSpaces(s);
    var t := s + pad;
    assert t[i..i + |r|] == s[i..i + |r|];
    assert t[..i] == s[..i];
    assert t[i + |r|..] == s[i + |r|..] + pad;
    AllSpaceAppend(s[i + |r|..], pad);
    assert StripWindow(t, r, i);
    StripUnique(t, r);
  }

  // ---------------------------------------------------------------------
  // Lower-casing

  function LowerChar(c: char): char {
    if 'A' <= c <= 'Z' then (c as int + 32) as char else c
  }

  /** JavaScript `toLowerCase()` on the ASCII letters. */
  function ToLower(s: string): (r: string)
    ensures |r| == |s|
  {
    seq(|s|, i requires 0 <= i < |s| => LowerChar(s[i]))
  }

  // ---------------------------------------------------------------------
  // Removing every occurrence of a pattern

  /** Python `s.replace(p, "")`: scanning left to right, every
      non-overlapping occurrence of `p` is deleted; an empty pattern leaves
      `s` as it is. */
  function RemoveAll(s: string, p: string): (r: string)
    ensures |r| <= |s|
    decreases |s|
  {
    if |p| == 0 || |s| < |p| then s
    else if p <= s then RemoveAll(s[|p|..], p)
    else [s[0]] + RemoveAll(s[1..], p)
  }

  /** A string that does not contain the pattern comes back unchanged. */
  lemma {:induction false} RemoveAllAbsent(s: string, p: string)
    requires !Contains(s, p)
    ensures RemoveAll(s, p) == s
    decreases |s|
  {
    if |p| == 0 || |s| < |p| {
    } else {
      assert !(p <= s);
      RemoveAllAbsent(s[1..], p);
      assert s == [s[0]] + s[1..];
    }
  }

  /** An occurrence at the very start is deleted and the scan resumes after
      it. */
  lemma RemoveAllPrefix(p: string, t: string)
    requires |p| > 0
    ensures RemoveAll(p + t, p) == RemoveAll(t, p)
  {
    assert p <= p + t;
    assert (p + t)[|p|..] == t;
  }

  // ---------------------------------------------------------------------
  // Joining and rendering

  /** JavaScript `parts.join(sep)` and Python `sep.join(parts)`. */
  function Join(parts: seq<string>, sep: string): string
  {
    if |parts| == 0 then ""
    else if |parts| == 1 then parts[0]
    else parts[0] + sep + Join(parts[1..], sep)
  }

  /** JavaScript `s.split(c)` for a one-character separator: the pieces
      between separators, always at least one. */
  function Split(s: string, c: char): (parts: seq<string>)
    ensures |parts| >= 1
    ensures forall k :: 0 <= k < |parts| ==> c !in parts[k]
    decreases |s|
  {
    if |s| == 0 then [""]
    else
      var rest := Split(s[1..], c);
      if s[0] == c then [""] + rest
      else [[s[0]] + rest[0]] + rest[1..]
  }

  /** Joining the pieces with the separator gives the string back. */
  lemma {:induction false} JoinSplit(s: string, c: char)
    ensures Join(Split(s, c), [c]) == s
    decreases |s|
  {
    if |s| > 0 {
      var rest := Split(s[1..], c);
      JoinSplit(s[1..], c);
      if s[0] == c {
        assert ([""] + rest)[1..] == rest;
      } else {
        var parts := [[s[0]] + rest[0]] + rest[1..];
        if |rest| > 1 {
          assert parts[1..] == rest[1..];
        }
      }
    }
  }

  /** A piece without the separator splits to itself. */
  lemma {:induction false} SplitPlain(a: string, c: char)
    requires c !in a
    ensures Split(a, c) == [a]
    decreases |a|
  {
    if |a| > 0 {
      SplitPlain(a[1..], c);
      assert [a[0]] + a[1..] == a;
    }
  }

  /** A piece followed by the separator splits off as the first part. */
  lemma {:induction false} SplitAtSeparator(a: string, c: char, t: string)
    requires c !in a
    ensures Split(a + [c] + t, c) == [a] + Split(t, c)
    decreases |a|
  {
    var s := a + [c] + t;
    if |a| == 0 {
      assert s[1..] == t;
    } else {
      assert s[1..] == a[1..] + [c] + t;
      SplitAtSeparator(a[1..], c, t);
      assert [a[0]] + a[1..] == a;
    }
  }

  /** Splitting undoes joining, for pieces free of the separator. */
  lemma {:induction false} SplitJoin(parts: seq<string>, c: char)
    requires |parts| >= 1
    requires forall k :: 0 <= k < |parts| ==> c !in parts[k]
    ensures Split(Join(parts, [c]), c) == parts
    decreases |parts|
  {
    if |parts| == 1 {
      SplitPlain(parts[0], c);
    } else {
      SplitJoin(parts[1..], c);
      SplitAtSeparator(parts[0], c, Join(parts[1..], [c]));
    }
  }

  function DigitChar(d: nat): char
    requires d < 10
  {
    ('0' as int + d) as char
  }

  /** Reference definition: the number a string of decimal digits denotes,
      read most significant digit first. */
  function DigitsValue(r: string): nat
    requires forall i :: 0 <= i < |r| ==> '0' <= r[i] <= '9'
    decreases |r|
  {
    if |r| == 0 then 0
    else DigitsValue(r[..|r| - 1]) * 10 + (r[|r| - 1] as int - '0' as int)
  }

  /** Decimal rendering of a natural number, as `${n}` and `str(n)` give:
      digits denoting `n`, with no leading zero except for `0` itself. */
  function NatToString(n: nat): (r: string)
    ensures |r| > 0
    ensures forall i :: 0 <= i < |r| ==> '0' <= r[i] <= '9'
    ensures DigitsValue(r) == n
    ensures r[0] == '0' <==> n == 0
    ensures n == 0 ==> r == "0"
    decreases n
  {
    if n < 10 then [DigitChar(n)]
    else
      var init := NatToString(n / 10);
      var r := init + [DigitChar(n % 10)];
      assert r[..|r| - 1] == init;
      assert r[0] == init[0];
      r
  }

  /** Different numbers render differently, so a rendered status names
      its number. */
  lemma NatToStringInjective(a: nat, b: nat)
    requires NatToString(a) == NatToString(b)
    ensures a == b
  {
  }
}
