/**
 * The string operations the service relies on, written out over `seq<char>`:
 * Python's `in` (substring test), `str.startswith`, `str.strip`, `str.lower`,
 * `str.replace`, `str.split` and the index of a first occurrence.
 */
module Text {

  import opened Wrappers

  /**
   * The ASCII characters Python's `str.strip()` removes (those `str.isspace()` accepts):
   * space, tab, line feed, vertical tab, form feed, carriage return and the four
   * separators 0x1C-0x1F.
   */
  predicate IsSpace(c: char) {
    c == ' ' || c == '\t' || c == '\n' || c == '\r' || c == '\U{0B}' || c == '\U{0C}' ||
    c == '\U{1C}' || c == '\U{1D}' || c == '\U{1E}' || c == '\U{1F}'
  }

  /** No whitespace at either end. */
  predicate IsStripped(s: string) {
    |s| == 0 || (!IsSpace(s[0]) && !IsSpace(s[|s| - 1]))
  }

  function StripLeft(s: string): (r: string)
    ensures |r| <= |s| && r == s[|s| - |r|..]
    ensures |r| == 0 || !IsSpace(r[0])
  {
    if |s| > 0 && IsSpace(s[0]) then StripLeft(s[1..]) else s
  }

  function StripRight(s: string): (r: string)
    ensures |r| <= |s| && r == s[..|r|]
    ensures |r| == 0 || !IsSpace(r[|r| - 1])
  {
    if |s| > 0 && IsSpace(s[|s| - 1]) then StripRight(s[..|s| - 1]) else s
  }

  /** Python's `s.strip()`: drops leading and trailing whitespace. */
  function Strip(s: string): string {
    StripRight(StripLeft(s))
  }

  /** The stripped string is whitespace-free at both ends and is a contiguous piece of the input. */
  lemma StripIsSlice(s: string) returns (i: nat, j: nat)
    ensures i <= j <= |s| && Strip(s) == s[i..j]
    ensures IsStripped(Strip(s))
  {
    var l := StripLeft(s);
    i := |s| - |l|;
    j := i + |StripRight(l)|;
    assert l == s[i..];
    assert StripRight(l) == l[..j - i];
    var r := Strip(s);
    if |r| > 0 {
      // the right strip never removes the first character, which the left strip already checked
      assert r[0] == l[0];
    }
  }

  lemma StripStripped(s: string)
    requires IsStripped(s)
    ensures Strip(s) == s
  {
  }

  lemma StripIdempotent(s: string)
    ensures Strip(Strip(s)) == Strip(s)
  {
    var _, _ := StripIsSlice(s);
    StripStripped(Strip(s));
  }

  /** Python's `c.lower()` on ASCII letters; every other character is kept. */
  function LowerChar(c: char): char {
    if 'A' <= c <= 'Z' then (c as int + 32) as char else c
  }

  function ToLower(s: string): (r: string)
    ensures |r| == |s|
    ensures forall i :: 0 <= i < |s| ==> r[i] == LowerChar(s[i])
  {
    seq(|s|, i requires 0 <= i < |s| => LowerChar(s[i]))
  }

  /** No two entries are equal once lowercased (a case-insensitive duplicate-free list). */
  predicate LowerDistinct(s: seq<string>) {
    forall i, j | 0 <= i < j < |s| :: ToLower(s[i]) != ToLower(s[j])
  }

  /** `pat` occurs in `s` starting at index `i`. */
  predicate OccursAt(s: string, pat: string, i: int) {
    0 <= i && i + |pat| <= |s| && s[i..i + |pat|] == pat
  }

  /** Python's `pat in s`. */
  predicate Contains(s: string, pat: string) {
    exists i | 0 <= i <= |s| - |pat| :: OccursAt(s, pat, i)
  }

  /** Python's `s.startswith(p)`. */
  predicate StartsWith(s: string, p: string) {
    |p| <= |s| && s[..|p|] == p
  }

  /** Occurrences in the second part of a concatenation are occurrences in that part. */
  lemma OccursShift(x: string, y: string, pat: string, p: int)
    requires p >= |x|
    ensures OccursAt(x + y, pat, p) <==> OccursAt(y, pat, p - |x|)
  {
    if p + |pat| <= |x + y| {
      assert (x + y)[p..p + |pat|] == y[p - |x|..p - |x| + |pat|];
    }
  }

  /**
   * Cutting the text from `start` on before `pat` ends at the first occurrence of `pat`
   * in `s` from `start` on, or at the end of `s`.
   */
  lemma BeforeFrom(s: string, start: nat, pat: string) returns (end: nat)
    requires |pat| > 0 && start <= |s|
    ensures end == start + |Before(s[start..], pat)| <= |s|
    ensures Before(s[start..], pat) == s[start..end]
    ensures end == |s| || OccursAt(s, pat, end)
    ensures forall k :: start <= k < end ==> !OccursAt(s, pat, k)
  {
    var x, y := s[..start], s[start..];
    assert x + y == s;
    var body := Before(y, pat);
    end := start + |body|;
    assert body == s[start..end];
    forall k | start <= k < end
      ensures !OccursAt(s, pat, k)
    {
      OccursShift(x, y, pat, k);
    }
    if end < |s| {
      assert Contains(y, pat);
      OccursShift(x, y, pat, end);
    }
  }

  /** An occurrence inside a piece of `s` is an occurrence in `s`, shifted by where the piece starts. */
  lemma OccursInSlice(s: string, pat: string, i: nat, j: nat, k: nat)
    requires i <= j <= |s|
    requires OccursAt(s[i..j], pat, k)
    ensures OccursAt(s, pat, i + k)
  {
    var t := s[i..j];
    assert forall m | 0 <= m < |pat| :: s[i + k + m] == t[k + m] == pat[m];
    assert s[i + k..i + k + |pat|] == pat;
  }

  lemma ContainsSlice(s: string, pat: string, i: nat, j: nat)
    requires i <= j <= |s|
    requires Contains(s[i..j], pat)
    ensures Contains(s, pat)
  {
    var k :| 0 <= k <= (j - i) - |pat| && OccursAt(s[i..j], pat, k);
    OccursInSlice(s, pat, i, j, k);
  }

  /** A string without `pat` has no piece with `pat` either. */
  lemma NotContainsSlice(s: string, pat: string, i: nat, j: nat)
    requires i <= j <= |s|
    requires !Contains(s, pat)
    ensures !Contains(s[i..j], pat)
  {
    if Contains(s[i..j], pat) {
      ContainsSlice(s, pat, i, j);
    }
  }

  lemma StripNotContains(s: string, pat: string)
    requires !Contains(s, pat)
    ensures !Contains(Strip(s), pat)
  {
    var i, j := StripIsSlice(s);
    NotContainsSlice(s, pat, i, j);
  }

  /**
   * Python's `s.replace(pat, rep)`: every occurrence of `pat`, found left to right
   * without overlap, is replaced by `rep`.
   */
  function ReplaceAll(s: string, pat: string, rep: string): (r: string)
    requires |pat| > 0
    requires |rep| <= |pat|
    ensures |r| <= |s|
    decreases |s|
  {
    if |s| < |pat| then
      s
    else if s[..|pat|] == pat then
      rep + ReplaceAll(s[|pat|..], pat, rep)
    else
      [s[0]] + ReplaceAll(s[1..], pat, rep)
  }

  /** An occurrence is either at the front or further on. */
  lemma ContainsUncons(s: string, pat: string)
    requires |pat| > 0 && |s| >= |pat|
    ensures Contains(s, pat) <==> OccursAt(s, pat, 0) || Contains(s[1..], pat)
  {
    if Contains(s[1..], pat) {
      assert s[1..|s|] == s[1..];
      ContainsSlice(s, pat, 1, |s|);
    }
    if Contains(s, pat) && !OccursAt(s, pat, 0) {
      var k :| 0 <= k <= |s| - |pat| && OccursAt(s, pat, k);
      assert s[1..][k - 1..k - 1 + |pat|] == s[k..k + |pat|];
      assert OccursAt(s[1..], pat, k - 1);
    }
  }

  /** Replacing a pattern by something strictly shorter shrinks any string that contains it. */
  lemma {:induction false} ReplaceAllShrinks(s: string, pat: string, rep: string)
    requires |pat| > 0 && |rep| < |pat|
    requires Contains(s, pat)
    ensures |ReplaceAll(s, pat, rep)| < |s|
    decreases |s|
  {
    ContainsUncons(s, pat);
    if s[..|pat|] != pat {
      ReplaceAllShrinks(s[1..], pat, rep);
    }
  }

  /** Without an occurrence, replacing changes nothing. */
  lemma {:induction false} ReplaceAllAbsent(s: string, pat: string, rep: string)
    requires |pat| > 0 && |rep| <= |pat|
    requires !Contains(s, pat)
    ensures ReplaceAll(s, pat, rep) == s
    decreases |s|
  {
    if |s| >= |pat| {
      ContainsUncons(s, pat);
      ReplaceAllAbsent(s[1..], pat, rep);
      assert s == [s[0]] + s[1..];
    }
  }

  /** Python's `s.find(pat)` when it is not -1: the first index where `pat` occurs. */
  function FirstIndex(s: string, pat: string): (r: Option<nat>)
    ensures r.Some? ==> OccursAt(s, pat, r.value)
    ensures r.Some? ==> forall k :: 0 <= k < r.value ==> !OccursAt(s, pat, k)
    ensures r.None? <==> !Contains(s, pat)
    decreases |s|
  {
    if |s| < |pat| then
      None
    else if s[..|pat|] == pat then
      Some(0)
    else
      var rest := FirstIndex(s[1..], pat);
      assert forall k :: 1 <= k <= |s| - |pat| ==> (OccursAt(s, pat, k) <==> OccursAt(s[1..], pat, k - 1)) by {
        forall k | 1 <= k <= |s| - |pat|
          ensures OccursAt(s, pat, k) <==> OccursAt(s[1..], pat, k - 1)
        {
          assert s[1..][k - 1..k - 1 + |pat|] == s[k..k + |pat|];
        }
      }
      if rest.None? then None else Some(rest.value + 1)
  }

  /** The text of `s` before the first occurrence of `pat`, or all of `s` (`s.split(pat)[0]`). */
  function Before(s: string, pat: string): (r: string)
    requires |pat| > 0
    ensures StartsWith(s, r)
    ensures !Contains(r, pat)
    ensures !Contains(s, pat) ==> r == s
    ensures Contains(s, pat) ==> OccursAt(s, pat, |r|)
    ensures forall k :: 0 <= k < |r| ==> !OccursAt(s, pat, k)
  {
    var i := FirstIndex(s, pat);
    if i.None? then s
    else
      assert !Contains(s[..i.value], pat) by {
        if Contains(s[..i.value], pat) {
          var k :| 0 <= k <= i.value - |pat| && OccursAt(s[..i.value], pat, k);
          OccursInSlice(s, pat, 0, i.value, k);
        }
      }
      s[..i.value]
  }

  /** The text of `s` after the first occurrence of `pat` (`s.split(pat, 1)[1]`), if there is one. */
  function After(s: string, pat: string): (r: Option<string>)
    ensures r.None? <==> !Contains(s, pat)
    ensures r.Some? ==> exists i :: OccursAt(s, pat, i) && r.value == s[i + |pat|..]
    ensures r.Some? ==> FirstIndex(s, pat).Some? && r.value == s[FirstIndex(s, pat).value + |pat|..]
  {
    var i := FirstIndex(s, pat);
    if i.None? then None else Some(s[i.value + |pat|..])
  }

  /** Python's `s.split(sep)` for a one-character separator: the pieces between separators. */
  function SplitOn(s: string, sep: char): (pieces: seq<string>)
    ensures |pieces| > 0
    ensures forall p :: p in pieces ==> sep !in p
    decreases |s|
  {
    if sep !in s then [s]
    else
      var i := IndexOfChar(s, sep);
      [s[..i]] + SplitOn(s[i + 1..], sep)
  }

  function IndexOfChar(s: string, c: char): (i: nat)
    requires c in s
    ensures i < |s| && s[i] == c && c !in s[..i]
  {
    if s[0] == c then 0 else IndexOfChar(s[1..], c) + 1
  }

  /** Python's `sep.join(pieces)`. */
  function Join(pieces: seq<string>, sep: char): string {
    if |pieces| == 0 then ""
    else if |pieces| == 1 then pieces[0]
    else pieces[0] + [sep] + Join(pieces[1..], sep)
  }

  /** Splitting and joining again gives back the original text. */
  lemma {:induction false} JoinSplit(s: string, sep: char)
    ensures Join(SplitOn(s, sep), sep) == s
    decreases |s|
  {
    if sep in s {
      var i := IndexOfChar(s, sep);
      var rest := s[i + 1..];
      var tail := SplitOn(rest, sep);
      JoinSplit(rest, sep);
      assert SplitOn(s, sep) == [s[..i]] + tail;
      assert ([s[..i]] + tail)[1..] == tail;
      assert Join([s[..i]] + tail, sep) == s[..i] + [sep] + Join(tail, sep);
      assert s == s[..i] + [sep] + rest;
    }
  }
}
