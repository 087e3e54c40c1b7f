/**
 * Python's ordering of strings (code point by code point, a proper prefix first) and
 * `sorted` on a list of strings, written as an insertion sort.
 */
module StringOrder {

  import opened Text

  /** `a <= b` on Python strings. */
  predicate LessEq(a: string, b: string) {
    |a| == 0 || (|b| > 0 && (a[0] < b[0] || (a[0] == b[0] && LessEq(a[1..], b[1..]))))
  }

  lemma {:induction false} LessEqTotal(a: string, b: string)
    ensures LessEq(a, b) || LessEq(b, a)
  {
    if |a| > 0 && |b| > 0 && a[0] == b[0] {
      LessEqTotal(a[1..], b[1..]);
    }
  }

  lemma {:induction false} LessEqTransitive(a: string, b: string, c: string)
    requires LessEq(a, b) && LessEq(b, c)
    ensures LessEq(a, c)
  {
    if |a| > 0 && a[0] == b[0] && b[0] == c[0] {
      LessEqTransitive(a[1..], b[1..], c[1..]);
    }
  }

  /** Every element is at most every later one. */
  predicate Sorted(s: seq<string>) {
    forall i, j | 0 <= i < j < |s| :: LessEq(s[i], s[j])
  }

  /** Putting an element at most the head in front of a sorted list keeps it sorted. */
  lemma InsertFront(x: string, s: seq<string>)
    requires Sorted(s) && |s| > 0 && LessEq(x, s[0])
    ensures Sorted([x] + s)
  {
    forall j | 0 <= j < |s| ensures LessEq(x, s[j]) {
      if j > 0 { LessEqTransitive(x, s[0], s[j]); }
    }
  }

  /** Keeping the head in front of the sorted insertion into the tail keeps the list sorted. */
  lemma InsertBehind(x: string, s: seq<string>, rest: seq<string>)
    requires Sorted(s) && |s| > 0 && !LessEq(x, s[0])
    requires Sorted(rest) && multiset(rest) == multiset(s[1..]) + multiset{x}
    ensures Sorted([s[0]] + rest)
    ensures multiset([s[0]] + rest) == multiset(s) + multiset{x}
  {
    LessEqTotal(x, s[0]);
    assert s == [s[0]] + s[1..];
    forall j | 0 <= j < |rest| ensures LessEq(s[0], rest[j]) {
      var e := rest[j];
      assert e in multiset(rest);
      if e != x {
        assert e in multiset(s[1..]);
        var k :| 0 <= k < |s[1..]| && s[1..][k] == e;
        assert s[k + 1] == e;
      }
    }
  }

  function Insert(x: string, s: seq<string>): (r: seq<string>)
    requires Sorted(s)
    ensures Sorted(r)
    ensures multiset(r) == multiset(s) + multiset{x}
  {
    if |s| == 0 then [x]
    else if LessEq(x, s[0]) then
      InsertFront(x, s);
      [x] + s
    else
      var rest := Insert(x, s[1..]);
      InsertBehind(x, s, rest);
      [s[0]] + rest
  }

  /** Python's `sorted(xs)` for strings: the same elements, in ascending order. */
  function Sort(s: seq<string>): (r: seq<string>)
    ensures Sorted(r)
    ensures multiset(r) == multiset(s)
  {
    if |s| == 0 then []
    else
      assert s == s[..|s| - 1] + [s[|s| - 1]];
      Insert(s[|s| - 1], Sort(s[..|s| - 1]))
  }

  /** Sorting neither adds nor loses an element. */
  lemma SortMembers(s: seq<string>)
    ensures forall x :: x in Sort(s) <==> x in s
  {
    forall x ensures x in Sort(s) <==> x in s {
      assert x in Sort(s) <==> x in multiset(Sort(s));
      assert x in s <==> x in multiset(s);
    }
  }

  /** Insertion puts `x` in at one position and leaves the rest of the list as it was. */
  lemma {:induction false} InsertSplices(x: string, s: seq<string>) returns (k: nat)
    requires Sorted(s)
    ensures k <= |s| && Insert(x, s) == s[..k] + [x] + s[k..]
  {
    if |s| == 0 || LessEq(x, s[0]) {
      k := 0;
      assert s[..0] + [x] + s[0..] == [x] + s;
    } else {
      var tail := s[1..];
      var k' := InsertSplices(x, tail);
      k := k' + 1;
      assert Insert(x, s) == [s[0]] + (tail[..k'] + [x] + tail[k'..]);
      assert s[..k] == [s[0]] + tail[..k'];
      assert s[k..] == tail[k'..];
    }
  }

  /** Splicing in a string whose lowercase form is new keeps a list case-insensitively duplicate-free. */
  lemma LowerDistinctSplice(x: string, s: seq<string>, k: nat)
    requires k <= |s| && LowerDistinct(s)
    requires forall e | e in s :: ToLower(e) != ToLower(x)
    ensures LowerDistinct(s[..k] + [x] + s[k..])
  {
    var r := s[..k] + [x] + s[k..];
    assert forall i | 0 <= i < k :: r[i] == s[i];
    assert forall i | k < i < |r| :: r[i] == s[i - 1];
    forall i, j | 0 <= i < j < |r| ensures ToLower(r[i]) != ToLower(r[j]) {
      if i == k {
        assert r[j] in s;
      } else if j == k {
        assert r[i] in s;
      }
    }
  }

  /** Inserting a string whose lowercase form is new keeps the list case-insensitively duplicate-free. */
  lemma InsertLowerDistinct(x: string, s: seq<string>)
    requires Sorted(s) && LowerDistinct(s)
    requires forall e | e in s :: ToLower(e) != ToLower(x)
    ensures LowerDistinct(Insert(x, s))
  {
    var k := InsertSplices(x, s);
    LowerDistinctSplice(x, s, k);
  }

  /** Sorting keeps a list case-insensitively duplicate-free. */
  lemma {:induction false} SortLowerDistinct(s: seq<string>)
    requires LowerDistinct(s)
    ensures LowerDistinct(Sort(s))
  {
    if |s| > 0 {
      var f := s[..|s| - 1];
      assert LowerDistinct(f);
      SortLowerDistinct(f);
      forall e | e in Sort(f) ensures ToLower(e) != ToLower(s[|s| - 1]) {
        assert e in multiset(Sort(f));
        assert e in f;
      }
      InsertLowerDistinct(s[|s| - 1], Sort(f));
    }
  }
}
