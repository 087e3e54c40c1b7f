/** Duplicate-freedom, order-preserving de-duplication and sums over sequences. */
module Seqs {

  /** No element occurs twice. */
  predicate Distinct<T(==)>(s: seq<T>) {
    forall i, j | 0 <= i < j < |s| :: s[i] != s[j]
  }

  /**
   * Keeps the first occurrence of every element, in the order of the input: the list a
   * `seen`-set comprehension builds, and the stand-in for Python's `list(set(xs))`.
   */
  function Dedup<T(==,!new)>(s: seq<T>): (r: seq<T>)
    ensures Distinct(r)
    ensures forall x :: x in r <==> x in s
    ensures |r| <= |s|
  {
    if |s| == 0 then []
    else
      var d := Dedup(s[..|s| - 1]);
      assert forall x :: x in s <==> x in s[..|s| - 1] || x == s[|s| - 1] by {
        assert s == s[..|s| - 1] + [s[|s| - 1]];
      }
      if s[|s| - 1] in d then d else d + [s[|s| - 1]]
  }

  /** A prefix one longer is the prefix followed by the next element. */
  lemma TakeSnoc<T>(s: seq<T>, i: nat)
    requires i < |s|
    ensures s[..i + 1] == s[..i] + [s[i]]
  {
  }

  /** Two duplicate-free lists with no common element concatenate to a duplicate-free list. */
  lemma DistinctConcat<T>(a: seq<T>, b: seq<T>)
    requires Distinct(a) && Distinct(b)
    requires forall x | x in a :: x !in b
    ensures Distinct(a + b)
  {
    forall i, j | 0 <= i < j < |a + b| ensures (a + b)[i] != (a + b)[j] {
      if j >= |a| && i < |a| {
        assert a[i] in a;
        assert (a + b)[j] == b[j - |a|];
      }
    }
  }

  /** The entries of `xs` whose gate is set, in their order in `xs`. */
  function Keep<T>(xs: seq<T>, gate: seq<bool>): (r: seq<T>)
    requires |gate| == |xs|
    ensures forall x | x in r :: x in xs
  {
    if xs == [] then [] else (if gate[0] then [xs[0]] else []) + Keep(xs[1..], gate[1..])
  }

  /** Gating a duplicate-free list keeps it duplicate-free, and an entry survives exactly when its gate is set. */
  lemma {:induction false} KeepGated<T>(xs: seq<T>, gate: seq<bool>)
    requires |gate| == |xs| && Distinct(xs)
    ensures Distinct(Keep(xs, gate))
    ensures forall k | 0 <= k < |xs| :: xs[k] in Keep(xs, gate) <==> gate[k]
  {
    if xs != [] {
      var head := if gate[0] then [xs[0]] else [];
      var rest := Keep(xs[1..], gate[1..]);
      assert Distinct(xs[1..]) by {
        forall i, j | 0 <= i < j < |xs[1..]| ensures xs[1..][i] != xs[1..][j] { assert xs[1..][i] == xs[i + 1]; }
      }
      KeepGated(xs[1..], gate[1..]);
      assert xs[0] !in rest;
      DistinctConcat(head, rest);
      forall k | 0 <= k < |xs| ensures xs[k] in head + rest <==> gate[k] {
        if k > 0 {
          assert xs[1..][k - 1] == xs[k] && gate[1..][k - 1] == gate[k];
          assert xs[k] != xs[0];
        }
      }
    }
  }

  /** Five duplicate-free lists, each sharing no element with the ones after it, concatenate to a duplicate-free list. */
  lemma DistinctConcatFive<T>(a: seq<T>, b: seq<T>, c: seq<T>, d: seq<T>, e: seq<T>)
    requires Distinct(a) && Distinct(b) && Distinct(c) && Distinct(d) && Distinct(e)
    requires forall x | x in a :: x !in b + c + d + e
    requires forall x | x in b :: x !in c + d + e
    requires forall x | x in c :: x !in d + e
    requires forall x | x in d :: x !in e
    ensures Distinct(a + b + c + d + e)
  {
    DistinctConcat(d, e);
    DistinctConcat(c, d + e);
    assert c + (d + e) == c + d + e;
    DistinctConcat(b, c + d + e);
    assert b + (c + d + e) == b + c + d + e;
    DistinctConcat(a, b + c + d + e);
    assert a + (b + c + d + e) == a + b + c + d + e;
  }

  /** De-duplicating a longer list extends the de-duplication of its front part. */
  lemma {:induction false} DedupPrefix<T(!new)>(a: seq<T>, b: seq<T>)
    ensures |Dedup(a)| <= |Dedup(a + b)|
    ensures Dedup(a + b)[..|Dedup(a)|] == Dedup(a)
    decreases |b|
  {
    if |b| == 0 {
      assert a + b == a;
    } else {
      var b' := b[..|b| - 1];
      DedupPrefix(a, b');
      assert (a + b)[..|a + b| - 1] == a + b';
    }
  }

  /** A duplicate-free list is its own de-duplication. */
  lemma {:induction false} DedupDistinct<T(!new)>(s: seq<T>)
    requires Distinct(s)
    ensures Dedup(s) == s
  {
    if |s| > 0 {
      var f := s[..|s| - 1];
      assert Distinct(f);
      DedupDistinct(f);
      assert s[|s| - 1] !in f;
      assert s == f + [s[|s| - 1]];
    }
  }

  /** A duplicate-free list has as many distinct elements as entries. */
  lemma {:induction false} DistinctCard<T>(s: seq<T>)
    requires Distinct(s)
    ensures |set x | x in s| == |s|
  {
    if |s| > 0 {
      var f := s[..|s| - 1];
      assert Distinct(f);
      DistinctCard(f);
      assert s == f + [s[|s| - 1]];
      assert (set x | x in s) == (set x | x in f) + {s[|s| - 1]};
    }
  }

  /** Sum of a list of amounts (Python's `sum`). */
  function Sum(xs: seq<real>): real {
    if |xs| == 0 then 0.0 else Sum(xs[..|xs| - 1]) + xs[|xs| - 1]
  }

  /** `sum / n`, or `fallback` with nothing to divide by. */
  function Mean(sum: real, n: nat, fallback: real): (m: real)
    ensures n == 0 ==> m == fallback
    ensures n > 0 ==> m * (n as real) == sum
    ensures n > 0 && 0.0 <= sum <= n as real ==> 0.0 <= m <= 1.0
  {
    if n == 0 then fallback
    else
      assert 0.0 <= sum <= n as real ==> sum / (n as real) * (n as real) <= 1.0 * (n as real);
      sum / (n as real)
  }

  lemma SumAppend(xs: seq<real>, x: real)
    ensures Sum(xs + [x]) == Sum(xs) + x
  {
    assert (xs + [x])[..|xs|] == xs;
  }
}
