/** The list of origins the API's CORS middleware accepts. */
module Cors {

  import opened Wrappers
  import opened Seqs
  import opened Text

  /** The development and deployment front-ends, always allowed. */
  const DefaultOrigins: seq<string> := [
    "http://localhost:3000",
    "http://localhost:3001",
    "http://127.0.0.1:3000",
    "http://127.0.0.1:3001",
    "https://ethical-bank-ghci-dods.vercel.app"
  ]

  lemma DefaultOriginsDistinct()
    ensures |DefaultOrigins| == 5 && Distinct(DefaultOrigins)
  {
  }

  /** The stripped pieces that are not blank, in order. */
  function NonBlank(pieces: seq<string>): (r: seq<string>)
    ensures |r| <= |pieces|
  {
    if |pieces| == 0 then []
    else
      var last := Strip(pieces[|pieces| - 1]);
      if last == "" then NonBlank(pieces[..|pieces| - 1]) else NonBlank(pieces[..|pieces| - 1]) + [last]
  }

  /** `o` is the stripped form of one of the pieces. */
  predicate StrippedFrom(pieces: seq<string>, o: string) {
    exists p | p in pieces :: Strip(p) == o
  }

  /** Every non-blank stripped piece is kept. */
  lemma {:induction false} NonBlankComplete(pieces: seq<string>)
    ensures forall p | p in pieces && Strip(p) != "" :: Strip(p) in NonBlank(pieces)
  {
    if |pieces| > 0 {
      var front := pieces[..|pieces| - 1];
      var last := pieces[|pieces| - 1];
      var kept := NonBlank(front);
      NonBlankComplete(front);
      assert NonBlank(pieces) == if Strip(last) == "" then kept else kept + [Strip(last)];
      forall p | p in pieces && Strip(p) != ""
        ensures Strip(p) in NonBlank(pieces)
      {
        var m :| 0 <= m < |pieces| && pieces[m] == p;
        if m < |pieces| - 1 {
          assert front[m] == p;
        }
      }
    }
  }

  /** Every kept origin is non-blank, already stripped, and the stripped form of a piece. */
  lemma {:induction false} NonBlankSound(pieces: seq<string>)
    ensures forall o | o in NonBlank(pieces) :: o != "" && Strip(o) == o && StrippedFrom(pieces, o)
  {
    if |pieces| > 0 {
      var front := pieces[..|pieces| - 1];
      var last := pieces[|pieces| - 1];
      var kept := NonBlank(front);
      NonBlankSound(front);
      StripIdempotent(last);
      assert NonBlank(pieces) == if Strip(last) == "" then kept else kept + [Strip(last)];
      forall o | o in NonBlank(pieces)
        ensures o != "" && Strip(o) == o && StrippedFrom(pieces, o)
      {
        if o in kept {
          var p :| p in front && Strip(p) == o;
          assert p in pieces;
        } else {
          assert o == Strip(last) && last in pieces;
        }
      }
    }
  }

  /** An origin is kept exactly when it is the non-blank stripped form of some piece; it is then stripped already. */
  lemma NonBlankMembers(pieces: seq<string>)
    ensures forall o :: o in NonBlank(pieces) <==> StrippedFrom(pieces, o) && o != ""
    ensures forall o | o in NonBlank(pieces) :: o != "" && Strip(o) == o
  {
    NonBlankComplete(pieces);
    NonBlankSound(pieces);
  }

  /**
   * The extra origins of `ALLOWED_ORIGINS` (empty when unset): split on commas, each piece
   * stripped, blank pieces dropped.
   */
  function EnvOrigins(allowed: Option<string>): (r: seq<string>)
    ensures forall o | o in r :: o != "" && Strip(o) == o && ',' !in o
  {
    var pieces := SplitOn(allowed.GetOr(""), ',');
    var r := NonBlank(pieces);
    NonBlankMembers(pieces);
    assert forall o | o in r :: ',' !in o by {
      forall o | o in r ensures ',' !in o {
        var p :| p in pieces && Strip(p) == o;
        var a, b := StripIsSlice(p);
        assert forall c | c in p[a..b] :: c in p;
      }
    }
    r
  }

  /** Unset, empty or all-blank settings add nothing. */
  lemma NoExtraOrigins()
    ensures EnvOrigins(None) == [] && EnvOrigins(Some("")) == []
  {
    assert SplitOn("", ',') == [""];
    assert Strip("") == "";
  }

  /** The index of the first occurrence of `x` in `s`. */
  function FirstAt<T(==)>(s: seq<T>, x: T): (i: nat)
    requires x in s
    ensures i < |s| && s[i] == x && x !in s[..i]
  {
    if s[0] == x then 0 else FirstAt(s[1..], x) + 1
  }

  /** The first occurrence of an element of a front part is the same in the whole list. */
  lemma FirstAtPrefix<T>(s: seq<T>, n: nat, x: T)
    requires n <= |s| && x in s[..n]
    ensures FirstAt(s, x) == FirstAt(s[..n], x)
  {
    var i := FirstAt(s[..n], x);
    var k := FirstAt(s, x);
    assert s[..n][..i] == s[..i];
  }

  /** Every element of a front part `s[..n]` first occurs where it first occurs in that front part. */
  lemma FirstAtFront<T>(s: seq<T>, n: nat)
    requires n <= |s|
    ensures forall x | x in s[..n] :: x in s && FirstAt(s, x) == FirstAt(s[..n], x) && FirstAt(s, x) < n
  {
    forall x | x in s[..n]
      ensures x in s && FirstAt(s, x) == FirstAt(s[..n], x) && FirstAt(s, x) < n
    {
      var i := FirstAt(s[..n], x);
      assert s[i] == x;
      FirstAtPrefix(s, n, x);
    }
  }

  /** De-duplication keeps elements in the order of their first occurrence. */
  lemma {:induction false} DedupFirstOrder<T(!new)>(s: seq<T>)
    ensures forall i, j | 0 <= i < j < |Dedup(s)| :: FirstAt(s, Dedup(s)[i]) < FirstAt(s, Dedup(s)[j])
  {
    if |s| > 0 {
      var n := |s| - 1;
      var front := s[..n];
      DedupFirstOrder(front);
      var d := Dedup(front);
      FirstAtFront(s, n);
      var r := Dedup(s);
      assert r == if s[n] in d then d else d + [s[n]];
      forall i, j | 0 <= i < j < |r|
        ensures FirstAt(s, r[i]) < FirstAt(s, r[j])
      {
        assert r[i] == d[i];
        if j < |d| {
          assert r[j] == d[j];
        } else {
          assert s[n] !in front;
          assert r[j] == s[n] && FirstAt(s, s[n]) == n;
        }
      }
    }
  }

  /** The comprehension with the `seen` set: the first occurrence of each origin, in order. */
  method DedupOrigins(origins: seq<string>) returns (allowed: seq<string>)
    ensures allowed == Dedup(origins)
  {
    var seen: set<string> := {};
    allowed := [];
    for i := 0 to |origins|
      invariant allowed == Dedup(origins[..i])
      invariant seen == set x | x in origins[..i]
    {
      assert origins[..i + 1][..i] == origins[..i];
      assert origins[..i + 1] == origins[..i] + [origins[i]];
      if origins[i] !in seen {
        allowed := allowed + [origins[i]];
      }
      seen := seen + {origins[i]};
    }
    assert origins[..|origins|] == origins;
  }

  /**
   * The allowed origins: defaults then the environment's, each once, the defaults first and
   * in their own order, and no origin that is in neither list.
   */
  method AllowedOrigins(allowedSetting: Option<string>) returns (allowed: seq<string>)
    ensures allowed == Dedup(DefaultOrigins + EnvOrigins(allowedSetting))
    ensures Distinct(allowed)
    ensures |allowed| >= |DefaultOrigins| && allowed[..|DefaultOrigins|] == DefaultOrigins
    ensures forall o :: o in allowed <==> o in DefaultOrigins || o in EnvOrigins(allowedSetting)
  {
    var defaults := DefaultOrigins;
    var env := EnvOrigins(allowedSetting);
    allowed := DedupOrigins(defaults + env);
    DefaultOriginsDistinct();
    DistinctFirst(defaults, env);
  }

  /** A duplicate-free front list opens the de-duplicated list unchanged. */
  lemma DistinctFirst<T(!new)>(front: seq<T>, rest: seq<T>)
    requires Distinct(front)
    ensures |Dedup(front + rest)| >= |front| && Dedup(front + rest)[..|front|] == front
  {
    DedupDistinct(front);
    DedupPrefix(front, rest);
  }
}
