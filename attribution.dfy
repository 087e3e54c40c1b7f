/**
 * The attribute attribution pipeline of the loan-eligibility flow: cleaning the
 * attribute ids the model reports, checking them against the ids the service
 * actually read, and producing the final sorted, consent-filtered list.
 */
module Attribution {

  import opened Wrappers
  import opened Seqs
  import opened Text
  import opened StringOrder
  import opened Privacy
  import opened Store
  import Calendar

  /** The doubled prefix the cleaner collapses first, and what it becomes. */
  const DoubledAccounts := "savings_accounts.savings_accounts"
  const Accounts := "savings_accounts"

  /** The doubled prefix the cleaner collapses second, and what it becomes. */
  const DoubledGoals := "savings_goals.savings_goals"
  const Goals := "savings_goals"

  /**
   * `while pat in s: s = s.replace(pat, rep)`: replaces until no occurrence is left.
   * Each round shrinks the text, so the rewriting stops.
   */
  function Collapse(s: string, pat: string, rep: string): (r: string)
    requires |rep| < |pat|
    ensures !Contains(r, pat)
    ensures |r| <= |s|
    decreases |s|
  {
    if Contains(s, pat) then
      ReplaceAllShrinks(s, pat, rep);
      Collapse(ReplaceAll(s, pat, rep), pat, rep)
    else
      s
  }

  /** What `clean_attribute` computes. */
  function Clean(attr: string): string {
    Strip(Collapse(Collapse(attr, DoubledAccounts, Accounts), DoubledGoals, Goals))
  }

  /** `clean_attribute`: two rewrite loops, then `strip()`. */
  method CleanAttribute(attr: string) returns (r: string)
    ensures r == Clean(attr)
  {
    r := attr;
    while Contains(r, DoubledAccounts)
      invariant Collapse(r, DoubledAccounts, Accounts) == Collapse(attr, DoubledAccounts, Accounts)
      decreases |r|
    {
      ReplaceAllShrinks(r, DoubledAccounts, Accounts);
      r := ReplaceAll(r, DoubledAccounts, Accounts);
    }
    var mid := r;
    while Contains(r, DoubledGoals)
      invariant Collapse(r, DoubledGoals, Goals) == Collapse(mid, DoubledGoals, Goals)
      decreases |r|
    {
      ReplaceAllShrinks(r, DoubledGoals, Goals);
      r := ReplaceAll(r, DoubledGoals, Goals);
    }
    r := Strip(r);
  }

  /**
   * What the proof that the second loop cannot undo the first needs of the three
   * texts: `g` (`savings_goals`) starts `gg` (`savings_goals.savings_goals`), has a
   * character at index 11 (`l`) that `a` (`savings_accounts.savings_accounts`) lacks,
   * and the last character of `gg` is the first of `a`.
   */
  predicate Overlap(a: string, g: string, gg: string) {
    |g| == 13 && |gg| == 27 && |a| > 13 &&
    gg[..13] == g && g[11] !in a && gg[26] == a[0]
  }

  lemma CleanerPatternsOverlap()
    ensures Overlap(DoubledAccounts, Goals, DoubledGoals)
  {
  }

  /**
   * If one round of rewriting `gg` to `g` produces a text starting with `w`, and `w`
   * lacks `g[11]`, the original text started with `w` already.
   */
  lemma {:induction false} PrefixKept(t: string, w: string, g: string, gg: string)
    requires 11 < |g| < |gg| && gg[..|g|] == g
    ensures StartsWith(ReplaceAll(t, gg, g), w) && g[11] !in w ==> StartsWith(t, w)
    decreases |t|
  {
    var r := ReplaceAll(t, gg, g);
    if |t| < |gg| {
    } else if t[..|gg|] == gg {
      var rest := ReplaceAll(t[|gg|..], gg, g);
      assert r == g + rest;
      if |w| > 11 {
        if StartsWith(r, w) {
          assert w[11] == r[11] == g[11];
        }
      } else if StartsWith(r, w) {
        assert forall k | 0 <= k < |w| :: t[k] == gg[k] == g[k] == r[k] == w[k];
      }
    } else if |w| > 0 {
      var rest := ReplaceAll(t[1..], gg, g);
      assert r == [t[0]] + rest;
      PrefixKept(t[1..], w[1..], g, gg);
      if StartsWith(r, w) {
        assert StartsWith(rest, w[1..]) by {
          assert forall k | 0 <= k < |w| - 1 :: rest[k] == r[k + 1] == w[k + 1];
        }
        if g[11] !in w {
          assert g[11] !in w[1..];
          assert forall k | 1 <= k < |w| :: t[k] == t[1..][k - 1] == w[1..][k - 1] == w[k];
        }
      }
    }
  }

  /** After a rewritten `gg` at the front, no `a` can start within the first 12 characters. */
  lemma RewrittenFrontEarly(s: string, a: string, g: string, gg: string, p: int)
    requires Overlap(a, g, gg)
    requires |s| >= |gg| && s[..|gg|] == gg
    requires 0 <= p <= 11
    ensures !OccursAt(ReplaceAll(s, gg, g), a, p)
  {
    var r := ReplaceAll(s, gg, g);
    assert r == g + ReplaceAll(s[|gg|..], gg, g);
    if p + |a| <= |r| {
      assert r[11] == g[11];
      assert r[p..p + |a|][11 - p] == r[11];
    }
  }

  /** An `a` starting at the last character of the rewritten `g` was already in the text. */
  lemma RewrittenFrontLast(s: string, a: string, g: string, gg: string)
    requires Overlap(a, g, gg)
    requires |s| >= |gg| && s[..|gg|] == gg
    ensures OccursAt(ReplaceAll(s, gg, g), a, 12) ==> OccursAt(s, a, 26)
  {
    var tail := s[|gg|..];
    var rt := ReplaceAll(tail, gg, g);
    var r := ReplaceAll(s, gg, g);
    assert r == g + rt;
    if OccursAt(r, a, 12) {
      var w := a[1..];
      assert StartsWith(rt, w) by {
        assert forall k | 0 <= k < |w| :: rt[k] == r[13 + k] == r[12..12 + |a|][k + 1] == w[k];
      }
      assert g[11] !in w;
      PrefixKept(tail, w, g, gg);
      forall k | 0 <= k < |a| ensures s[26 + k] == a[k] {
        if k == 0 {
          assert s[26] == s[..|gg|][26];
        } else {
          assert s[26 + k] == tail[k - 1] == w[k - 1];
        }
      }
      assert s[26..26 + |a|] == a;
    }
  }

  /** When the first character is kept, an `a` starting there was already in the text. */
  lemma KeptFront(s: string, a: string, g: string, gg: string)
    requires Overlap(a, g, gg)
    requires |s| >= |gg| && s[..|gg|] != gg
    ensures OccursAt(ReplaceAll(s, gg, g), a, 0) ==> OccursAt(s, a, 0)
  {
    var rt := ReplaceAll(s[1..], gg, g);
    var r := ReplaceAll(s, gg, g);
    assert r == [s[0]] + rt;
    if OccursAt(r, a, 0) {
      var w := a[1..];
      assert StartsWith(rt, w) by {
        assert forall k | 0 <= k < |w| :: rt[k] == r[k + 1] == w[k];
      }
      assert g[11] !in w;
      PrefixKept(s[1..], w, g, gg);
      forall k | 0 <= k < |a| ensures s[k] == a[k] {
        if k > 0 {
          assert s[k] == s[1..][k - 1] == w[k - 1];
        }
      }
      assert s[..|a|] == a;
    }
  }

  /**
   * One round of rewriting `gg` to `g` never creates an occurrence of `a`: the only
   * overlap of `a` with `g` is the last character of `g`, and that `a` would have been
   * in the text before the rewrite.
   */
  lemma {:induction false} RoundKeepsAbsent(s: string, a: string, g: string, gg: string)
    requires Overlap(a, g, gg)
    requires !Contains(s, a)
    ensures !Contains(ReplaceAll(s, gg, g), a)
    decreases |s|
  {
    var r := ReplaceAll(s, gg, g);
    if |s| < |gg| {
    } else if s[..|gg|] == gg {
      var tail := s[|gg|..];
      NotContainsSlice(s, a, |gg|, |s|);
      assert s[|gg|..|s|] == tail;
      RoundKeepsAbsent(tail, a, g, gg);
      var rt := ReplaceAll(tail, gg, g);
      assert r == g + rt;
      forall p | 0 <= p <= |r| - |a| ensures !OccursAt(r, a, p) {
        if p <= 11 {
          RewrittenFrontEarly(s, a, g, gg, p);
        } else if p == 12 {
          RewrittenFrontLast(s, a, g, gg);
        } else {
          OccursShift(g, rt, a, p);
        }
      }
    } else {
      NotContainsSlice(s, a, 1, |s|);
      assert s[1..|s|] == s[1..];
      RoundKeepsAbsent(s[1..], a, g, gg);
      var rt := ReplaceAll(s[1..], gg, g);
      assert r == [s[0]] + rt;
      forall p | 0 <= p <= |r| - |a| ensures !OccursAt(r, a, p) {
        if p == 0 {
          KeptFront(s, a, g, gg);
        } else {
          OccursShift([s[0]], rt, a, p);
        }
      }
    }
  }

  /** So the whole second loop leaves a text without `savings_accounts` doublings without them. */
  lemma {:induction false} GoalsCollapseKeepsAccounts(s: string)
    requires !Contains(s, DoubledAccounts)
    ensures !Contains(Collapse(s, DoubledGoals, Goals), DoubledAccounts)
    decreases |s|
  {
    if Contains(s, DoubledGoals) {
      ReplaceAllShrinks(s, DoubledGoals, Goals);
      CleanerPatternsOverlap();
      RoundKeepsAbsent(s, DoubledAccounts, Goals, DoubledGoals);
      GoalsCollapseKeepsAccounts(ReplaceAll(s, DoubledGoals, Goals));
    }
  }

  /**
   * A cleaned attribute has no doubled `savings_accounts.` or `savings_goals.` prefix
   * anywhere and no whitespace at either end.
   */
  lemma CleanOutput(attr: string)
    ensures !Contains(Clean(attr), DoubledAccounts)
    ensures !Contains(Clean(attr), DoubledGoals)
    ensures IsStripped(Clean(attr))
  {
    var once := Collapse(attr, DoubledAccounts, Accounts);
    var twice := Collapse(once, DoubledGoals, Goals);
    GoalsCollapseKeepsAccounts(once);
    StripNotContains(twice, DoubledAccounts);
    StripNotContains(twice, DoubledGoals);
    var _, _ := StripIsSlice(twice);
  }

  /** Cleaning is idempotent. */
  lemma CleanIdempotent(attr: string)
    ensures Clean(Clean(attr)) == Clean(attr)
  {
    var c := Clean(attr);
    CleanOutput(attr);
    assert Collapse(c, DoubledAccounts, Accounts) == c;
    assert Collapse(c, DoubledGoals, Goals) == c;
    StripStripped(c);
  }

  /** `[clean_attribute(a) for a in attrs]` */
  function CleanAll(attrs: seq<string>): (r: seq<string>)
    ensures |r| == |attrs|
    ensures forall i | 0 <= i < |attrs| :: r[i] == Clean(attrs[i])
  {
    seq(|attrs|, i requires 0 <= i < |attrs| => Clean(attrs[i]))
  }

  /** `[clean_attribute(a) for a in attrs if a]`: empty entries are dropped before cleaning. */
  function CleanNonEmpty(attrs: seq<string>): (r: seq<string>)
    ensures |r| <= |attrs|
    ensures forall x | x in r :: exists a | a in attrs :: a != "" && x == Clean(a)
  {
    if |attrs| == 0 then []
    else
      var n := |attrs| - 1;
      var front := CleanNonEmpty(attrs[..n]);
      assert forall a | a in attrs[..n] :: a in attrs;
      if attrs[n] != "" then front + [Clean(attrs[n])] else front
  }

  /** A single entry is dropped when empty and cleaned otherwise. */
  lemma CleanNonEmptyOne(a: string)
    ensures CleanNonEmpty([a]) == if a != "" then [Clean(a)] else []
  {
    assert [a][..0] == [];
  }

  /** The comprehension distributes over concatenation, so the kept ids stay in input order. */
  lemma {:induction false} CleanNonEmptyAppend(a: seq<string>, b: seq<string>)
    ensures CleanNonEmpty(a + b) == CleanNonEmpty(a) + CleanNonEmpty(b)
    decreases |b|
  {
    if |b| == 0 {
      assert a + b == a;
    } else {
      var b', last := b[..|b| - 1], b[|b| - 1];
      var tail := if last != "" then [Clean(last)] else [];
      CleanNonEmptyAppend(a, b');
      assert (a + b)[..|a + b| - 1] == a + b';
      assert (a + b)[|a + b| - 1] == last;
      assert CleanNonEmpty(a + b) == CleanNonEmpty(a + b') + tail;
      assert CleanNonEmpty(b) == CleanNonEmpty(b') + tail;
    }
  }

  /** Every non-empty input id is kept, cleaned. */
  lemma {:induction false} CleanNonEmptyComplete(attrs: seq<string>)
    ensures forall a | a in attrs && a != "" :: Clean(a) in CleanNonEmpty(attrs)
  {
    if |attrs| > 0 {
      var n := |attrs| - 1;
      var front, last := attrs[..n], attrs[n];
      var tail := if last != "" then [Clean(last)] else [];
      CleanNonEmptyComplete(front);
      assert CleanNonEmpty(attrs) == CleanNonEmpty(front) + tail;
      forall a | a in attrs && a != ""
        ensures Clean(a) in CleanNonEmpty(attrs)
      {
        var m :| 0 <= m < |attrs| && attrs[m] == a;
        if m < n {
          assert front[m] == a;
        } else {
          assert m == n && a == last;
        }
      }
    }
  }

  /** Cleaning a list of already clean ids changes nothing. */
  lemma CleanAllFixed(attrs: seq<string>)
    requires forall x | x in attrs :: Clean(x) == x
    ensures CleanAll(attrs) == attrs
  {
  }

  /** Every cleaned id is its own cleaning. */
  lemma CleanAllClean(attrs: seq<string>)
    ensures forall x | x in CleanAll(attrs) :: Clean(x) == x
  {
    forall x | x in CleanAll(attrs) ensures Clean(x) == x {
      var i :| 0 <= i < |attrs| && CleanAll(attrs)[i] == x;
      CleanIdempotent(attrs[i]);
    }
  }

  /** `[x for x in xs if x in ys]` */
  function Kept(xs: seq<string>, ys: seq<string>): (r: seq<string>)
    ensures forall x :: x in r <==> x in xs && x in ys
  {
    if |xs| == 0 then []
    else
      var n := |xs| - 1;
      assert xs == xs[..n] + [xs[n]];
      if xs[n] in ys then Kept(xs[..n], ys) + [xs[n]] else Kept(xs[..n], ys)
  }

  /** `[x for x in xs if x not in ys]` */
  function Dropped(xs: seq<string>, ys: seq<string>): (r: seq<string>)
    ensures forall x :: x in r <==> x in xs && x !in ys
  {
    if |xs| == 0 then []
    else
      var n := |xs| - 1;
      assert xs == xs[..n] + [xs[n]];
      if xs[n] !in ys then Dropped(xs[..n], ys) + [xs[n]] else Dropped(xs[..n], ys)
  }

  /** Each entry of `xs` is kept or dropped, and not both: the two lists split `xs` as a multiset. */
  lemma {:induction false} KeptDroppedSplit(xs: seq<string>, ys: seq<string>)
    ensures multiset(Kept(xs, ys)) + multiset(Dropped(xs, ys)) == multiset(xs)
  {
    if |xs| > 0 {
      var n := |xs| - 1;
      KeptDroppedSplit(xs[..n], ys);
      assert xs == xs[..n] + [xs[n]];
    }
  }

  /** When nothing is dropped, everything is kept, in order. */
  lemma {:induction false} KeptAll(xs: seq<string>, ys: seq<string>)
    ensures (forall x | x in xs :: x in ys) ==> Kept(xs, ys) == xs
  {
    if |xs| > 0 {
      var n := |xs| - 1;
      assert forall x | x in xs[..n] :: x in xs;
      KeptAll(xs[..n], ys);
      assert xs == xs[..n] + [xs[n]];
    }
  }

  /** When every entry is in `ys`, nothing is dropped. */
  lemma {:induction false} DroppedNone(xs: seq<string>, ys: seq<string>)
    ensures (forall x | x in xs :: x in ys) ==> Dropped(xs, ys) == []
  {
    if |xs| > 0 {
      var n := |xs| - 1;
      assert forall x | x in xs[..n] :: x in xs;
      DroppedNone(xs[..n], ys);
      assert xs[n] in xs;
    }
  }

  /** The three outcomes of cross-checking reported against accessed ids. */
  datatype Status = Matched | Partial | Mismatch

  /** What `validate_attributes` returns, with the lists it derives that from. */
  datatype Validation = Validation(
    validated: seq<string>,
    status: Status,
    matched: seq<string>,
    unmatched: seq<string>,
    missing: seq<string>)

  /** The status rule: everything matched and as many as accessed, some matched, or none. */
  function StatusOf(matchedCount: nat, unmatchedCount: nat, accessedCount: nat): Status {
    if matchedCount == accessedCount && unmatchedCount == 0 then Matched
    else if matchedCount > 0 then Partial
    else Mismatch
  }

  /**
   * `validate_attributes`: the reported ids that were accessed (matched), those that
   * were not (unmatched), the accessed ids not reported (missing); the validated list
   * is matched followed by missing. Comparison is exact, and a duplicate in the
   * reported list counts once per copy.
   */
  function ValidateAttributes(reported: seq<string>, accessed: seq<string>): (v: Validation)
    ensures forall x :: x in v.validated <==> x in accessed
    ensures forall x :: x in v.matched <==> x in reported && x in accessed
    ensures forall x :: x in v.unmatched <==> x in reported && x !in accessed
    ensures forall x :: x in v.missing <==> x in accessed && x !in reported
  {
    var matched := Kept(reported, accessed);
    var unmatched := Dropped(reported, accessed);
    var missing := Dropped(accessed, reported);
    Validation(matched + missing, StatusOf(|matched|, |unmatched|, |accessed|), matched, unmatched, missing)
  }

  /** Matched and unmatched together are exactly the reported list, duplicates included. */
  lemma ValidationSplitsReported(reported: seq<string>, accessed: seq<string>)
    ensures var v := ValidateAttributes(reported, accessed);
      multiset(v.matched) + multiset(v.unmatched) == multiset(reported)
  {
    KeptDroppedSplit(reported, accessed);
  }

  /** The status is `matched` exactly when every reported id was accessed and the counts agree. */
  lemma ValidationMatched(reported: seq<string>, accessed: seq<string>)
    ensures ValidateAttributes(reported, accessed).status == Matched <==>
      (forall x | x in reported :: x in accessed) && |reported| == |accessed|
  {
    var v := ValidateAttributes(reported, accessed);
    KeptAll(reported, accessed);
    DroppedNone(reported, accessed);
    if |v.unmatched| > 0 {
      assert v.unmatched[0] in v.unmatched;
    }
  }

  /** The status is `mismatch` exactly when no reported id was accessed and the lists are not both empty. */
  lemma ValidationMismatch(reported: seq<string>, accessed: seq<string>)
    ensures ValidateAttributes(reported, accessed).status == Mismatch <==>
      (forall x | x in reported :: x !in accessed) && (|reported| > 0 || |accessed| > 0)
  {
    var v := ValidateAttributes(reported, accessed);
    ValidationMatched(reported, accessed);
    if |v.matched| > 0 {
      assert v.matched[0] in v.matched;
    }
    if |reported| > 0 {
      assert reported[0] in reported;
    }
  }

  /** Reporting exactly the accessed list is a full match with nothing missing. */
  lemma SameListMatches(attrs: seq<string>)
    ensures ValidateAttributes(attrs, attrs).status == Matched
    ensures ValidateAttributes(attrs, attrs).missing == []
  {
    ValidationMatched(attrs, attrs);
    DroppedNone(attrs, attrs);
  }

  /**
   * Duplicates inflate the match: reporting one accessed id twice "matches" two
   * accessed ids, although the second was never reported.
   */
  lemma DuplicatesInflateMatch()
    ensures ValidateAttributes(["user.income", "user.income"], ["user.income", "user.creditScore"]).status == Matched
    ensures "user.creditScore" !in ["user.income", "user.income"]
  {
    ValidationMatched(["user.income", "user.income"], ["user.income", "user.creditScore"]);
  }

  /** Some entry of `d` equals `x` once both are lowercased. */
  predicate HasCaselessMatch(d: seq<string>, x: string) {
    exists i | 0 <= i < |d| :: ToLower(d[i]) == ToLower(x)
  }

  lemma HasCaselessMatchAppend(d: seq<string>, c: string, x: string)
    ensures HasCaselessMatch(d + [c], x) <==> HasCaselessMatch(d, x) || ToLower(c) == ToLower(x)
  {
    if HasCaselessMatch(d, x) {
      var i :| 0 <= i < |d| && ToLower(d[i]) == ToLower(x);
      assert (d + [c])[i] == d[i];
    }
    if ToLower(c) == ToLower(x) {
      assert (d + [c])[|d|] == c;
    }
    if HasCaselessMatch(d + [c], x) {
      var i :| 0 <= i < |d + [c]| && ToLower((d + [c])[i]) == ToLower(x);
      if i < |d| {
        assert (d + [c])[i] == d[i];
      }
    }
  }

  /**
   * The first entry of each lowercase class, in input order: what the `final_seen`
   * loop keeps.
   */
  function DedupCaseless(xs: seq<string>): (r: seq<string>)
    ensures LowerDistinct(r)
    ensures |r| <= |xs|
    ensures forall x | x in r :: x in xs
    ensures forall x | x in xs :: HasCaselessMatch(r, x)
  {
    if |xs| == 0 then []
    else
      var n := |xs| - 1;
      var d := DedupCaseless(xs[..n]);
      assert xs == xs[..n] + [xs[n]];
      if HasCaselessMatch(d, xs[n]) then d
      else
        var r := d + [xs[n]];
        assert forall x | x in xs :: HasCaselessMatch(r, x) by {
          forall x | x in xs ensures HasCaselessMatch(r, x) {
            HasCaselessMatchAppend(d, xs[n], x);
          }
        }
        r
  }

  lemma CleanAllAppend(attrs: seq<string>, i: nat)
    requires i < |attrs|
    ensures CleanAll(attrs[..i + 1]) == CleanAll(attrs[..i]) + [Clean(attrs[i])]
  {
  }

  /** The final de-duplication loop of the loan flow, keyed by the lowercased cleaned id. */
  method FinalDedup(validated: seq<string>) returns (cleaned: seq<string>)
    ensures cleaned == DedupCaseless(CleanAll(validated))
  {
    var seen: set<string> := {};
    cleaned := [];
    for i := 0 to |validated|
      invariant cleaned == DedupCaseless(CleanAll(validated[..i]))
      invariant forall x :: ToLower(x) in seen <==> HasCaselessMatch(cleaned, x)
    {
      CleanAllAppend(validated, i);
      var attrClean := CleanAttribute(validated[i]);
      var attrLower := ToLower(attrClean);
      if attrLower !in seen {
        forall x ensures ToLower(x) in seen + {attrLower} <==> HasCaselessMatch(cleaned + [attrClean], x) {
          HasCaselessMatchAppend(cleaned, attrClean, x);
        }
        cleaned := cleaned + [attrClean];
        seen := seen + {attrLower};
      }
    }
    assert validated[..|validated|] == validated;
  }

  /** Every id of `accessed` is represented, up to case, by an id that made it to `final` or is denied. */
  predicate Represented(final: seq<string>, accessed: seq<string>, doc: PermissionDoc) {
    forall a | a in accessed ::
      exists y | y in accessed && ToLower(y) == ToLower(a) :: y in final || !IsAllowed(doc, y)
  }

  /** An allowed entry of a list survives the consent filter. */
  lemma FilterKeepsAllowed(doc: PermissionDoc, attrs: seq<string>, y: string)
    requires y in attrs && IsAllowed(doc, y)
    ensures y in Filtered(doc, attrs)
  {
    FilteredCount(doc, attrs, y);
    assert y in multiset(attrs);
    assert y in multiset(Filtered(doc, attrs));
  }

  /** Filtering a permutation of a list that covers `accessed` up to case leaves `accessed` represented. */
  lemma FilterRepresents(cleaned: seq<string>, ordered: seq<string>, accessed: seq<string>, doc: PermissionDoc)
    requires forall x | x in cleaned :: x in accessed
    requires forall a | a in accessed :: HasCaselessMatch(cleaned, a)
    requires multiset(ordered) == multiset(cleaned)
    ensures Represented(Filtered(doc, ordered), accessed, doc)
  {
    var final := Filtered(doc, ordered);
    forall a | a in accessed
      ensures exists y | y in accessed && ToLower(y) == ToLower(a) :: y in final || !IsAllowed(doc, y)
    {
      var i :| 0 <= i < |cleaned| && ToLower(cleaned[i]) == ToLower(a);
      var y := cleaned[i];
      assert y in multiset(cleaned);
      assert y in ordered;
      if IsAllowed(doc, y) {
        FilterKeepsAllowed(doc, ordered, y);
      }
      assert y in accessed && ToLower(y) == ToLower(a) && (y in final || !IsAllowed(doc, y));
    }
  }

  /** De-duplicating the validated ids (exactly the cleaned accessed ones) covers every accessed id up to case. */
  lemma DedupCoversAccessed(validated: seq<string>, accessed: seq<string>)
    requires forall x :: x in validated <==> x in accessed
    requires forall x | x in accessed :: Clean(x) == x
    ensures forall x | x in DedupCaseless(CleanAll(validated)) :: x in accessed
    ensures forall a | a in accessed :: HasCaselessMatch(DedupCaseless(CleanAll(validated)), a)
  {
    CleanAllFixed(validated);
  }

  /**
   * The tail of the loan flow's bookkeeping: `sorted` the de-duplicated ids, then keep
   * only what the user's consent allows.
   */
  method SortAndFilter(cleaned: seq<string>, accessed: seq<string>, doc: PermissionDoc)
    returns (final: seq<string>)
    requires LowerDistinct(cleaned)
    requires forall x | x in cleaned :: x in accessed
    requires forall a | a in accessed :: HasCaselessMatch(cleaned, a)
    ensures Sorted(final) && LowerDistinct(final)
    ensures forall x | x in final :: x in accessed && IsAllowed(doc, x)
    ensures Represented(final, accessed, doc)
  {
    var ordered := Sort(cleaned);
    SortLowerDistinct(cleaned);
    FilteredKeepsOrder(doc, ordered);
    FilterRepresents(cleaned, ordered, accessed, doc);
    SortMembers(cleaned);
    final := FilterAllowedAttributes(doc, ordered);
  }

  /**
   * From the validated ids (exactly the cleaned accessed ones) to the reported list:
   * the `final_seen` loop, then `sorted` and the consent filter.
   */
  method DedupSortFilter(validated: seq<string>, accessed: seq<string>, doc: PermissionDoc)
    returns (final: seq<string>)
    requires forall x :: x in validated <==> x in accessed
    requires forall x | x in accessed :: Clean(x) == x
    ensures Sorted(final) && LowerDistinct(final)
    ensures forall x | x in final :: x in accessed && IsAllowed(doc, x)
    ensures Represented(final, accessed, doc)
  {
    var cleaned := FinalDedup(validated);
    DedupCoversAccessed(validated, accessed);
    final := SortAndFilter(cleaned, accessed, doc);
  }

  /**
   * The attribute bookkeeping of `check_loan_eligibility`: clean the reported and the
   * accessed ids, cross-check them, de-duplicate case-insensitively, sort, and keep
   * only what the user's consent allows.
   */
  method ReconcileLoan(reported: seq<string>, accessed: seq<string>, doc: PermissionDoc)
    returns (final: seq<string>, status: Status)
    ensures status == ValidateAttributes(CleanNonEmpty(reported), CleanAll(accessed)).status
    ensures Sorted(final) && LowerDistinct(final)
    ensures forall x | x in final :: x in CleanAll(accessed) && IsAllowed(doc, x)
    ensures Represented(final, CleanAll(accessed), doc)
  {
    var aiReported := CleanNonEmpty(reported);
    var attributesAccessed := CleanAll(accessed);
    var v := ValidateAttributes(aiReported, attributesAccessed);
    CleanAllClean(accessed);
    final := DedupSortFilter(v.validated, attributesAccessed, doc);
    status := v.status;
  }

  /** A read the query logger recorded: the collection and the projected field names. */
  datatype LoggedQuery = LoggedQuery(collection: string, projection: seq<string>)

  /** `collection_map`: the attribute prefix of each known collection. */
  function TopicOf(collection: string): (topic: Option<string>)
    ensures topic.Some? <==> collection in {"users", "accounts", "transactions", "savings_accounts", "savings_goals"}
    ensures collection == "users" ==> topic == Some("user")
    ensures collection != "users" && topic.Some? ==> topic.value == collection
  {
    if collection == "users" then Some("user")
    else if collection in {"accounts", "transactions", "savings_accounts", "savings_goals"} then Some(collection)
    else None
  }

  /** `id` is `topic.field` for a field `q` projects from a known collection. */
  predicate LoggedBy(q: LoggedQuery, id: string) {
    TopicOf(q.collection).Some? && exists f | f in q.projection :: id == TopicOf(q.collection).value + "." + f
  }

  /** Some logged query produces `id`. */
  predicate Logged(queries: seq<LoggedQuery>, id: string) {
    exists q | q in queries :: LoggedBy(q, id)
  }

  /** A log is produced by its earlier queries or by its last one. */
  lemma LoggedSplit(queries: seq<LoggedQuery>)
    requires |queries| > 0
    ensures forall id :: Logged(queries, id) <==>
      Logged(queries[..|queries| - 1], id) || LoggedBy(queries[|queries| - 1], id)
  {
    var n := |queries| - 1;
    assert queries == queries[..n] + [queries[n]];
    forall id ensures Logged(queries, id) <==> Logged(queries[..n], id) || LoggedBy(queries[n], id) {
      if Logged(queries, id) {
        var q :| q in queries && LoggedBy(q, id);
        if q != queries[n] {
          assert q in queries[..n];
        }
      }
      if Logged(queries[..n], id) {
        var q :| q in queries[..n] && LoggedBy(q, id);
        assert q in queries;
      }
    }
  }

  /** The ids one logged query contributes, in projection order. */
  function FieldIds(q: LoggedQuery): (ids: seq<string>)
    ensures forall id :: id in ids <==> LoggedBy(q, id)
  {
    match TopicOf(q.collection)
    case None => []
    case Some(prefix) =>
      var ids := seq(|q.projection|, i requires 0 <= i < |q.projection| => prefix + "." + q.projection[i]);
      assert forall id | LoggedBy(q, id) :: id in ids by {
        forall id | LoggedBy(q, id) ensures id in ids {
          var f :| f in q.projection && id == prefix + "." + f;
          var i :| 0 <= i < |q.projection| && q.projection[i] == f;
          assert ids[i] == id;
        }
      }
      ids
  }

  /** The ids of all logged queries, in log order, before de-duplication. */
  function QueryAttributes(queries: seq<LoggedQuery>): (ids: seq<string>)
    ensures forall id :: id in ids <==> Logged(queries, id)
  {
    if |queries| == 0 then []
    else
      var n := |queries| - 1;
      var q := queries[n];
      assert queries == queries[..n] + [q];
      LoggedSplit(queries);
      QueryAttributes(queries[..n]) + FieldIds(q)
  }

  /**
   * `map_queries_to_attributes`: one `topic.field` id per projected field of a read on a
   * known collection, each once; reads of other collections contribute nothing.
   */
  function MapQueriesToAttributes(queries: seq<LoggedQuery>): (ids: seq<string>)
    ensures Distinct(ids)
    ensures forall id :: id in ids <==> Logged(queries, id)
  {
    Dedup(QueryAttributes(queries))
  }

  const UserGroup: seq<string> := ["user.dateOfBirth", "user.income", "user.creditScore", "user.employmentStatus"]
  const AccountGroup: seq<string> := ["accounts.balance", "accounts.accountType", "accounts.status"]
  const TransactionGroup: seq<string> :=
    ["transactions.amount", "transactions.category", "transactions.type", "transactions.createdAt"]
  const SavingsGroup: seq<string> := ["savings_accounts.balance", "savings_accounts.accountType"]
  const GoalGroup: seq<string> :=
    ["savings_goals.targetAmount", "savings_goals.currentAmount", "savings_goals.monthlyContribution", "savings_goals.status"]

  /** `part` if `on`, else nothing: one conditional `extend` of the attribute list. */
  function When(on: bool, part: seq<string>): (r: seq<string>)
    ensures forall x :: x in r <==> on && x in part
  {
    if on then part else []
  }

  /** The user-level ids the loan extractor appends, in the order it appends them. */
  function UserPart(dob: bool, income: bool, credit: bool, employment: bool): (ids: seq<string>)
    ensures forall x | x in ids :: x in UserGroup
    ensures "user.dateOfBirth" in ids <==> dob
    ensures "user.income" in ids <==> income
    ensures "user.creditScore" in ids <==> credit
    ensures "user.employmentStatus" in ids <==> employment
  {
    When(dob, ["user.dateOfBirth"]) + When(income, ["user.income"])
      + When(credit, ["user.creditScore"]) + When(employment, ["user.employmentStatus"])
  }

  /** No id belongs to two of the extractor's groups. */
  lemma GroupsDisjoint()
    ensures forall x | x in UserGroup :: x !in AccountGroup + TransactionGroup + SavingsGroup + GoalGroup
    ensures forall x | x in AccountGroup :: x !in TransactionGroup + SavingsGroup + GoalGroup
    ensures forall x | x in TransactionGroup :: x !in SavingsGroup + GoalGroup
    ensures forall x | x in SavingsGroup :: x !in GoalGroup
  {
  }

  /** In the extractor's list, an id of a group is present exactly when that group was appended. */
  lemma GroupMembership(u: seq<string>, a: bool, t: bool, s: bool, g: bool)
    requires forall x | x in u :: x in UserGroup
    ensures var all := u + When(a, AccountGroup) + When(t, TransactionGroup) + When(s, SavingsGroup) + When(g, GoalGroup);
      && (forall x | x in UserGroup :: x in all <==> x in u)
      && (forall x | x in AccountGroup :: x in all <==> a)
      && (forall x | x in TransactionGroup :: x in all <==> t)
      && (forall x | x in SavingsGroup :: x in all <==> s)
      && (forall x | x in GoalGroup :: x in all <==> g)
  {
    GroupsDisjoint();
  }

  /**
   * `ids` is duplicate-free and holds each user id exactly when its flag is set, and each
   * group's ids exactly when that group was read.
   */
  predicate GatedIds(ids: seq<string>, dob: bool, income: bool, credit: bool, employment: bool,
                     a: bool, t: bool, s: bool, g: bool) {
    && Distinct(ids)
    && ("user.dateOfBirth" in ids <==> dob)
    && ("user.income" in ids <==> income)
    && ("user.creditScore" in ids <==> credit)
    && ("user.employmentStatus" in ids <==> employment)
    && (forall id | id in AccountGroup :: id in ids <==> a)
    && (forall id | id in TransactionGroup :: id in ids <==> t)
    && (forall id | id in SavingsGroup :: id in ids <==> s)
    && (forall id | id in GoalGroup :: id in ids <==> g)
  }

  /**
   * The consent checks of the loan extractor, one per gating id: `check_attribute_permission`
   * on the user's permission document.
   */
  datatype LoanGates = LoanGates(
    dateOfBirth: bool, income: bool, creditScore: bool, employmentStatus: bool,
    accounts: bool, transactions: bool, savingsAccounts: bool, savingsGoals: bool)

  function LoanGatesOf(doc: PermissionDoc): (gates: LoanGates)
    ensures gates.dateOfBirth == IsAllowed(doc, "user.dateOfBirth")
    ensures gates.income == IsAllowed(doc, "user.income")
    ensures gates.creditScore == IsAllowed(doc, "user.creditScore")
    ensures gates.employmentStatus == IsAllowed(doc, "user.employmentStatus")
    ensures gates.accounts == IsAllowed(doc, "accounts.balance")
    ensures gates.transactions == IsAllowed(doc, "transactions.amount")
    ensures gates.savingsAccounts == IsAllowed(doc, "savings_accounts.balance")
    ensures gates.savingsGoals == IsAllowed(doc, "savings_goals.targetAmount")
  {
    LoanGates(
      IsAllowed(doc, "user.dateOfBirth"), IsAllowed(doc, "user.income"),
      IsAllowed(doc, "user.creditScore"), IsAllowed(doc, "user.employmentStatus"),
      IsAllowed(doc, "accounts.balance"), IsAllowed(doc, "transactions.amount"),
      IsAllowed(doc, "savings_accounts.balance"), IsAllowed(doc, "savings_goals.targetAmount"))
  }

  /** The attribute list the loan extractor returns when these blocks were read: every appended id, once. */
  function LoanAttributeIds(dob: bool, income: bool, credit: bool, employment: bool,
                            a: bool, t: bool, s: bool, g: bool): seq<string> {
    Dedup(UserPart(dob, income, credit, employment)
      + When(a, AccountGroup) + When(t, TransactionGroup) + When(s, SavingsGroup) + When(g, GoalGroup))
  }

  /** The extractor's list holds each user id exactly when its gate is open, and each group's ids exactly when it was read. */
  lemma LoanAttributeIdsGated(dob: bool, income: bool, credit: bool, employment: bool, a: bool, t: bool, s: bool, g: bool)
    ensures GatedIds(LoanAttributeIds(dob, income, credit, employment, a, t, s, g), dob, income, credit, employment, a, t, s, g)
  {
    GroupMembership(UserPart(dob, income, credit, employment), a, t, s, g);
  }

  /** The accounts part of the loan profile. */
  datatype AccountSummary = AccountSummary(totalBalance: real, accountTypes: seq<string>, activeAccountsCount: nat)

  /** The savings-accounts part of the loan profile. */
  datatype SavingsSummary = SavingsSummary(totalSavings: real, savingsAccountCount: nat)

  /** The savings-goals part of the loan profile. */
  datatype GoalSummary = GoalSummary(
    activeSavingsGoals: nat, totalGoalTargets: real, totalGoalCurrent: real, totalMonthlyContributions: real)

  /**
   * The `user_data` dict of the loan flow. A field of type `Option` is a key that may be
   * absent (`None`); `age` may also be present with the JSON null (`Some(Null)`).
   */
  datatype LoanProfile = LoanProfile(
    age: Option<Value>,
    income: Option<Value>,
    creditScore: Option<Value>,
    employmentStatus: Option<string>,
    name: string,
    accounts: Option<AccountSummary>,
    monthlySpending: Value,
    recentTransactionsCount: nat,
    savings: Option<SavingsSummary>,
    goals: Option<GoalSummary>)

  /** What the loan extractor hands to the model: the profile and the attributes it read. */
  datatype LoanData = LoanData(profile: LoanProfile, attributes: seq<string>)

  /** The user block of the loan extractor: the four consent-gated user fields. */
  method ExtractLoanUserFields(u: User, gates: LoanGates, today: Calendar.Date)
    returns (age: Option<Value>, income: Option<Value>, creditScore: Option<Value>,
             employmentStatus: Option<string>)
    ensures age == (if !gates.dateOfBirth then Some(Null)
                    else if u.dateOfBirth.Some? then Some(Int(Calendar.Age(u.dateOfBirth.value, today)))
                    else None)
    ensures income == (if gates.income then Some(NumOrNull(u.income)) else None)
    ensures creditScore == (if gates.creditScore then Some(NumOrNull(u.creditScore)) else None)
    ensures employmentStatus == (if gates.employmentStatus then Some(u.employmentStatus.GetOr("unknown")) else None)
  {
    age := None;
    if gates.dateOfBirth {
      if u.dateOfBirth.Some? {
        age := Some(Int(Calendar.Age(u.dateOfBirth.value, today)));
      }
    } else {
      age := Some(Null);
    }
    income := None;
    if gates.income {
      income := Some(NumOrNull(u.income));
    }
    creditScore := None;
    if gates.creditScore {
      creditScore := Some(NumOrNull(u.creditScore));
    }
    employmentStatus := None;
    if gates.employmentStatus {
      employmentStatus := Some(u.employmentStatus.GetOr("unknown"));
    }
  }

  /** The accounts block: gated by `accounts.balance`. */
  method ExtractLoanAccounts(allowed: bool, accounts: seq<Account>)
    returns (summary: Option<AccountSummary>)
    ensures summary == (if allowed then Some(AccountSummary(TotalBalance(accounts), AccountTypes(accounts), ActiveAccountCount(accounts))) else None)
  {
    summary := None;
    if allowed {
      summary := Some(AccountSummary(TotalBalance(accounts), AccountTypes(accounts), ActiveAccountCount(accounts)));
    }
  }

  /** The transactions block: gated by `transactions.amount`; the spending is the debit sum over six months. */
  method ExtractLoanTransactions(allowed: bool, txns: seq<Transaction>)
    returns (monthlySpending: Value, recentTransactionsCount: nat)
    ensures monthlySpending == (if allowed && |txns| > 0 then Num(DebitTotal(txns) / 6.0) else Int(0))
    ensures recentTransactionsCount == (if allowed then |txns| else 0)
  {
    if allowed {
      monthlySpending := if |txns| > 0 then Num(DebitTotal(txns) / 6.0) else Int(0);
      recentTransactionsCount := |txns|;
    } else {
      monthlySpending := Int(0);
      recentTransactionsCount := 0;
    }
  }

  /** The savings-accounts block: gated by `savings_accounts.balance`, and only for a non-empty list. */
  method ExtractLoanSavings(allowed: bool, savings: seq<SavingsAccount>)
    returns (summary: Option<SavingsSummary>)
    ensures summary == (if allowed && |savings| > 0 then Some(SavingsSummary(TotalSavings(savings), |savings|)) else None)
  {
    summary := None;
    if allowed {
      if |savings| > 0 {
        summary := Some(SavingsSummary(TotalSavings(savings), |savings|));
      }
    }
  }

  /** The savings-goals block: gated by `savings_goals.targetAmount`, and only for a non-empty list. */
  method ExtractLoanGoals(allowed: bool, goals: seq<Goal>)
    returns (summary: Option<GoalSummary>)
    ensures summary == (if allowed && |goals| > 0
      then Some(GoalSummary(ActiveGoalCount(goals), TotalTargets(goals), TotalCurrent(goals), TotalContributions(goals)))
      else None)
  {
    summary := None;
    if allowed {
      if |goals| > 0 {
        summary := Some(GoalSummary(ActiveGoalCount(goals), TotalTargets(goals), TotalCurrent(goals), TotalContributions(goals)));
      }
    }
  }

  /**
   * What `extract_user_data_for_loan` promises about the `user_data` it builds for user
   * `u`: each field or group is present only when its consent id is allowed
   * (`LoanGatesOf`), the optional lists only when non-empty; the name is always there.
   */
  predicate LoanProfileGated(p: LoanProfile, u: User, doc: PermissionDoc, accounts: seq<Account>, txns: seq<Transaction>,
                             savings: seq<SavingsAccount>, goals: seq<Goal>, today: Calendar.Date) {
    var gates := LoanGatesOf(doc);
    && p.name == FullName(u)
    && p.age == (if !gates.dateOfBirth then Some(Null)
                 else if u.dateOfBirth.Some? then Some(Int(Calendar.Age(u.dateOfBirth.value, today)))
                 else None)
    && (p.income.Some? <==> gates.income)
    && (p.creditScore.Some? <==> gates.creditScore)
    && (p.employmentStatus.Some? <==> gates.employmentStatus)
    && (p.accounts.Some? <==> gates.accounts)
    && (p.accounts.Some? ==> p.accounts.value.totalBalance == TotalBalance(accounts))
    && p.monthlySpending == (if gates.transactions && |txns| > 0 then Num(DebitTotal(txns) / 6.0) else Int(0))
    && p.recentTransactionsCount == (if gates.transactions then |txns| else 0)
    && (p.savings.Some? <==> gates.savingsAccounts && |savings| > 0)
    && (p.savings.Some? ==> p.savings.value == SavingsSummary(TotalSavings(savings), |savings|))
    && (p.goals.Some? <==> gates.savingsGoals && |goals| > 0)
    && (p.goals.Some? ==> p.goals.value.activeSavingsGoals == ActiveGoalCount(goals))
  }

  /** The attribute list the loan extractor returns for user `u`: the ids of the blocks it read, once each. */
  function LoanAttributesFor(u: User, doc: PermissionDoc, savings: seq<SavingsAccount>, goals: seq<Goal>): seq<string> {
    var gates := LoanGatesOf(doc);
    LoanAttributeIds(
      gates.dateOfBirth && u.dateOfBirth.Some?, gates.income, gates.creditScore, gates.employmentStatus,
      gates.accounts, gates.transactions, gates.savingsAccounts && |savings| > 0, gates.savingsGoals && |goals| > 0)
  }

  /** The dict-filling part of the loan extractor once the user document is found. */
  method ExtractLoanProfile(u: User, doc: PermissionDoc, accounts: seq<Account>, txns: seq<Transaction>,
                            savings: seq<SavingsAccount>, goals: seq<Goal>, today: Calendar.Date)
    returns (p: LoanProfile)
    ensures LoanProfileGated(p, u, doc, accounts, txns, savings, goals, today)
  {
    var gates := LoanGatesOf(doc);
    // Each block yields its keys of `user_data`; `None` is an absent key.
    var age, income, creditScore, employmentStatus := ExtractLoanUserFields(u, gates, today);
    var name := FullName(u);
    var accountSummary := ExtractLoanAccounts(gates.accounts, accounts);
    var monthlySpending, recentTransactionsCount := ExtractLoanTransactions(gates.transactions, txns);
    var savingsSummary := ExtractLoanSavings(gates.savingsAccounts, savings);
    var goalSummary := ExtractLoanGoals(gates.savingsGoals, goals);
    p := LoanProfile(age, income, creditScore, employmentStatus, name, accountSummary,
      monthlySpending, recentTransactionsCount, savingsSummary, goalSummary);
  }

  /**
   * `extract_user_data_for_loan`: a missing user is a 404; otherwise the profile obeys
   * `LoanProfileGated` and the attribute list is `LoanAttributesFor`. The accounts given are the user's non-closed ones and the
   * transactions the completed ones of the last 180 days (at most 100); the database
   * reads are outside the model.
   */
  method ExtractUserDataForLoan(
    user: Option<User>, doc: PermissionDoc, accounts: seq<Account>, txns: seq<Transaction>,
    savings: seq<SavingsAccount>, goals: seq<Goal>, today: Calendar.Date)
    returns (r: Result<LoanData, HttpError>)
    ensures r.Failure? <==> user.None?
    ensures r.Failure? ==> r.error == NotFound("User not found")
    ensures r.Success? ==> LoanProfileGated(r.value.profile, user.value, doc, accounts, txns, savings, goals, today)
    ensures r.Success? ==> r.value.attributes == LoanAttributesFor(user.value, doc, savings, goals)
  {
    if user.None? {
      return Failure(NotFound("User not found"));
    }
    var p := ExtractLoanProfile(user.value, doc, accounts, txns, savings, goals, today);
    // The ids the blocks extend `attributes_accessed` with, in block order, then `list(set(...))`.
    var attributes := LoanAttributesFor(user.value, doc, savings, goals);
    return Success(LoanData(p, attributes));
  }
}
