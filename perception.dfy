/**
 * The AI perception service: the spending-wisdom tally over recent transactions, the
 * perception attributes with their defaults, the 24-hour perception cache and the
 * dispute that marks one attribute as disputed.
 */
module Perception {

  import opened Wrappers
  import opened Tally
  import opened Store
  import opened Privacy
  import opened Seqs

  // ---------------------------------------------------------------------------
  // Spending wisdom
  // ---------------------------------------------------------------------------

  /** What the tally reads of a recent debit: its category and its `aiAnalysis` fields, each optional. */
  datatype WisdomRecord = WisdomRecord(category: Option<string>, wisdom: Option<string>, score: Option<real>)

  /** `ai_analysis.get("spendingWisdom", "neutral")` */
  function WisdomOf(r: WisdomRecord): string {
    r.wisdom.GetOr("neutral")
  }

  /** `ai_analysis.get("wisdomScore", 0.5)` */
  function ScoreOf(r: WisdomRecord): real {
    r.score.GetOr(0.5)
  }

  /** `txn.get("category", "other")` */
  function CategoryOf(r: WisdomRecord): string {
    r.category.GetOr("other")
  }

  function WiseCount(rs: seq<WisdomRecord>): nat {
    if |rs| == 0 then 0 else WiseCount(rs[..|rs| - 1]) + (if WisdomOf(rs[|rs| - 1]) == "wise" then 1 else 0)
  }

  function UnwiseCount(rs: seq<WisdomRecord>): nat {
    if |rs| == 0 then 0 else UnwiseCount(rs[..|rs| - 1]) + (if WisdomOf(rs[|rs| - 1]) == "unwise" then 1 else 0)
  }

  function ScoreSum(rs: seq<WisdomRecord>): real {
    if |rs| == 0 then 0.0 else ScoreSum(rs[..|rs| - 1]) + ScoreOf(rs[|rs| - 1])
  }

  /** No transaction counts as both wise and unwise. */
  lemma {:induction false} WiseUnwiseBound(rs: seq<WisdomRecord>)
    ensures WiseCount(rs) + UnwiseCount(rs) <= |rs|
  {
    if |rs| > 0 {
      WiseUnwiseBound(rs[..|rs| - 1]);
    }
  }

  /** `category_wisdom`: per category (insertion order), a count per wisdom label. */
  type CategoryWisdom = seq<(string, Tally)>

  /** `{"wise": 0, "unwise": 0, "neutral": 0}` */
  const FreshCounts: Tally := [("wise", 0.0), ("unwise", 0.0), ("neutral", 0.0)]

  function CategoryKeys(t: CategoryWisdom): (ks: seq<string>)
    ensures |ks| == |t| && forall i | 0 <= i < |t| :: ks[i] == t[i].0
  {
    seq(|t|, i requires 0 <= i < |t| => t[i].0)
  }

  /** `category_wisdom[category][wisdom] += 1`, creating the category with zero counts first. */
  function Bump(t: CategoryWisdom, category: string, wisdom: string): CategoryWisdom {
    if |t| == 0 then [(category, Add(FreshCounts, wisdom, 1.0))]
    else if t[0].0 == category then [(category, Add(t[0].1, wisdom, 1.0))] + t[1..]
    else [t[0]] + Bump(t[1..], category, wisdom)
  }

  /** All counts of all categories. */
  function Grand(t: CategoryWisdom): real {
    if |t| == 0 then 0.0 else Total(t[0].1) + Grand(t[1..])
  }

  /** One bump adds one to the grand total. */
  lemma {:induction false} BumpGrand(t: CategoryWisdom, category: string, wisdom: string)
    ensures Grand(Bump(t, category, wisdom)) == Grand(t) + 1.0
  {
    if |t| == 0 {
      AddTotal(FreshCounts, wisdom, 1.0);
    } else if t[0].0 == category {
      AddTotal(t[0].1, wisdom, 1.0);
      assert Bump(t, category, wisdom)[1..] == t[1..];
    } else {
      BumpGrand(t[1..], category, wisdom);
      assert Bump(t, category, wisdom)[1..] == Bump(t[1..], category, wisdom);
    }
  }

  /** One bump keeps the categories in place and appends a new one at the end. */
  lemma {:induction false} BumpKeys(t: CategoryWisdom, category: string, wisdom: string)
    ensures CategoryKeys(Bump(t, category, wisdom)) ==
              if category in CategoryKeys(t) then CategoryKeys(t) else CategoryKeys(t) + [category]
  {
    if |t| == 0 {
    } else if t[0].0 == category {
      assert CategoryKeys(t)[0] == category;
      assert Bump(t, category, wisdom)[1..] == t[1..];
    } else {
      var rest := Bump(t[1..], category, wisdom);
      assert CategoryKeys(t) == [t[0].0] + CategoryKeys(t[1..]);
      BumpKeys(t[1..], category, wisdom);
      assert Bump(t, category, wisdom) == [t[0]] + rest;
      assert CategoryKeys([t[0]] + rest) == [t[0].0] + CategoryKeys(rest);
    }
  }

  /** One bump adds one to the grand total and keeps one entry per category. */
  lemma BumpCounts(t: CategoryWisdom, category: string, wisdom: string)
    requires Distinct(CategoryKeys(t))
    ensures Grand(Bump(t, category, wisdom)) == Grand(t) + 1.0
    ensures CategoryKeys(Bump(t, category, wisdom)) ==
              if category in CategoryKeys(t) then CategoryKeys(t) else CategoryKeys(t) + [category]
    ensures Distinct(CategoryKeys(Bump(t, category, wisdom)))
  {
    BumpGrand(t, category, wisdom);
    BumpKeys(t, category, wisdom);
    if category !in CategoryKeys(t) {
      DistinctConcat(CategoryKeys(t), [category]);
    }
  }

  /** The per-category table after tallying `rs` in order. */
  function WisdomTable(rs: seq<WisdomRecord>): CategoryWisdom {
    if |rs| == 0 then [] else Bump(WisdomTable(rs[..|rs| - 1]), CategoryOf(rs[|rs| - 1]), WisdomOf(rs[|rs| - 1]))
  }

  /** The table has one entry per category and its counts add up to the number of transactions. */
  lemma {:induction false} WisdomTableTotal(rs: seq<WisdomRecord>)
    ensures Distinct(CategoryKeys(WisdomTable(rs)))
    ensures Grand(WisdomTable(rs)) == |rs| as real
  {
    if |rs| > 0 {
      var n := |rs| - 1;
      WisdomTableTotal(rs[..n]);
      BumpCounts(WisdomTable(rs[..n]), CategoryOf(rs[n]), WisdomOf(rs[n]));
    }
  }

  /** The share of wise transactions is a fraction; with none it is 0. */
  lemma WiseRatioBounds(rs: seq<WisdomRecord>)
    ensures 0.0 <= Mean(WiseCount(rs) as real, |rs|, 0.0) <= 1.0
  {
    WiseUnwiseBound(rs);
  }

  datatype WisdomSummary = WisdomSummary(
    count: nat,
    wise: nat,
    unwise: nat,
    averageScore: real,
    wiseRatio: real,
    categories: CategoryWisdom)

  /** The wisdom loop of `get_ai_perception`: counts, score total and per-category table. */
  method TallyWisdom(rs: seq<WisdomRecord>) returns (wise: nat, unwise: nat, total: real, table: CategoryWisdom)
    ensures wise == WiseCount(rs) && unwise == UnwiseCount(rs)
    ensures total == ScoreSum(rs) && table == WisdomTable(rs)
    ensures wise + unwise <= |rs|
    ensures Distinct(CategoryKeys(table)) && Grand(table) == |rs| as real
  {
    wise, unwise, total, table := 0, 0, 0.0, [];
    for i := 0 to |rs|
      invariant wise == WiseCount(rs[..i]) && unwise == UnwiseCount(rs[..i])
      invariant total == ScoreSum(rs[..i]) && table == WisdomTable(rs[..i])
    {
      assert rs[..i + 1][..i] == rs[..i];
      var wisdom := WisdomOf(rs[i]);
      if wisdom == "wise" {
        wise := wise + 1;
      } else if wisdom == "unwise" {
        unwise := unwise + 1;
      }
      total := total + ScoreOf(rs[i]);
      table := Bump(table, CategoryOf(rs[i]), wisdom);
    }
    assert rs[..|rs|] == rs;
    WiseUnwiseBound(rs);
    WisdomTableTotal(rs);
  }

  /**
   * The wisdom summary of `get_ai_perception`: the tallies, then the average score (0.5 with
   * no transaction) and the share of wise ones (0 with none).
   */
  method AnalyzeWisdom(rs: seq<WisdomRecord>) returns (w: WisdomSummary)
    ensures w.count == |rs| && w.wise == WiseCount(rs) && w.unwise == UnwiseCount(rs)
    ensures w.wise + w.unwise <= w.count
    ensures Distinct(CategoryKeys(w.categories)) && Grand(w.categories) == |rs| as real
    ensures w.averageScore == Mean(ScoreSum(rs), |rs|, 0.5)
    ensures w.wiseRatio == Mean(w.wise as real, |rs|, 0.0)
  {
    var wise, unwise, total, table := TallyWisdom(rs);
    w := WisdomSummary(|rs|, wise, unwise, Mean(total, |rs|, 0.5), Mean(wise as real, |rs|, 0.0), table);
  }

  // ---------------------------------------------------------------------------
  // Perception attributes
  // ---------------------------------------------------------------------------

  /** An attribute as stored or as the model returns it: every field may be missing. */
  datatype RawAttribute = RawAttribute(
    category: Option<string>,
    labelName: Option<string>,
    confidence: Option<real>,
    evidence: Option<seq<string>>,
    status: Option<string>)

  /** `PerceptionAttribute` (its `lastUpdated` clock value is not modelled). */
  datatype PerceptionAttribute = PerceptionAttribute(
    category: string,
    labelName: string,
    confidence: real,
    evidence: seq<string>,
    status: string)

  /** Reading an attribute: "Unknown" category and label, confidence 0.5, no evidence, status "active". */
  function ReadAttribute(raw: RawAttribute): (a: PerceptionAttribute)
    ensures raw.category.None? ==> a.category == "Unknown"
    ensures raw.labelName.None? ==> a.labelName == "Unknown"
    ensures raw.confidence.None? ==> a.confidence == 0.5
    ensures raw.status.None? ==> a.status == "active"
  {
    PerceptionAttribute(raw.category.GetOr("Unknown"), raw.labelName.GetOr("Unknown"), raw.confidence.GetOr(0.5),
                        raw.evidence.GetOr([]), raw.status.GetOr("active"))
  }

  /** A freshly generated attribute: the same defaults, and always "active". */
  function FreshAttribute(raw: RawAttribute): (a: PerceptionAttribute)
    ensures a.status == "active"
    ensures a == ReadAttribute(raw.(status := None))
  {
    ReadAttribute(raw).(status := "active")
  }

  /** `attr.dict()`: every field written out. */
  function StoredAttribute(a: PerceptionAttribute): RawAttribute {
    RawAttribute(Some(a.category), Some(a.labelName), Some(a.confidence), Some(a.evidence), Some(a.status))
  }

  /** Reading back a saved attribute gives the attribute that was saved. */
  lemma AttributeRoundTrip(a: PerceptionAttribute)
    ensures ReadAttribute(StoredAttribute(a)) == a
  {
  }

  /** The loop building the fresh attributes, in the model's order. */
  method BuildAttributes(raws: seq<RawAttribute>) returns (attrs: seq<PerceptionAttribute>)
    ensures |attrs| == |raws|
    ensures forall i | 0 <= i < |raws| :: attrs[i] == FreshAttribute(raws[i])
    ensures forall a | a in attrs :: a.status == "active"
  {
    attrs := [];
    for i := 0 to |raws|
      invariant |attrs| == i
      invariant forall k | 0 <= k < i :: attrs[k] == FreshAttribute(raws[k])
    {
      attrs := attrs + [FreshAttribute(raws[i])];
    }
  }

  function ReadAll(raws: seq<RawAttribute>): (attrs: seq<PerceptionAttribute>)
    ensures |attrs| == |raws| && forall i | 0 <= i < |raws| :: attrs[i] == ReadAttribute(raws[i])
  {
    seq(|raws|, i requires 0 <= i < |raws| => ReadAttribute(raws[i]))
  }

  function StoredAll(attrs: seq<PerceptionAttribute>): (raws: seq<RawAttribute>)
    ensures |raws| == |attrs| && forall i | 0 <= i < |attrs| :: raws[i] == StoredAttribute(attrs[i])
  {
    seq(|attrs|, i requires 0 <= i < |attrs| => StoredAttribute(attrs[i]))
  }

  /** Reading back a saved attribute list gives the list that was saved. */
  lemma AttributesRoundTrip(attrs: seq<PerceptionAttribute>)
    ensures ReadAll(StoredAll(attrs)) == attrs
  {
    forall i | 0 <= i < |attrs| ensures ReadAll(StoredAll(attrs))[i] == attrs[i] {
      AttributeRoundTrip(attrs[i]);
    }
  }

  // ---------------------------------------------------------------------------
  // Disputes
  // ---------------------------------------------------------------------------

  /** The `$elemMatch` of the dispute: stored category and label equal to the disputed ones. */
  predicate Matches(raw: RawAttribute, category: string, labelName: string) {
    raw.category == Some(category) && raw.labelName == Some(labelName)
  }

  /** The position the positional `$` operator picks: the first matching attribute. */
  function FirstMatch(attrs: seq<RawAttribute>, category: string, labelName: string): (i: Option<nat>)
    ensures i.None? <==> forall k | 0 <= k < |attrs| :: !Matches(attrs[k], category, labelName)
    ensures i.Some? ==> i.value < |attrs| && Matches(attrs[i.value], category, labelName) &&
                        forall k | 0 <= k < i.value :: !Matches(attrs[k], category, labelName)
  {
    if |attrs| == 0 then None
    else if Matches(attrs[0], category, labelName) then Some(0)
    else
      var i := FirstMatch(attrs[1..], category, labelName);
      assert forall k | 1 <= k < |attrs| :: attrs[k] == attrs[1..][k - 1];
      if i.None? then None else Some(i.value + 1)
  }

  /**
   * `{"$set": {"attributes.$.status": "disputed"}}`: the first attribute with the disputed
   * category and label is marked, nothing else changes; without a match nothing changes.
   */
  function MarkDisputed(attrs: seq<RawAttribute>, category: string, labelName: string): (r: seq<RawAttribute>)
    ensures |r| == |attrs|
    ensures forall k | 0 <= k < |attrs| && FirstMatch(attrs, category, labelName) != Some(k) :: r[k] == attrs[k]
    ensures forall k | 0 <= k < |attrs| && FirstMatch(attrs, category, labelName) == Some(k) ::
              r[k] == attrs[k].(status := Some("disputed"))
    ensures (forall k | 0 <= k < |attrs| :: !Matches(attrs[k], category, labelName)) ==> r == attrs
  {
    match FirstMatch(attrs, category, labelName)
    case None => attrs
    case Some(i) => attrs[i := attrs[i].(status := Some("disputed"))]
  }

  /** After a dispute with a match, the disputed attribute reads back as disputed with its other fields intact. */
  lemma DisputeReadsBack(attrs: seq<RawAttribute>, category: string, labelName: string)
    requires exists k | 0 <= k < |attrs| :: Matches(attrs[k], category, labelName)
    ensures exists k | 0 <= k < |attrs| ::
              ReadAttribute(MarkDisputed(attrs, category, labelName)[k]) ==
                ReadAttribute(attrs[k]).(status := "disputed") && Matches(attrs[k], category, labelName)
  {
    var i := FirstMatch(attrs, category, labelName).value;
    assert ReadAttribute(MarkDisputed(attrs, category, labelName)[i]) == ReadAttribute(attrs[i]).(status := "disputed");
  }

  // ---------------------------------------------------------------------------
  // The stored perceptions
  // ---------------------------------------------------------------------------

  /** Perceptions are cached for a day. */
  const PerceptionCacheSeconds := 86400

  /** A stored `ai_perceptions` document; `lastAnalysis` is missing when it is not a date. */
  datatype StoredPerception = StoredPerception(summary: Option<string>, attributes: seq<RawAttribute>, lastAnalysis: Option<int>)

  /** `PerceptionResponse` */
  datatype Perception = Perception(summary: string, attributes: seq<PerceptionAttribute>, lastAnalysis: int)

  /** What the model call gives: no client configured, a failure, or a parsed reply. */
  datatype AiReply = NoClient | Failed | Reply(summary: Option<string>, attributes: seq<RawAttribute>)

  /** An `ai_disputes` record. */
  datatype Dispute = Dispute(
    userId: string,
    category: string,
    labelName: string,
    reason: string,
    proposedCorrection: Option<string>,
    status: string,
    timestamp: int)

  /** A cached perception as served: summary default, attributes read with their defaults. */
  function FromStored(p: StoredPerception, now: int): (r: Perception)
    ensures r.attributes == ReadAll(p.attributes)
    ensures p.summary.None? ==> r.summary == "No summary available."
  {
    Perception(p.summary.GetOr("No summary available."), ReadAll(p.attributes), p.lastAnalysis.GetOr(now))
  }

  /** The document written for a new perception. */
  function ToStored(p: Perception): StoredPerception {
    StoredPerception(Some(p.summary), StoredAll(p.attributes), Some(p.lastAnalysis))
  }

  /** A saved perception served from the cache is the perception that was saved. */
  lemma PerceptionRoundTrip(p: Perception, now: int)
    ensures FromStored(ToStored(p), now) == p
  {
    AttributesRoundTrip(p.attributes);
  }

  /** A cached perception is served unless a refresh is asked for or it is a day old. */
  lemma PerceptionCacheExpiry(refresh: bool, storedAt: Option<int>, now: int)
    ensures ServesCache(refresh, storedAt, now, PerceptionCacheSeconds) ==> !refresh && storedAt.Some?
    ensures storedAt.Some? && now - storedAt.value >= 86400 ==> !ServesCache(refresh, storedAt, now, PerceptionCacheSeconds)
    ensures !refresh && storedAt.Some? && now - storedAt.value < 86400 ==> ServesCache(refresh, storedAt, now, PerceptionCacheSeconds)
  {
  }

  /** The `ai_perceptions` and `ai_disputes` collections, keyed by user. */
  class PerceptionStore {
    var perceptions: map<string, StoredPerception>
    var disputes: seq<Dispute>

    constructor()
      ensures perceptions == map[] && disputes == []
    {
      perceptions := map[];
      disputes := [];
    }

    /** When the user's stored perception was made, if there is one with a date. */
    function StoredAt(user: string): Option<int>
      reads this
    {
      if user in perceptions then perceptions[user].lastAnalysis else None
    }

    /**
     * `get_ai_perception`: a fresh-enough stored perception is served as is; otherwise the
     * model's reply becomes the new perception and replaces the stored one. Without a
     * client an "unavailable" perception is returned and nothing is saved.
     */
    method GetAiPerception(user: string, refresh: bool, now: int, reply: AiReply) returns (r: Result<Perception, HttpError>)
      modifies this
      ensures disputes == old(disputes)
      ensures ServesCache(refresh, old(StoredAt(user)), now, PerceptionCacheSeconds) ==>
                r == Success(FromStored(old(perceptions[user]), now)) && perceptions == old(perceptions)
      ensures !ServesCache(refresh, old(StoredAt(user)), now, PerceptionCacheSeconds) ==>
                match reply
                case NoClient =>
                  r == Success(Perception("AI perception service currently unavailable.", [], now)) &&
                  perceptions == old(perceptions)
                case Failed =>
                  r == Failure(ServerError("Failed to generate AI perception")) && perceptions == old(perceptions)
                case Reply(summary, raws) =>
                  r.Success? && r.value.lastAnalysis == now &&
                  |r.value.attributes| == |raws| &&
                  (forall i | 0 <= i < |raws| :: r.value.attributes[i] == FreshAttribute(raws[i])) &&
                  perceptions == old(perceptions)[user := ToStored(r.value)]
    {
      if ServesCache(refresh, StoredAt(user), now, PerceptionCacheSeconds) {
        r := Success(FromStored(perceptions[user], now));
        return;
      }
      match reply
      case NoClient =>
        r := Success(Perception("AI perception service currently unavailable.", [], now));
      case Failed =>
        r := Failure(ServerError("Failed to generate AI perception"));
      case Reply(summary, raws) =>
        var attrs := BuildAttributes(raws);
        var p := Perception(summary.GetOr("Analysis complete."), attrs, now);
        perceptions := perceptions[user := ToStored(p)];
        r := Success(p);
    }

    /**
     * `dispute_perception`: log the dispute as pending review, and mark the first stored
     * attribute with the disputed category and label as disputed.
     */
    method DisputePerception(user: string, category: string, labelName: string, reason: string,
                             correction: Option<string>, now: int)
      modifies this
      ensures disputes == old(disputes) + [Dispute(user, category, labelName, reason, correction, "pending_review", now)]
      ensures user !in old(perceptions) ==> perceptions == old(perceptions)
      ensures user in old(perceptions) ==>
                perceptions == old(perceptions)[user := old(perceptions[user]).(
                  attributes := MarkDisputed(old(perceptions[user].attributes), category, labelName))]
    {
      disputes := disputes + [Dispute(user, category, labelName, reason, correction, "pending_review", now)];
      if user in perceptions {
        var p := perceptions[user];
        perceptions := perceptions[user := p.(attributes := MarkDisputed(p.attributes, category, labelName))];
      }
    }
  }
}
