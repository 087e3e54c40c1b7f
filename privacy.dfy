/**
 * The consent registry: which data attributes a user lets the AI features read,
 * the default-allow lookup every feature goes through, the order-preserving
 * consent filter, the merge-update of the permission map and the privacy score.
 */
module Privacy {

  import opened Wrappers
  import opened Seqs
  import opened Text
  import opened StringOrder

  /** A stored permission document: attribute id to allowed. */
  type PermissionMap = map<string, bool>

  /** The user's permission document as read at the moment, or None when there is none. */
  type PermissionDoc = Option<PermissionMap>

  /** One category of the attribute catalogue, with the ids of its attributes. */
  datatype Category = Category(key: string, title: string, ids: seq<string>)

  const UserAttributes: seq<string> :=
    ["user.income", "user.creditScore", "user.dateOfBirth", "user.employmentStatus",
     "user.address", "user.email", "user.firstName", "user.lastName"]
  const AccountAttributes: seq<string> :=
    ["accounts.balance", "accounts.accountType", "accounts.accountNumber", "accounts.status"]
  const TransactionAttributes: seq<string> :=
    ["transactions.amount", "transactions.category", "transactions.description",
     "transactions.type", "transactions.createdAt", "transactions.merchantName"]
  const SavingsAccountAttributes: seq<string> :=
    ["savings_accounts.balance", "savings_accounts.accountType", "savings_accounts.apy",
     "savings_accounts.interestRate"]
  const SavingsGoalAttributes: seq<string> :=
    ["savings_goals.targetAmount", "savings_goals.currentAmount",
     "savings_goals.monthlyContribution", "savings_goals.status"]

  /** The catalogue of data attributes a user can allow or deny (`DATA_ATTRIBUTES`). */
  function DataAttributes(): seq<Category> {
    [ Category("user", "Personal Information", UserAttributes),
      Category("accounts", "Account Information", AccountAttributes),
      Category("transactions", "Transaction Data", TransactionAttributes),
      Category("savings_accounts", "Savings Accounts", SavingsAccountAttributes),
      Category("savings_goals", "Savings Goals", SavingsGoalAttributes) ]
  }

  /** Every attribute id of the catalogue, category by category. */
  function AttributeIds(cats: seq<Category>): seq<string> {
    if |cats| == 0 then [] else AttributeIds(cats[..|cats| - 1]) + cats[|cats| - 1].ids
  }

  /** `totalAttributes`: the sum of the category sizes. */
  function TotalAttributes(cats: seq<Category>): nat {
    if |cats| == 0 then 0 else TotalAttributes(cats[..|cats| - 1]) + |cats[|cats| - 1].ids|
  }

  lemma {:induction false} AttributeIdsLength(cats: seq<Category>)
    ensures |AttributeIds(cats)| == TotalAttributes(cats)
  {
    if |cats| > 0 {
      AttributeIdsLength(cats[..|cats| - 1]);
    }
  }

  /** The document created for a user who has none: every catalogue attribute allowed. */
  function DefaultPermissions(): (m: PermissionMap)
    ensures forall id :: id in m <==> id in AttributeIds(DataAttributes())
    ensures forall id | id in m :: m[id]
  {
    map id | id in AttributeIds(DataAttributes()) :: true
  }

  /** The catalogue's ids, category by category. */
  lemma CatalogueIds()
    ensures AttributeIds(DataAttributes()) ==
      UserAttributes + AccountAttributes + TransactionAttributes + SavingsAccountAttributes + SavingsGoalAttributes
  {
    var c := DataAttributes();
    assert c[..1][..0] == [];
    assert AttributeIds(c[..1]) == UserAttributes;
    assert c[..2][..1] == c[..1];
    assert AttributeIds(c[..2]) == UserAttributes + AccountAttributes;
    assert c[..3][..2] == c[..2];
    assert AttributeIds(c[..3]) == UserAttributes + AccountAttributes + TransactionAttributes;
    assert c[..4][..3] == c[..3];
    assert AttributeIds(c[..4]) == UserAttributes + AccountAttributes + TransactionAttributes + SavingsAccountAttributes;
    assert c[..4] == c[..|c| - 1];
  }

  /** Within each category, no id is listed twice. */
  lemma CategoriesDistinct()
    ensures Distinct(UserAttributes) && Distinct(AccountAttributes) && Distinct(TransactionAttributes)
    ensures Distinct(SavingsAccountAttributes) && Distinct(SavingsGoalAttributes)
  {
  }

  /** No user id is in a later category. */
  lemma UserCategoryDisjoint()
    ensures forall x | x in UserAttributes :: x !in AccountAttributes + TransactionAttributes + SavingsAccountAttributes + SavingsGoalAttributes
  {
  }

  /** No account id is in a later category. */
  lemma AccountCategoryDisjoint()
    ensures forall x | x in AccountAttributes :: x !in TransactionAttributes + SavingsAccountAttributes + SavingsGoalAttributes
  {
  }

  /** No id belongs to two categories. */
  lemma CategoriesDisjoint()
    ensures forall x | x in UserAttributes :: x !in AccountAttributes + TransactionAttributes + SavingsAccountAttributes + SavingsGoalAttributes
    ensures forall x | x in AccountAttributes :: x !in TransactionAttributes + SavingsAccountAttributes + SavingsGoalAttributes
    ensures forall x | x in TransactionAttributes :: x !in SavingsAccountAttributes + SavingsGoalAttributes
    ensures forall x | x in SavingsAccountAttributes :: x !in SavingsGoalAttributes
  {
    UserCategoryDisjoint();
    AccountCategoryDisjoint();
  }

  /** No attribute id is listed twice in the catalogue. */
  lemma CatalogueDistinct()
    ensures Distinct(AttributeIds(DataAttributes()))
  {
    CatalogueIds();
    CategoriesDistinct();
    CategoriesDisjoint();
    DistinctConcatFive(UserAttributes, AccountAttributes, TransactionAttributes,
      SavingsAccountAttributes, SavingsGoalAttributes);
  }

  /** The default document has one entry per catalogue attribute: its size is `totalAttributes`. */
  lemma DefaultPermissionsSize()
    ensures |DefaultPermissions()| == TotalAttributes(DataAttributes()) == 26
  {
    var ids := AttributeIds(DataAttributes());
    AttributeIdsLength(DataAttributes());
    CatalogueIds();
    CatalogueDistinct();
    DistinctCard(ids);
    assert DefaultPermissions().Keys == set id | id in ids;
  }

  /**
   * `check_attribute_permission`: allowed unless the user's document stores `false`
   * for this id; no document, or no entry, means allowed.
   */
  function IsAllowed(doc: PermissionDoc, id: string): (allowed: bool)
    ensures !allowed <==> doc.Some? && id in doc.value && !doc.value[id]
  {
    match doc
    case None => true
    case Some(m) => if id in m then m[id] else true
  }

  /** The allowed entries of `attrs`, in their order, duplicates kept. */
  function Filtered(doc: PermissionDoc, attrs: seq<string>): (r: seq<string>)
    ensures |r| <= |attrs|
    ensures forall x | x in r :: x in attrs && IsAllowed(doc, x)
  {
    if |attrs| == 0 then []
    else
      var last := attrs[|attrs| - 1];
      var front := Filtered(doc, attrs[..|attrs| - 1]);
      if IsAllowed(doc, last) then front + [last] else front
  }

  /** `filter_allowed_attributes`: keep each attribute the user allows, in order. */
  method FilterAllowedAttributes(doc: PermissionDoc, attributes: seq<string>) returns (allowed: seq<string>)
    ensures allowed == Filtered(doc, attributes)
  {
    allowed := [];
    for i := 0 to |attributes|
      invariant allowed == Filtered(doc, attributes[..i])
    {
      assert attributes[..i + 1][..i] == attributes[..i];
      if IsAllowed(doc, attributes[i]) {
        allowed := allowed + [attributes[i]];
      }
    }
    assert attributes[..|attributes|] == attributes;
  }

  /** Exactly the allowed inputs survive, each as often as it was given. */
  lemma {:induction false} FilteredCount(doc: PermissionDoc, attrs: seq<string>, x: string)
    ensures multiset(Filtered(doc, attrs))[x] == if IsAllowed(doc, x) then multiset(attrs)[x] else 0
  {
    if |attrs| > 0 {
      var f := attrs[..|attrs| - 1];
      FilteredCount(doc, f, x);
      assert attrs == f + [attrs[|attrs| - 1]];
    }
  }

  /** An id survives the filter exactly when it was given and is allowed. */
  lemma FilteredMembers(doc: PermissionDoc, attrs: seq<string>)
    ensures forall x :: x in Filtered(doc, attrs) <==> x in attrs && IsAllowed(doc, x)
  {
    forall x | x in attrs && IsAllowed(doc, x) ensures x in Filtered(doc, attrs) {
      FilteredCount(doc, attrs, x);
      assert x in multiset(attrs);
      assert x in multiset(Filtered(doc, attrs));
    }
  }

  /** Filtering a list without duplicates gives a list without duplicates. */
  lemma {:induction false} FilteredDistinct(doc: PermissionDoc, attrs: seq<string>)
    requires Distinct(attrs)
    ensures Distinct(Filtered(doc, attrs))
  {
    if |attrs| > 0 {
      var n := |attrs| - 1;
      var f := attrs[..n];
      assert Distinct(f);
      FilteredDistinct(doc, f);
      forall e | e in Filtered(doc, f) ensures e != attrs[n] {
        var i :| 0 <= i < n && f[i] == e;
      }
    }
  }

  /** Filtering commutes with concatenation, so the relative order of the survivors is the input's. */
  lemma {:induction false} FilteredAppend(doc: PermissionDoc, a: seq<string>, b: seq<string>)
    ensures Filtered(doc, a + b) == Filtered(doc, a) + Filtered(doc, b)
    decreases |b|
  {
    if |b| == 0 {
      assert a + b == a;
    } else {
      var b' := b[..|b| - 1];
      assert (a + b)[..|a + b| - 1] == a + b';
      FilteredAppend(doc, a, b');
    }
  }

  /** Filtering a sorted, case-insensitively duplicate-free list keeps both properties. */
  lemma {:induction false} FilteredKeepsOrder(doc: PermissionDoc, attrs: seq<string>)
    requires Sorted(attrs) && LowerDistinct(attrs)
    ensures Sorted(Filtered(doc, attrs)) && LowerDistinct(Filtered(doc, attrs))
  {
    if |attrs| > 0 {
      var n := |attrs| - 1;
      var f := attrs[..n];
      FilteredKeepsOrder(doc, f);
      forall e | e in Filtered(doc, f) ensures LessEq(e, attrs[n]) && ToLower(e) != ToLower(attrs[n]) {
        var i :| 0 <= i < n && f[i] == e;
      }
    }
  }

  /** One entry of an update request. */
  datatype PermissionUpdate = PermissionUpdate(attributeId: string, allowed: bool)

  /** The value the last request entry for `id` asks for, if any entry names it. */
  function LastRequested(updates: seq<PermissionUpdate>, id: string): (r: Option<bool>)
    ensures r.None? <==> forall i | 0 <= i < |updates| :: updates[i].attributeId != id
    ensures r.Some? ==> exists i | 0 <= i < |updates| ::
      updates[i] == PermissionUpdate(id, r.value) && forall j | i < j < |updates| :: updates[j].attributeId != id
  {
    if |updates| == 0 then None
    else
      var n := |updates| - 1;
      if updates[n].attributeId == id then Some(updates[n].allowed)
      else LastRequested(updates[..n], id)
  }

  /** The permission map after writing each request entry in turn. */
  function Merged(current: PermissionMap, updates: seq<PermissionUpdate>): PermissionMap {
    if |updates| == 0 then current
    else
      var n := |updates| - 1;
      Merged(current, updates[..n])[updates[n].attributeId := updates[n].allowed]
  }

  /** The merge loop of `update_data_access_permissions`. */
  method MergePermissions(current: PermissionMap, updates: seq<PermissionUpdate>) returns (merged: PermissionMap)
    ensures merged == Merged(current, updates)
  {
    merged := current;
    for i := 0 to |updates|
      invariant merged == Merged(current, updates[..i])
    {
      assert updates[..i + 1][..i] == updates[..i];
      merged := merged[updates[i].attributeId := updates[i].allowed];
    }
    assert updates[..|updates|] == updates;
  }

  /**
   * After a merge every requested id holds the value of its last request entry, and
   * every other id keeps its stored value; no entry is dropped.
   */
  lemma {:induction false} MergedLookup(current: PermissionMap, updates: seq<PermissionUpdate>, id: string)
    ensures id in Merged(current, updates) <==> id in current || LastRequested(updates, id).Some?
    ensures LastRequested(updates, id).Some? ==> Merged(current, updates)[id] == LastRequested(updates, id).value
    ensures LastRequested(updates, id).None? && id in current ==> Merged(current, updates)[id] == current[id]
  {
    if |updates| > 0 {
      MergedLookup(current, updates[..|updates| - 1], id);
    }
  }

  /** The consent record's `dataTypes`: the ids requested as allowed, in request order. */
  function ConsentDataTypes(updates: seq<PermissionUpdate>): (ids: seq<string>)
    ensures |ids| <= |updates|
  {
    if |updates| == 0 then []
    else
      var n := |updates| - 1;
      ConsentDataTypes(updates[..n]) + (if updates[n].allowed then [updates[n].attributeId] else [])
  }

  /** The record lists only ids that some request entry asked to allow. */
  lemma {:induction false} ConsentDataTypesSound(updates: seq<PermissionUpdate>)
    ensures forall x | x in ConsentDataTypes(updates) :: PermissionUpdate(x, true) in updates
  {
    if |updates| > 0 {
      var n := |updates| - 1;
      ConsentDataTypesSound(updates[..n]);
      assert updates == updates[..n] + [updates[n]];
    }
  }

  /** The record of two request lists is the record of the first, then of the second: request order is kept. */
  lemma {:induction false} ConsentDataTypesAppend(a: seq<PermissionUpdate>, b: seq<PermissionUpdate>)
    ensures ConsentDataTypes(a + b) == ConsentDataTypes(a) + ConsentDataTypes(b)
    decreases |b|
  {
    if |b| == 0 {
      assert a + b == a;
    } else {
      var b' := b[..|b| - 1];
      var last := b[|b| - 1];
      ConsentDataTypesAppend(a, b');
      assert (a + b)[..|a + b| - 1] == a + b';
      assert (a + b)[|a + b| - 1] == last;
    }
  }

  /** Every id requested as allowed is in the record. */
  lemma {:induction false} ConsentDataTypesAllowed(a: seq<PermissionUpdate>)
    ensures forall p | p in a && p.allowed :: p.attributeId in ConsentDataTypes(a)
  {
    if |a| > 0 {
      ConsentDataTypesAllowed(a[..|a| - 1]);
      assert a == a[..|a| - 1] + [a[|a| - 1]];
    }
  }

  /** `sum(1 for allowed in permissions.values() if allowed)` */
  function CountAllowed(m: PermissionMap): nat {
    |set id | id in m && m[id]|
  }

  /** `sum(1 for allowed in permissions.values() if not allowed)` */
  function CountDenied(m: PermissionMap): nat {
    |set id | id in m && !m[id]|
  }

  /** Allowed and denied entries together make up the whole map, so neither exceeds its size. */
  lemma CountsPartition(m: PermissionMap)
    ensures CountAllowed(m) + CountDenied(m) == |m|
    ensures CountAllowed(m) <= |m| && CountDenied(m) <= |m|
  {
    var yes := set id | id in m && m[id];
    var no := set id | id in m && !m[id];
    assert m.Keys == yes + no;
    assert yes * no == {};
  }

  /** The default document denies nothing. */
  lemma DefaultAllowsAll()
    ensures CountAllowed(DefaultPermissions()) == |DefaultPermissions()|
    ensures CountDenied(DefaultPermissions()) == 0
  {
    var m := DefaultPermissions();
    assert (set id | id in m && m[id]) == m.Keys;
    assert (set id | id in m && !m[id]) == {};
  }

  /** What the privacy score endpoint reports. */
  datatype ScoreReport =
    | DefaultAllAllowed
    | NoPermissionsConfigured
    | Restricted(score: int, allowed: nat, denied: nat, total: nat)
  {
    function Score(): int {
      if Restricted? then score else 100
    }
  }

  /**
   * The privacy score: 100 without a document or with an empty one, otherwise the
   * percentage of denied attributes rounded down.
   */
  function PrivacyScore(doc: PermissionDoc): (r: ScoreReport)
    ensures 0 <= r.Score() <= 100
    ensures r.Restricted? <==> doc.Some? && |doc.value| > 0
    ensures r.Restricted? ==> r.allowed + r.denied == r.total == |doc.value|
    ensures r.Restricted? ==> r.Score() * r.total <= r.denied * 100 < (r.Score() + 1) * r.total
    ensures doc.None? ==> r == DefaultAllAllowed
    ensures doc.Some? && |doc.value| == 0 ==> r == NoPermissionsConfigured
    ensures r.Restricted? ==> r.denied == CountDenied(doc.value) && r.allowed == CountAllowed(doc.value)
  {
    match doc
    case None => DefaultAllAllowed
    case Some(m) =>
      if |m| == 0 then NoPermissionsConfigured
      else
        CountsPartition(m);
        Restricted(CountDenied(m) * 100 / |m|, CountAllowed(m), CountDenied(m), |m|)
  }

  /** A non-empty document denying every attribute scores 100; one allowing every attribute scores 0. */
  lemma PrivacyScoreExtremes(m: PermissionMap)
    requires |m| > 0
    ensures (forall id | id in m :: !m[id]) ==> PrivacyScore(Some(m)) == Restricted(100, 0, |m|, |m|)
    ensures (forall id | id in m :: m[id]) ==> PrivacyScore(Some(m)) == Restricted(0, |m|, 0, |m|)
  {
    if forall id | id in m :: !m[id] {
      assert (set id | id in m && !m[id]) == m.Keys;
      assert (set id | id in m && m[id]) == {};
    }
    if forall id | id in m :: m[id] {
      assert (set id | id in m && m[id]) == m.Keys;
      assert (set id | id in m && !m[id]) == {};
    }
  }

  /** A privacy score cache entry and when it was written (seconds). */
  datatype CachedScore = CachedScore(createdAt: int, report: ScoreReport)

  /** How long a cached privacy score is served (seconds). */
  const ScoreCacheSeconds := 1800

  /** A cached response is served when no refresh is asked for and the entry is younger than `ttl`. */
  predicate ServesCache(refresh: bool, storedAt: Option<int>, now: int, ttl: int) {
    !refresh && storedAt.Some? && now - storedAt.value < ttl
  }

  /** A consent audit record written on each permission update. */
  datatype ConsentRecord = ConsentRecord(userId: string, dataTypes: seq<string>, createdAt: int)

  /** The stored consent state: permission documents, the score cache and the consent log. */
  class ConsentRegistry {
    var documents: map<string, PermissionMap>
    var scoreCache: map<string, CachedScore>
    var consentLog: seq<ConsentRecord>

    constructor()
      ensures documents == map[] && scoreCache == map[] && consentLog == []
    {
      documents := map[];
      scoreCache := map[];
      consentLog := [];
    }

    /** The user's permission document, as `find_one` returns it. */
    function Doc(user: string): (doc: PermissionDoc)
      reads this
      ensures doc.Some? <==> user in documents
    {
      if user in documents then Some(documents[user]) else None
    }

    /** When the user's cached score was written, if there is one. */
    function CachedAt(user: string): Option<int>
      reads this
    {
      if user in scoreCache then Some(scoreCache[user].createdAt) else None
    }

    /**
     * `get_data_access_permissions`: creates the all-allowed default document for a user
     * who has none, then reports the map and its counts.
     */
    method GetPermissions(user: string) returns (perms: PermissionMap, totalAllowed: nat, totalAttributes: nat)
      modifies this
      ensures old(user in documents) ==> documents == old(documents)
      ensures old(user !in documents) ==> documents == old(documents)[user := DefaultPermissions()]
      ensures perms == documents[user]
      ensures totalAllowed == CountAllowed(perms) && totalAttributes == |perms|
      ensures totalAllowed <= totalAttributes
      ensures scoreCache == old(scoreCache) && consentLog == old(consentLog)
    {
      if user !in documents {
        documents := documents[user := DefaultPermissions()];
      }
      perms := documents[user];
      CountsPartition(perms);
      totalAllowed := CountAllowed(perms);
      totalAttributes := |perms|;
    }

    /**
     * `update_data_access_permissions`: merges the request into the stored map (an empty
     * one when there is none), drops the cached privacy score and logs a consent record
     * listing the ids granted by the request.
     */
    method UpdatePermissions(user: string, updates: seq<PermissionUpdate>, now: int)
      returns (perms: PermissionMap, totalAllowed: nat, totalAttributes: nat)
      modifies this
      ensures perms == Merged(if old(user in documents) then old(documents[user]) else map[], updates)
      ensures documents == old(documents)[user := perms]
      ensures scoreCache == old(scoreCache) - {user}
      ensures consentLog == old(consentLog) + [ConsentRecord(user, ConsentDataTypes(updates), now)]
      ensures totalAllowed == CountAllowed(perms) && totalAttributes == |perms|
      ensures totalAllowed <= totalAttributes
    {
      var current: PermissionMap := if user in documents then documents[user] else map[];
      perms := MergePermissions(current, updates);
      documents := documents[user := perms];
      scoreCache := scoreCache - {user};
      consentLog := consentLog + [ConsentRecord(user, ConsentDataTypes(updates), now)];
      CountsPartition(perms);
      totalAllowed := CountAllowed(perms);
      totalAttributes := |perms|;
    }

    /**
     * `get_privacy_score`: serves the cached report when allowed to, otherwise computes
     * the score from the current document and caches it with the current time.
     */
    method GetPrivacyScore(user: string, now: int, refresh: bool) returns (report: ScoreReport, cached: bool)
      modifies this
      ensures cached <==> ServesCache(refresh, old(CachedAt(user)), now, ScoreCacheSeconds)
      ensures cached ==> report == old(scoreCache[user].report) && scoreCache == old(scoreCache)
      ensures !cached ==> report == PrivacyScore(Doc(user))
      ensures !cached ==> scoreCache == old(scoreCache)[user := CachedScore(now, report)]
      ensures documents == old(documents) && consentLog == old(consentLog)
    {
      if ServesCache(refresh, CachedAt(user), now, ScoreCacheSeconds) {
        report := scoreCache[user].report;
        cached := true;
      } else {
        report := PrivacyScore(Doc(user));
        scoreCache := scoreCache[user := CachedScore(now, report)];
        cached := false;
      }
    }
  }
}
