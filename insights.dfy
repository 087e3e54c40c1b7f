/**
 * The insights service: the profile figures and the health score of the comprehensive
 * insights, the rule-based spending analysis and financial plans used when the AI
 * calls fail, the union of attributes reported, the response cache, and the recovery
 * of a JSON answer wrapped in a markdown fence.
 */
module Insights {

  import opened Wrappers
  import opened Seqs
  import opened Text
  import opened Store
  import opened Tally
  import opened Privacy
  import Transactions

  /** `income / 12 if income > 0 else 1`: never zero, so the savings rate is always defined. */
  function MonthlyIncome(income: real): (m: real)
    ensures m > 0.0
    ensures income <= 0.0 ==> m == 1.0
    ensures income > 0.0 ==> m * 12.0 == income
  {
    if income > 0.0 then income / 12.0 else 1.0
  }

  /** The debits of the last six months spread over six months; 0 with no transaction. */
  function MonthlySpending(txns: seq<Transaction>): (m: real)
    ensures txns == [] ==> m == 0.0
    ensures txns != [] ==> m * 6.0 == DebitTotal(txns)
  {
    if |txns| > 0 then DebitTotal(txns) / 6.0 else 0.0
  }

  /** `(monthly_income - monthly_spending) / monthly_income * 100`, 0 when income is not positive. */
  function SavingsRate(monthlyIncome: real, monthlySpending: real): (r: real)
    ensures monthlyIncome > 0.0 ==> r * monthlyIncome == (monthlyIncome - monthlySpending) * 100.0
    ensures monthlyIncome <= 0.0 ==> r == 0.0
  {
    if monthlyIncome > 0.0 then
      var q := (monthlyIncome - monthlySpending) / monthlyIncome;
      assert q * monthlyIncome == monthlyIncome - monthlySpending;
      q * 100.0
    else 0.0
  }

  /** How many months of spending the savings cover; 0 when nothing is spent. */
  function EmergencyFundMonths(totalSavings: real, monthlySpending: real): (m: real)
    ensures monthlySpending <= 0.0 ==> m == 0.0
    ensures monthlySpending > 0.0 ==> m * monthlySpending == totalSavings
  {
    if monthlySpending > 0.0 then
      var q := totalSavings / monthlySpending;
      assert q * monthlySpending == totalSavings;
      q
    else 0.0
  }

  /** Savings-rate band: 25 from 20%, 15 from 10%, 10 from 5%. */
  function SavingsBand(rate: real): (b: int)
    ensures b in {0, 10, 15, 25}
  {
    if rate >= 20.0 then 25 else if rate >= 10.0 then 15 else if rate >= 5.0 then 10 else 0
  }

  /** Credit-score band: 25 from 750, 20 from 700, 15 from 650. */
  function CreditBand(score: real): (b: int)
    ensures b in {0, 15, 20, 25}
  {
    if score >= 750.0 then 25 else if score >= 700.0 then 20 else if score >= 650.0 then 15 else 0
  }

  /** Emergency-fund band: 25 from six months, 20 from three, 10 from one. */
  function EmergencyBand(months: real): (b: int)
    ensures b in {0, 10, 20, 25}
  {
    if months >= 6.0 then 25 else if months >= 3.0 then 20 else if months >= 1.0 then 10 else 0
  }

  /** Spending-control band: 25 up to 80% of income, 20 up to 90%, 15 up to 100%. */
  function SpendingBand(monthlySpending: real, monthlyIncome: real): (b: int)
    ensures b in {0, 15, 20, 25}
  {
    if monthlySpending <= monthlyIncome * 0.8 then 25
    else if monthlySpending <= monthlyIncome * 0.9 then 20
    else if monthlySpending <= monthlyIncome then 15
    else 0
  }

  /** The four inputs of the health score, as `get_comprehensive_insights` derives them. */
  datatype HealthInputs = HealthInputs(savingsRate: real, creditScore: real, emergencyFundMonths: real,
                                       monthlySpending: real, monthlyIncome: real)

  function HealthInputsOf(income: real, creditScore: real, totalSavings: real, txns: seq<Transaction>): (h: HealthInputs)
    ensures h.monthlyIncome > 0.0 && h.creditScore == creditScore
    ensures txns == [] ==> h.monthlySpending == 0.0 && h.emergencyFundMonths == 0.0
  {
    var mi := MonthlyIncome(income);
    var ms := MonthlySpending(txns);
    HealthInputs(SavingsRate(mi, ms), creditScore, EmergencyFundMonths(totalSavings, ms), ms, mi)
  }

  /** The health score, built up band by band as the service does with `+=`. */
  method HealthScore(h: HealthInputs) returns (score: int)
    ensures score == SavingsBand(h.savingsRate) + CreditBand(h.creditScore)
                     + EmergencyBand(h.emergencyFundMonths) + SpendingBand(h.monthlySpending, h.monthlyIncome)
    ensures 0 <= score <= 100
  {
    score := 0;
    if h.savingsRate >= 20.0 { score := score + 25; }
    else if h.savingsRate >= 10.0 { score := score + 15; }
    else if h.savingsRate >= 5.0 { score := score + 10; }
    if h.creditScore >= 750.0 { score := score + 25; }
    else if h.creditScore >= 700.0 { score := score + 20; }
    else if h.creditScore >= 650.0 { score := score + 15; }
    if h.emergencyFundMonths >= 6.0 { score := score + 25; }
    else if h.emergencyFundMonths >= 3.0 { score := score + 20; }
    else if h.emergencyFundMonths >= 1.0 { score := score + 10; }
    if h.monthlySpending <= h.monthlyIncome * 0.8 { score := score + 25; }
    else if h.monthlySpending <= h.monthlyIncome * 0.9 { score := score + 20; }
    else if h.monthlySpending <= h.monthlyIncome { score := score + 15; }
  }

  /**
   * The savings-rate band and the spending-control band reward the same thing at the
   * top: a savings rate of at least 20% is spending at most 80% of the monthly income.
   */
  lemma TopBandsAgree(income: real, creditScore: real, totalSavings: real, txns: seq<Transaction>)
    ensures var h := HealthInputsOf(income, creditScore, totalSavings, txns);
      SavingsBand(h.savingsRate) == 25 <==> SpendingBand(h.monthlySpending, h.monthlyIncome) == 25
  {
    var h := HealthInputsOf(income, creditScore, totalSavings, txns);
    var mi, ms, r := h.monthlyIncome, h.monthlySpending, h.savingsRate;
    assert r * mi == (mi - ms) * 100.0;
    assert r >= 20.0 <==> r * mi >= 20.0 * mi by {
      if r >= 20.0 { assert (r - 20.0) * mi >= 0.0; } else { assert (20.0 - r) * mi > 0.0; }
    }
  }

  /** With no transaction, nothing is spent: the spending band is full and the emergency band empty. */
  lemma NoSpendingBands(income: real, creditScore: real, totalSavings: real)
    ensures var h := HealthInputsOf(income, creditScore, totalSavings, []);
      SpendingBand(h.monthlySpending, h.monthlyIncome) == 25 && EmergencyBand(h.emergencyFundMonths) == 0
  {
  }

  /** One row of the rule-based spending analysis. */
  datatype SpendingCategory = SpendingCategory(category: string, amount: real, percentage: real,
                                               trend: string, averageSpending: real)

  /** What `create_basic_spending_analysis` returns (the waste analysis is always empty). */
  datatype SpendingAnalysis = SpendingAnalysis(totalSpending: real, monthlyAverage: real,
                                               categories: seq<SpendingCategory>, attributes: seq<string>)

  /** The sum of all amounts, debits and credits alike. */
  function AmountTotal(txns: seq<Transaction>): real {
    if |txns| == 0 then 0.0 else AmountTotal(txns[..|txns| - 1]) + txns[|txns| - 1].amount
  }

  /** Every amount accumulated per category (credits included, as the fallback does). */
  function AmountsByCategory(txns: seq<Transaction>): Tally {
    if |txns| == 0 then []
    else
      var t := txns[|txns| - 1];
      Add(AmountsByCategory(txns[..|txns| - 1]), Transactions.CategoryOf(t), t.amount)
  }

  lemma {:induction false} AmountsByCategoryTotal(txns: seq<Transaction>)
    ensures WellFormed(AmountsByCategory(txns))
    ensures Total(AmountsByCategory(txns)) == AmountTotal(txns)
  {
    if |txns| > 0 {
      var t := txns[|txns| - 1];
      var front := txns[..|txns| - 1];
      AmountsByCategoryTotal(front);
      AddTotal(AmountsByCategory(front), Transactions.CategoryOf(t), t.amount);
      AddWellFormed(AmountsByCategory(front), Transactions.CategoryOf(t), t.amount);
    }
  }

  /** The row for one category: its share of the total in percent (0 when the total is not positive). */
  function Row(entry: (string, real), total: real): (row: SpendingCategory)
    ensures row.category == entry.0 && row.amount == entry.1 && row.trend == "stable"
    ensures row.averageSpending * 6.0 == row.amount
    ensures total <= 0.0 ==> row.percentage == 0.0
    ensures total > 0.0 ==> row.percentage * total == row.amount * 100.0
  {
    var pct := if total > 0.0 then
      var q := entry.1 / total;
      assert q * total == entry.1;
      q * 100.0
    else 0.0;
    SpendingCategory(entry.0, entry.1, pct, "stable", entry.1 / 6.0)
  }

  function Rows(t: Tally, total: real): (rows: seq<SpendingCategory>)
    ensures |rows| == |t|
    ensures forall i | 0 <= i < |t| :: rows[i] == Row(t[i], total)
  {
    seq(|t|, i requires 0 <= i < |t| => Row(t[i], total))
  }

  function AmountSum(rows: seq<SpendingCategory>): real {
    if |rows| == 0 then 0.0 else rows[0].amount + AmountSum(rows[1..])
  }

  function PercentSum(rows: seq<SpendingCategory>): real {
    if |rows| == 0 then 0.0 else rows[0].percentage + PercentSum(rows[1..])
  }

  /** Dividing out a positive factor. */
  lemma Cancel(x: real, y: real, t: real)
    requires t > 0.0 && x * t == y * t
    ensures x == y
  {
    assert (x - y) * t == 0.0;
  }

  /** The rows' amounts add up to the dict's total and, for a positive total, their percentages to its share. */
  lemma {:induction false} RowsSums(t: Tally, total: real)
    ensures AmountSum(Rows(t, total)) == Total(t)
    ensures total > 0.0 ==> PercentSum(Rows(t, total)) * total == Total(t) * 100.0
  {
    if |t| > 0 {
      assert Rows(t, total)[1..] == Rows(t[1..], total);
      RowsSums(t[1..], total);
      var r := Row(t[0], total);
      var ps := PercentSum(Rows(t[1..], total));
      assert PercentSum(Rows(t, total)) == r.percentage + ps;
      if total > 0.0 {
        assert (r.percentage + ps) * total == r.percentage * total + ps * total;
      }
    }
  }

  /** The category names, in the dict's order. */
  function RowNames(rows: seq<SpendingCategory>): (names: seq<string>)
    ensures |names| == |rows|
    ensures forall i | 0 <= i < |rows| :: names[i] == rows[i].category
  {
    seq(|rows|, i requires 0 <= i < |rows| => rows[i].category)
  }

  /**
   * `create_basic_spending_analysis`: one row per distinct category, the amounts adding
   * up to the total, the percentages to 100 when the total is positive (each 0 otherwise),
   * and each row's monthly average a sixth of its amount.
   */
  method BasicSpendingAnalysis(txns: seq<Transaction>, monthlySpending: real) returns (a: SpendingAnalysis)
    ensures a.totalSpending == AmountTotal(txns) && a.monthlyAverage == monthlySpending
    ensures a.categories == Rows(AmountsByCategory(txns), a.totalSpending)
    ensures Distinct(RowNames(a.categories))
    ensures forall t | t in txns :: Transactions.CategoryOf(t) in RowNames(a.categories)
    ensures AmountSum(a.categories) == a.totalSpending
    ensures a.totalSpending > 0.0 ==> PercentSum(a.categories) == 100.0
    ensures a.totalSpending <= 0.0 ==> forall r | r in a.categories :: r.percentage == 0.0
    ensures a.attributes == ["transactions.amount", "transactions.category"]
  {
    var tally := TallyCategories(txns);
    AmountsByCategoryTotal(txns);
    var total := Total(tally);
    var rows := CategoryRows(tally, total);
    RowsSums(tally, total);
    if total > 0.0 {
      Cancel(PercentSum(rows), 100.0, total);
    } else {
      assert forall r | r in rows :: r.percentage == 0.0;
    }
    assert RowNames(rows) == Keys(tally);
    CategoriesListed(txns);
    a := SpendingAnalysis(total, monthlySpending, rows, ["transactions.amount", "transactions.category"]);
  }

  /** The loop of `create_basic_spending_analysis` that sums the amounts per category. */
  method TallyCategories(txns: seq<Transaction>) returns (tally: Tally)
    ensures tally == AmountsByCategory(txns)
    ensures WellFormed(tally) && Total(tally) == AmountTotal(txns)
  {
    tally := [];
    for i := 0 to |txns|
      invariant tally == AmountsByCategory(txns[..i])
    {
      assert txns[..i + 1][..i] == txns[..i];
      tally := Add(tally, Transactions.CategoryOf(txns[i]), txns[i].amount);
    }
    assert txns[..|txns|] == txns;
    AmountsByCategoryTotal(txns);
  }

  /** The comprehension of `create_basic_spending_analysis` that turns the dict into rows. */
  method CategoryRows(tally: Tally, total: real) returns (rows: seq<SpendingCategory>)
    ensures rows == Rows(tally, total)
    ensures |rows| == |tally|
  {
    rows := [];
    for j := 0 to |tally|
      invariant rows == Rows(tally[..j], total)
    {
      rows := rows + [Row(tally[j], total)];
    }
    assert tally[..|tally|] == tally;
  }

  /** Every transaction's category has an entry. */
  lemma {:induction false} CategoriesListed(txns: seq<Transaction>)
    ensures forall t | t in txns :: Transactions.CategoryOf(t) in Keys(AmountsByCategory(txns))
  {
    if |txns| > 0 {
      var n := |txns| - 1;
      var t := txns[n];
      var prev := AmountsByCategory(txns[..n]);
      var keys := Keys(Add(prev, Transactions.CategoryOf(t), t.amount));
      CategoriesListed(txns[..n]);
      KeysGrow(prev, Transactions.CategoryOf(t), t.amount);
      assert Keys(AmountsByCategory(txns)) == keys;
      forall u | u in txns
        ensures Transactions.CategoryOf(u) in keys
      {
        var m :| 0 <= m < |txns| && txns[m] == u;
        if m < n {
          assert txns[..n][m] == u;
        }
      }
    }
  }

  /** The two rule-based plans (their texts and steps are fixed; only the title is kept here). */
  datatype Plan = EmergencyFund | SavingsRateBoost {
    function Title(): string {
      match this
      case EmergencyFund => "Build Emergency Fund"
      case SavingsRateBoost => "Optimize Savings Rate"
    }
  }

  datatype Planning = Planning(summary: string, plans: seq<Plan>, attributes: seq<string>)

  /**
   * `create_basic_financial_planning`: the emergency-fund plan when savings cover less
   * than three months of spending, then the savings-rate plan when spending is under
   * 80% of a positive monthly income.
   */
  method BasicFinancialPlanning(income: real, totalSavings: real, monthlySpending: real) returns (p: Planning)
    ensures EmergencyFund in p.plans <==> totalSavings < monthlySpending * 3.0
    ensures SavingsRateBoost in p.plans <==> income > 0.0 && monthlySpending < income / 12.0 * 0.8
    ensures Distinct(p.plans)
    ensures |p.plans| == 2 ==> p.plans == [EmergencyFund, SavingsRateBoost]
    ensures p.attributes == PlanningAttributes
  {
    var short := totalSavings < monthlySpending * 3.0;
    var room := income > 0.0 && monthlySpending < income / 12.0 * 0.8;
    var plans: seq<Plan> := [];
    if short {
      plans := [EmergencyFund];
    }
    if room {
      plans := plans + [SavingsRateBoost];
    }
    p := Planning("Basic financial recommendations based on your current situation", plans, PlanningAttributes);
  }

  /** The attributes the fallback plan reports as used. */
  const PlanningAttributes: seq<string> := ["user.income", "transactions.amount", "savings_accounts.balance"]

  /**
   * What the comprehensive insights read about the user, as Python truthiness: a non-zero
   * credit score and income, and whether each list came back non-empty.
   */
  datatype ProfileFlags = ProfileFlags(creditScore: real, income: real, hasAccounts: bool, hasSavings: bool,
                                       hasGoals: bool, hasTransactions: bool)

  /** Every id the profile block can add, in the order it adds them. */
  const ProfileIds: seq<string> := [
    "user.creditScore", "user.income", "accounts.balance", "accounts.accountType",
    "savings_accounts.balance", "savings_accounts.apy", "savings_goals.targetAmount",
    "savings_goals.status", "savings_goals.currentAmount", "transactions.amount",
    "transactions.category"]

  /** For each entry of `ProfileIds`, whether the profile block adds it: one condition per group of ids. */
  function ProfileGate(f: ProfileFlags): (g: seq<bool>)
    ensures |g| == |ProfileIds|
  {
    [f.creditScore != 0.0, f.income != 0.0, f.hasAccounts, f.hasAccounts, f.hasSavings, f.hasSavings,
     f.hasGoals, f.hasGoals, f.hasGoals, f.hasTransactions, f.hasTransactions]
  }

  /**
   * The profile attributes the comprehensive insights add for the data they read: each group
   * of ids is appended in turn when its condition holds.
   */
  function ProfileAttributes(f: ProfileFlags): (r: seq<string>)
    ensures Distinct(r)
    ensures forall x | x in r :: x in ProfileIds
    ensures forall k | 0 <= k < |ProfileIds| :: ProfileIds[k] in r <==> ProfileGate(f)[k]
  {
    assert Distinct(ProfileIds);
    KeepGated(ProfileIds, ProfileGate(f));
    Keep(ProfileIds, ProfileGate(f))
  }

  /** Each profile id is listed exactly when the data it describes was read. */
  lemma ProfileAttributesByFlag(f: ProfileFlags)
    ensures var r := ProfileAttributes(f);
      ("user.creditScore" in r <==> f.creditScore != 0.0) && ("user.income" in r <==> f.income != 0.0)
      && ("accounts.balance" in r <==> f.hasAccounts) && ("accounts.accountType" in r <==> f.hasAccounts)
      && ("savings_accounts.balance" in r <==> f.hasSavings) && ("savings_accounts.apy" in r <==> f.hasSavings)
      && ("savings_goals.targetAmount" in r <==> f.hasGoals) && ("savings_goals.status" in r <==> f.hasGoals)
      && ("savings_goals.currentAmount" in r <==> f.hasGoals)
      && ("transactions.amount" in r <==> f.hasTransactions) && ("transactions.category" in r <==> f.hasTransactions)
  {
    var r, g := ProfileAttributes(f), ProfileGate(f);
    assert ProfileIds[0] in r <==> g[0];
    assert ProfileIds[1] in r <==> g[1];
    assert ProfileIds[2] in r <==> g[2];
    assert ProfileIds[3] in r <==> g[3];
    assert ProfileIds[4] in r <==> g[4];
    assert ProfileIds[5] in r <==> g[5];
    assert ProfileIds[6] in r <==> g[6];
    assert ProfileIds[7] in r <==> g[7];
    assert ProfileIds[8] in r <==> g[8];
    assert ProfileIds[9] in r <==> g[9];
    assert ProfileIds[10] in r <==> g[10];
  }

  /**
   * The attribute list of the comprehensive insights: the two analyses' attributes and
   * the profile attributes, de-duplicated, then passed through the consent filter.
   */
  method CombineAttributes(spending: seq<string>, planning: seq<string>, flags: ProfileFlags, doc: PermissionDoc)
    returns (allowed: seq<string>)
    ensures Distinct(allowed)
    ensures forall x :: x in allowed <==> (x in spending || x in planning || x in ProfileAttributes(flags)) && IsAllowed(doc, x)
  {
    var profile := ProfileAttributes(flags);
    var all := spending + planning + profile;
    var unique := Dedup(all);
    allowed := FilterAllowedAttributes(doc, unique);
    FilteredMembers(doc, unique);
    FilteredDistinct(doc, unique);
  }

  /** The comprehensive insights are cached for 30 minutes. */
  const InsightsCacheSeconds := 1800

  /** A cached insights response is served unless a refresh is asked for or it is 30 minutes old. */
  lemma InsightsCacheExpiry(refresh: bool, storedAt: Option<int>, now: int)
    ensures ServesCache(refresh, storedAt, now, InsightsCacheSeconds) ==> !refresh && storedAt.Some?
    ensures storedAt.Some? && now - storedAt.value >= 1800 ==> !ServesCache(refresh, storedAt, now, InsightsCacheSeconds)
    ensures !refresh && storedAt.Some? && now - storedAt.value < 1800 ==> ServesCache(refresh, storedAt, now, InsightsCacheSeconds)
  {
  }

  const JsonFence := "```json"
  const Fence := "```"

  /**
   * Recovery of an answer wrapped in a markdown block: the text after the first
   * "```json" up to the next "```", trimmed; nothing when there is no "```json".
   */
  function RecoverFenced(content: string): (r: Option<string>)
    ensures r.Some? <==> Contains(content, JsonFence)
    ensures r.Some? ==> IsStripped(r.value) && !Contains(r.value, Fence)
    ensures r.Some? ==> Contains(content, r.value)
  {
    var after := After(content, JsonFence);
    if after.None? then None
    else
      var body := Before(after.value, Fence);
      StripNotContains(body, Fence);
      RecoveredOccurs(content, JsonFence, after.value, body);
      Some(Strip(body))
  }

  /**
   * The recovered text is the stripped span that starts right after the first "```json"
   * and ends at the next "```", or at the end of the reply when no "```" follows.
   */
  lemma RecoverFencedSpan(content: string) returns (i: nat, end: nat)
    requires Contains(content, JsonFence)
    ensures OccursAt(content, JsonFence, i)
    ensures forall k :: 0 <= k < i ==> !OccursAt(content, JsonFence, k)
    ensures i + |JsonFence| <= end <= |content|
    ensures end == |content| || OccursAt(content, Fence, end)
    ensures forall k :: i + |JsonFence| <= k < end ==> !OccursAt(content, Fence, k)
    ensures RecoverFenced(content) == Some(Strip(content[i + |JsonFence|..end]))
  {
    i := FirstIndex(content, JsonFence).value;
    var start := i + |JsonFence|;
    var after := content[start..];
    assert After(content, JsonFence) == Some(after);
    RecoverFencedCut(content);
    var body := Before(after, Fence);
    assert RecoverFenced(content) == Some(Strip(body));
    end := BeforeFrom(content, start, Fence);
  }

  /** The recovery trims what precedes the next "```" in the text after the first "```json". */
  lemma RecoverFencedCut(content: string)
    ensures var after := After(content, JsonFence);
      RecoverFenced(content) == if after.None? then None else Some(Strip(Before(after.value, Fence)))
  {
  }

  /** The trimmed text following an occurrence of `pat` is a piece of the content. */
  lemma RecoveredOccurs(content: string, pat: string, after: string, body: string)
    requires exists k :: OccursAt(content, pat, k) && after == content[k + |pat|..]
    requires StartsWith(after, body)
    ensures Contains(content, Strip(body))
  {
    var k :| OccursAt(content, pat, k) && after == content[k + |pat|..];
    var i, j := StripIsSlice(body);
    var piece := body[i..j];
    assert OccursAt(body, piece, i);
    assert body == after[..|body|];
    ContainsSlice(after, piece, 0, |body|);
    assert after == content[k + |pat|..|content|];
    ContainsSlice(content, piece, k + |pat|, |content|);
  }
}
