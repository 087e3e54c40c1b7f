/**
 * The banking chatbot's bookkeeping: which data sources a query pulls in (a keyword
 * registry), what each consent-gated extractor returns, how the query is classified,
 * and how the attribute ids the model reports are reconciled with the ids that were
 * actually read.
 */
module Chatbot {

  import opened Wrappers
  import opened Seqs
  import opened Text
  import opened StringOrder
  import opened Privacy
  import opened Store
  import opened Tally
  import Calendar
  import Savings
  import Transactions
  import Attribution

  // ---------------------------------------------------------------------------
  // The extractor registry
  // ---------------------------------------------------------------------------

  /** The data sources of the registry, in registry order. */
  datatype Source = UserSource | AccountsSource | TransactionsSource | SavingsAccountsSource | SavingsGoalsSource

  /** Where a source sits in the registry. */
  function Position(s: Source): nat {
    match s
    case UserSource => 0
    case AccountsSource => 1
    case TransactionsSource => 2
    case SavingsAccountsSource => 3
    case SavingsGoalsSource => 4
  }

  const UserKeywords: seq<string> := ["user", "profile", "me", "my", "personal"]
  const AccountKeywords: seq<string> := ["account", "balance", "checking", "deposit", "withdraw"]
  const TransactionKeywords: seq<string> := ["transaction", "spending", "purchase", "payment", "spent", "expense"]
  const SavingsKeywords: seq<string> := ["savings", "saving", "goal", "emergency fund", "target", "apy", "interest"]
  const GoalKeywords: seq<string> := ["goal", "target", "saving goal", "financial goal", "milestone", "deadline"]

  function KeywordsOf(s: Source): seq<string> {
    match s
    case UserSource => UserKeywords
    case AccountsSource => AccountKeywords
    case TransactionsSource => TransactionKeywords
    case SavingsAccountsSource => SavingsKeywords
    case SavingsGoalsSource => GoalKeywords
  }

  /** One entry of `DATA_EXTRACTORS`. */
  datatype Topic = Topic(source: Source, keywords: seq<string>, alwaysInclude: bool)

  /** The registry entry of a source: only the user profile is always included. */
  function Entry(s: Source): Topic {
    Topic(s, KeywordsOf(s), s == UserSource)
  }

  const Registry: seq<Topic> :=
    [Entry(UserSource), Entry(AccountsSource), Entry(TransactionsSource), Entry(SavingsAccountsSource), Entry(SavingsGoalsSource)]

  /** `any(keyword in query_lower for keyword in keywords)` */
  predicate Mentions(q: string, keywords: seq<string>) {
    exists k | k in keywords :: Contains(q, k)
  }

  /** A topic is used when it is always included or one of its keywords occurs in the query. */
  predicate Wanted(t: Topic, q: string) {
    t.alwaysInclude || Mentions(q, t.keywords)
  }

  /** The sources of the wanted topics, in registry order. */
  function Selected(topics: seq<Topic>, q: string): (r: seq<Source>)
    ensures forall s :: s in r <==> exists t | t in topics :: t.source == s && Wanted(t, q)
  {
    if |topics| == 0 then []
    else
      var n := |topics| - 1;
      var front := Selected(topics[..n], q);
      assert topics == topics[..n] + [topics[n]];
      if Wanted(topics[n], q) then front + [topics[n].source] else front
  }

  function Sources(topics: seq<Topic>): (ss: seq<Source>)
    ensures |ss| == |topics|
    ensures forall i | 0 <= i < |topics| :: ss[i] == topics[i].source
  {
    seq(|topics|, i requires 0 <= i < |topics| => topics[i].source)
  }

  /** Strictly increasing registry positions: registry order, no source twice. */
  predicate InRegistryOrder(ss: seq<Source>) {
    forall i, j | 0 <= i < j < |ss| :: Position(ss[i]) < Position(ss[j])
  }

  /** Selection keeps the order of the topic list it selects from. */
  lemma {:induction false} SelectedInOrder(topics: seq<Topic>, q: string)
    requires InRegistryOrder(Sources(topics))
    ensures InRegistryOrder(Selected(topics, q))
  {
    if |topics| > 0 {
      var n := |topics| - 1;
      var last := topics[n].source;
      assert Sources(topics[..n]) == Sources(topics)[..n];
      SelectedInOrder(topics[..n], q);
      var front := Selected(topics[..n], q);
      if Wanted(topics[n], q) {
        assert Selected(topics, q) == front + [last];
        SelectedAmongSources(topics[..n], q);
        forall s | s in front ensures Position(s) < Position(last) {
          var k :| 0 <= k < n && Sources(topics)[..n][k] == s;
          assert Sources(topics)[k] == s && Sources(topics)[n] == last;
        }
        InOrderSnoc(front, last);
      } else {
        assert Selected(topics, q) == front;
      }
    }
  }

  /** Every selected source is the source of one of the topics. */
  lemma SelectedAmongSources(topics: seq<Topic>, q: string)
    ensures forall s | s in Selected(topics, q) :: s in Sources(topics)
  {
    forall s | s in Selected(topics, q) ensures s in Sources(topics) {
      var t :| t in topics && t.source == s && Wanted(t, q);
      var k :| 0 <= k < |topics| && topics[k] == t;
      assert Sources(topics)[k] == s;
    }
  }

  /** Appending a source placed after every listed one keeps registry order. */
  lemma InOrderSnoc(ss: seq<Source>, s: Source)
    requires InRegistryOrder(ss)
    requires forall x | x in ss :: Position(x) < Position(s)
    ensures InRegistryOrder(ss + [s])
  {
    forall i, j | 0 <= i < j < |ss| + 1 ensures Position((ss + [s])[i]) < Position((ss + [s])[j]) {
      if j == |ss| {
        assert (ss + [s])[i] in ss;
      }
    }
  }

  /** Over a list of registry entries, a source is selected iff its entry is listed and wanted. */
  lemma SelectedEntries(topics: seq<Topic>, q: string, s: Source)
    requires forall t | t in topics :: t == Entry(t.source)
    ensures s in Selected(topics, q) <==> Entry(s) in topics && Wanted(Entry(s), q)
  {
  }

  /** Exactly the user profile and the topics whose keywords occur are selected. */
  lemma RegistrySelection(q: string, s: Source)
    ensures s in Selected(Registry, q) <==> s == UserSource || Mentions(q, KeywordsOf(s))
  {
    assert Entry(s) in Registry by {
      match s
      case UserSource => assert Registry[0] == Entry(s);
      case AccountsSource => assert Registry[1] == Entry(s);
      case TransactionsSource => assert Registry[2] == Entry(s);
      case SavingsAccountsSource => assert Registry[3] == Entry(s);
      case SavingsGoalsSource => assert Registry[4] == Entry(s);
    }
    SelectedEntries(Registry, q, s);
  }

  /** The selected sources come in registry order, the user profile first. */
  lemma RegistryOrder(q: string)
    ensures InRegistryOrder(Selected(Registry, q))
    ensures |Selected(Registry, q)| > 0 && Selected(Registry, q)[0] == UserSource
  {
    assert Sources(Registry) == [UserSource, AccountsSource, TransactionsSource, SavingsAccountsSource, SavingsGoalsSource];
    SelectedInOrder(Registry, q);
    RegistrySelection(q, UserSource);
    var r := Selected(Registry, q);
    var k :| 0 <= k < |r| && r[k] == UserSource;
  }

  /** The loop of `extract_all_relevant_data` that picks the extractors to run. */
  method SelectExtractors(query: string) returns (chosen: seq<Source>)
    ensures chosen == Selected(Registry, ToLower(query))
  {
    var q := ToLower(query);
    chosen := [];
    for i := 0 to |Registry|
      invariant chosen == Selected(Registry[..i], q)
    {
      assert Registry[..i + 1][..i] == Registry[..i];
      var topic := Registry[i];
      if topic.alwaysInclude {
        chosen := chosen + [topic.source];
      } else if Mentions(q, topic.keywords) {
        chosen := chosen + [topic.source];
      }
    }
    assert Registry[..|Registry|] == Registry;
  }

  // ---------------------------------------------------------------------------
  // Query classification
  // ---------------------------------------------------------------------------

  datatype QueryType = Loan | GoalQuery | AccountQuery | TransactionQuery | Offer | Explanation | General

  function QueryKeywords(t: QueryType): seq<string> {
    match t
    case Loan => ["loan", "borrow", "lend", "eligibility"]
    case GoalQuery => ["goal", "target", "saving goal", "milestone"]
    case AccountQuery => ["account", "balance", "savings", "checking"]
    case TransactionQuery => ["transaction", "spending", "payment", "purchase"]
    case Offer => ["offer", "promotion", "discount", "deal"]
    case Explanation => ["explain", "what", "how", "why", "profile"]
    case General => []
  }

  /** The order in which `determine_query_type` tries the classes. */
  const QueryOrder: seq<QueryType> := [Loan, GoalQuery, AccountQuery, TransactionQuery, Offer, Explanation]

  /** One branch of `determine_query_type`: the class it returns and the keywords it looks for. */
  datatype Rule = Rule(kind: QueryType, keywords: seq<string>)

  /** The branches for the classes of `order`, in that order. */
  function Rules(order: seq<QueryType>): (rules: seq<Rule>)
    ensures |rules| == |order|
    ensures forall i | 0 <= i < |order| :: rules[i] == Rule(order[i], QueryKeywords(order[i]))
  {
    seq(|order|, i requires 0 <= i < |order| => Rule(order[i], QueryKeywords(order[i])))
  }

  /** No branch returns `General`: that is the fall-through. */
  predicate NoGeneral(rules: seq<Rule>) {
    forall k | 0 <= k < |rules| :: rules[k].kind != General
  }

  /** The class of the first branch whose keywords occur in `q`, or `General`. */
  function FirstMatch(rules: seq<Rule>, q: string): (r: QueryType)
    requires NoGeneral(rules)
    ensures r == General <==> forall k | 0 <= k < |rules| :: !Mentions(q, rules[k].keywords)
    ensures r != General ==> exists k | 0 <= k < |rules| :: rules[k].kind == r && Mentions(q, rules[k].keywords)
  {
    if |rules| == 0 then General
    else if Mentions(q, rules[0].keywords) then rules[0].kind
    else
      var r := FirstMatch(rules[1..], q);
      assert forall k | 1 <= k < |rules| :: rules[k] == rules[1..][k - 1];
      r
  }

  /** The branch `FirstMatch` takes comes at or before any branch that matches, after only branches that do not. */
  lemma {:induction false} FirstMatchEarliest(rules: seq<Rule>, q: string, i: nat)
    requires NoGeneral(rules)
    requires i < |rules| && Mentions(q, rules[i].keywords)
    ensures exists k | 0 <= k <= i :: FirstMatch(rules, q) == rules[k].kind &&
              forall j | 0 <= j < k :: !Mentions(q, rules[j].keywords)
  {
    if Mentions(q, rules[0].keywords) {
      assert FirstMatch(rules, q) == rules[0].kind;
    } else {
      var rest := rules[1..];
      FirstMatchEarliest(rest, q, i - 1);
      var k :| 0 <= k <= i - 1 && FirstMatch(rest, q) == rest[k].kind &&
               forall j | 0 <= j < k :: !Mentions(q, rest[j].keywords);
      forall j | 0 <= j < k + 1 ensures !Mentions(q, rules[j].keywords) {
        if j > 0 {
          assert rules[j] == rest[j - 1];
        }
      }
      assert FirstMatch(rules, q) == FirstMatch(rest, q) == rules[k + 1].kind;
    }
  }

  /**
   * `determine_query_type`: the first class (loan, goal, account, transaction, offer,
   * explanation) one of whose keywords occurs in the lowercased query; `general` when
   * none does.
   */
  function DetermineQueryType(query: string): (r: QueryType)
    ensures r == General <==> forall t | t in QueryOrder :: !Mentions(ToLower(query), QueryKeywords(t))
    ensures r != General ==> Mentions(ToLower(query), QueryKeywords(r))
  {
    var rules := Rules(QueryOrder);
    assert NoGeneral(rules);
    assert forall t | t in QueryOrder :: exists k | 0 <= k < |rules| :: rules[k] == Rule(t, QueryKeywords(t));
    FirstMatch(rules, ToLower(query))
  }

  /** In a list of branches without repeated classes, no branch before the one taken matches. */
  lemma FirstMatchPrecedence(rules: seq<Rule>, q: string, i: nat, j: nat)
    requires NoGeneral(rules)
    requires forall a, b | 0 <= a < b < |rules| :: rules[a].kind != rules[b].kind
    requires i < j < |rules| && FirstMatch(rules, q) == rules[j].kind
    ensures !Mentions(q, rules[i].keywords)
  {
    if Mentions(q, rules[i].keywords) {
      FirstMatchEarliest(rules, q, i);
    }
  }

  /** Where a class sits in `QueryOrder`. */
  function Rank(t: QueryType): nat {
    match t
    case Loan => 0
    case GoalQuery => 1
    case AccountQuery => 2
    case TransactionQuery => 3
    case Offer => 4
    case Explanation => 5
    case General => 6
  }

  lemma RankIndexes(t: QueryType)
    requires t != General
    ensures Rank(t) < |QueryOrder| && QueryOrder[Rank(t)] == t
  {
  }

  lemma QueryOrderClasses()
    ensures Distinct(QueryOrder) && General !in QueryOrder
  {
  }

  /** A class wins only if every class tried before it has no keyword in the query. */
  lemma QueryTypePrecedence(query: string, earlier: QueryType)
    requires earlier != General && Rank(earlier) < Rank(DetermineQueryType(query))
    ensures !Mentions(ToLower(query), QueryKeywords(earlier))
  {
    var r := DetermineQueryType(query);
    var rules := Rules(QueryOrder);
    QueryRulesClasses();
    if r != General {
      FirstMatchPrecedence(rules, ToLower(query), Rank(earlier), Rank(r));
    } else {
      assert rules[Rank(earlier)] == Rule(earlier, QueryKeywords(earlier));
    }
  }

  /** The branches of `determine_query_type` return distinct classes, none of them `General`, each at its rank. */
  lemma QueryRulesClasses()
    ensures NoGeneral(Rules(QueryOrder))
    ensures forall a, b | 0 <= a < b < |Rules(QueryOrder)| :: Rules(QueryOrder)[a].kind != Rules(QueryOrder)[b].kind
    ensures forall t | t != General :: Rank(t) < |Rules(QueryOrder)| && Rules(QueryOrder)[Rank(t)] == Rule(t, QueryKeywords(t))
  {
    var rules := Rules(QueryOrder);
    QueryOrderClasses();
    forall t | t != General ensures Rank(t) < |rules| && rules[Rank(t)] == Rule(t, QueryKeywords(t)) {
      RankIndexes(t);
    }
  }

  /** A loan keyword always makes a loan query, whatever else the query mentions. */
  lemma LoanFirst(query: string)
    requires Mentions(ToLower(query), QueryKeywords(Loan))
    ensures DetermineQueryType(query) == Loan
  {
    var rules := Rules(QueryOrder);
    assert rules[0] == Rule(Loan, QueryKeywords(Loan));
    FirstMatchEarliest(rules, ToLower(query), 0);
  }

  // ---------------------------------------------------------------------------
  // The extractors
  // ---------------------------------------------------------------------------

  /** The age and financial fields of the user profile, present only for a user with income or a score. */
  datatype Financial = Financial(income: Option<real>, creditScore: Option<real>, employmentStatus: Option<string>, age: Option<int>)

  /** A goal as the chat payload shows it: the stored goal (status filled in) with its progress and remainder. */
  datatype ChatGoal = ChatGoal(goal: Goal, progress: real, remaining: real)

  /** The payload one extractor produces. */
  datatype Summary =
    | UserData(name: string, email: Option<string>, firstName: Option<string>, lastName: Option<string>,
               financial: Option<Financial>)
    | AccountsData(accounts: seq<Account>, totalBalance: real, accountCount: nat, currency: string)
    | TransactionsData(recentCount: nat, monthlySpending: real, categories: Tally)
    | SavingsData(savingsAccounts: seq<SavingsAccount>, totalSavings: real, averageApy: real, savingsAccountCount: nat)
    | GoalsData(goals: seq<ChatGoal>, totalGoals: nat, totalTarget: real, totalCurrent: real, activeGoals: nat)

  /** What an extractor returns: the payload (`None` is the empty dict) and the attribute ids it read. */
  datatype Extracted = Extracted(data: Option<Summary>, attrs: seq<string>)

  /** `return {}, []` */
  const NothingExtracted := Extracted(None, [])

  const UserBasicAttributes: seq<string> := ["user.email", "user.firstName", "user.lastName"]
  const IncomeAttribute := "user.income"
  const UserFinancialAttributes: seq<string> := [IncomeAttribute, "user.creditScore", "user.employmentStatus"]
  const DateOfBirthAttribute := "user.dateOfBirth"

  /** `user.get("income") or user.get("creditScore")` */
  predicate HasFinancials(u: User) {
    Truthy(u.income) || Truthy(u.creditScore)
  }

  /**
   * `extract_user_basic`: name and contact details always; the financial fields only for a
   * user with a non-zero income or credit score, and the age only then and with a birth date.
   * An id is listed exactly when its field is in the payload.
   */
  function UserExtract(u: User, today: Calendar.Date): (e: Extracted)
    ensures e.data.Some? && e.data.value.UserData?
    ensures e.data.value.name == FullName(u) && e.data.value.email == u.email
    ensures forall x | x in UserBasicAttributes :: x in e.attrs
    ensures e.data.value.financial.Some? <==> HasFinancials(u)
    ensures IncomeAttribute in e.attrs <==> e.data.value.financial.Some?
    ensures DateOfBirthAttribute in e.attrs <==> e.data.value.financial.Some? && e.data.value.financial.value.age.Some?
    ensures e.data.value.financial.Some? && u.dateOfBirth.Some? ==>
              e.data.value.financial.value.age == Some(Calendar.Age(u.dateOfBirth.value, today))
  {
    var financial :=
      if HasFinancials(u) then
        Some(Financial(u.income, u.creditScore, u.employmentStatus, Calendar.CalculateAge(u.dateOfBirth, today)))
      else None;
    var attrs :=
      if HasFinancials(u) then
        UserBasicAttributes + UserFinancialAttributes + (if u.dateOfBirth.Some? then [DateOfBirthAttribute] else [])
      else UserBasicAttributes;
    Extracted(Some(UserData(FullName(u), u.email, u.firstName, u.lastName, financial)), attrs)
  }

  const AccountsGate := "accounts.balance"
  const ChatAccountAttributes: seq<string> :=
    [AccountsGate, "accounts.accountType", "accounts.accountNumber", "accounts.status", "accounts.currency"]

  /** The query's `"status": {"$ne": "closed"}` filter, in list order. */
  function OpenAccounts(rows: seq<Account>): (r: seq<Account>)
    ensures forall a :: a in r <==> a in rows && a.status != "closed"
    ensures |r| <= |rows|
  {
    if |rows| == 0 then []
    else
      var n := |rows| - 1;
      assert rows == rows[..n] + [rows[n]];
      var front := OpenAccounts(rows[..n]);
      if rows[n].status != "closed" then front + [rows[n]] else front
  }

  /** A set, non-empty text (Python truthiness of a string field). */
  predicate HasText(c: Option<string>) {
    c.Some? && c.value != ""
  }

  /** None of the first `n` currencies is set. */
  predicate TextFree(cs: seq<Option<string>>, n: nat)
    requires n <= |cs|
  {
    forall j | 0 <= j < n :: !HasText(cs[j])
  }

  /** `currencies[0] if currencies else "INR"` over the truthy currencies. */
  function PrimaryCurrency(cs: seq<Option<string>>): (c: string)
    ensures TextFree(cs, |cs|) ==> c == "INR"
    ensures forall i | 0 <= i < |cs| && HasText(cs[i]) && TextFree(cs, i) :: c == cs[i].value
  {
    if |cs| == 0 then "INR"
    else if HasText(cs[0]) then cs[0].value
    else
      var rest := cs[1..];
      var c := PrimaryCurrency(rest);
      assert TextFree(cs, |cs|) ==> TextFree(rest, |rest|) by {
        if TextFree(cs, |cs|) {
          forall j | 0 <= j < |rest| ensures !HasText(rest[j]) {
            assert rest[j] == cs[j + 1];
          }
        }
      }
      assert forall i | 0 <= i < |cs| && HasText(cs[i]) && TextFree(cs, i) :: c == cs[i].value by {
        forall i | 0 <= i < |cs| && HasText(cs[i]) && TextFree(cs, i) ensures c == cs[i].value {
          assert i > 0 && rest[i - 1] == cs[i];
          forall j | 0 <= j < i - 1 ensures !HasText(rest[j]) {
            assert rest[j] == cs[j + 1];
          }
        }
      }
      c
  }

  function Currencies(accounts: seq<Account>): (cs: seq<Option<string>>)
    ensures |cs| == |accounts| && forall i | 0 <= i < |accounts| :: cs[i] == accounts[i].currency
  {
    seq(|accounts|, i requires 0 <= i < |accounts| => accounts[i].currency)
  }

  /**
   * `extract_accounts`: nothing when the balance is not shared or no account is open;
   * otherwise the open accounts, their total, count and primary currency.
   */
  function AccountsExtract(doc: PermissionDoc, rows: seq<Account>): (e: Extracted)
    ensures !IsAllowed(doc, AccountsGate) ==> e == NothingExtracted
    ensures e.data.None? <==> !IsAllowed(doc, AccountsGate) || forall a | a in rows :: a.status == "closed"
    ensures e.data.None? ==> e.attrs == []
    ensures e.data.Some? ==> e.attrs == ChatAccountAttributes && e.data.value.AccountsData?
    ensures e.data.Some? ==> e.data.value.accountCount == |e.data.value.accounts| > 0
    ensures e.data.Some? ==> forall a :: a in e.data.value.accounts <==> a in rows && a.status != "closed"
    ensures e.data.Some? ==> e.data.value.accounts == OpenAccounts(rows)
    ensures e.data.Some? ==> e.data.value.totalBalance == TotalBalance(OpenAccounts(rows))
    ensures e.data.Some? ==> e.data.value.currency == PrimaryCurrency(Currencies(OpenAccounts(rows)))
  {
    var open := OpenAccounts(rows);
    if !IsAllowed(doc, AccountsGate) || |open| == 0 then NothingExtracted
    else
      var summary := AccountsData(open, TotalBalance(open), |open|, PrimaryCurrency(Currencies(open)));
      Extracted(Some(summary), ChatAccountAttributes)
  }

  const TransactionsGate := "transactions.amount"
  const ChatTransactionAttributes: seq<string> :=
    [TransactionsGate, "transactions.category", "transactions.type", "transactions.description",
     "transactions.createdAt", "transactions.currency"]

  /** The query's `.limit(50)`. */
  const RecentLimit := 50

  function Recent(rows: seq<Transaction>): (r: seq<Transaction>)
    ensures |r| <= RecentLimit && r <= rows
    ensures |rows| <= RecentLimit ==> r == rows
  {
    if |rows| <= RecentLimit then rows else rows[..RecentLimit]
  }

  function Abs(x: real): (r: real)
    ensures r >= 0.0 && (r == x || r == -x)
  {
    if x < 0.0 then -x else x
  }

  /** The `categories[cat] += abs(amount)` tally, credits included. */
  function AbsByCategory(txns: seq<Transaction>): Tally {
    if |txns| == 0 then []
    else
      var t := txns[|txns| - 1];
      Add(AbsByCategory(txns[..|txns| - 1]), Transactions.CategoryOf(t), Abs(t.amount))
  }

  /** Sum of the absolute amounts. */
  function AbsTotal(txns: seq<Transaction>): real {
    if |txns| == 0 then 0.0 else AbsTotal(txns[..|txns| - 1]) + Abs(txns[|txns| - 1].amount)
  }

  /** Sum of the absolute amounts of the debits. */
  function AbsDebits(txns: seq<Transaction>): real {
    if |txns| == 0 then 0.0
    else
      var t := txns[|txns| - 1];
      AbsDebits(txns[..|txns| - 1]) + (if t.kind == "debit" then Abs(t.amount) else 0.0)
  }

  /** The category tally is a dict whose values add up to all the money moved. */
  lemma {:induction false} AbsByCategoryTotal(txns: seq<Transaction>)
    ensures WellFormed(AbsByCategory(txns))
    ensures Total(AbsByCategory(txns)) == AbsTotal(txns)
  {
    if |txns| > 0 {
      var n := |txns| - 1;
      var front := AbsByCategory(txns[..n]);
      var category, amount := Transactions.CategoryOf(txns[n]), Abs(txns[n].amount);
      assert AbsByCategory(txns) == Add(front, category, amount);
      assert AbsTotal(txns) == AbsTotal(txns[..n]) + amount;
      AbsByCategoryTotal(txns[..n]);
      AddWellFormed(front, category, amount);
      AddTotal(front, category, amount);
    }
  }

  /** The debits are part of the money moved. */
  lemma {:induction false} AbsDebitsBounded(txns: seq<Transaction>)
    ensures 0.0 <= AbsDebits(txns) <= AbsTotal(txns)
  {
    if |txns| > 0 {
      AbsDebitsBounded(txns[..|txns| - 1]);
    }
  }

  /**
   * `extract_transactions`: nothing when amounts are not shared or no transaction is found;
   * otherwise the count (at most 50), the per-category tally of absolute amounts and the
   * monthly spending (absolute debits over six months), which the tally bounds.
   */
  function TransactionsExtract(doc: PermissionDoc, rows: seq<Transaction>): (e: Extracted)
    ensures !IsAllowed(doc, TransactionsGate) ==> e == NothingExtracted
    ensures e.data.None? <==> !IsAllowed(doc, TransactionsGate) || |rows| == 0
    ensures e.data.None? ==> e.attrs == []
    ensures e.data.Some? ==> e.attrs == ChatTransactionAttributes && e.data.value.TransactionsData?
    ensures e.data.Some? ==> 0 < e.data.value.recentCount <= RecentLimit
    ensures e.data.Some? ==> WellFormed(e.data.value.categories) && Total(e.data.value.categories) == AbsTotal(Recent(rows))
    ensures e.data.Some? ==> 0.0 <= e.data.value.monthlySpending * 6.0 <= Total(e.data.value.categories)
    ensures e.data.Some? ==> e.data.value.recentCount == |Recent(rows)|
    ensures e.data.Some? ==> e.data.value.categories == AbsByCategory(Recent(rows))
    ensures e.data.Some? ==> e.data.value.monthlySpending * 6.0 == AbsDebits(Recent(rows))
  {
    if !IsAllowed(doc, TransactionsGate) || |rows| == 0 then NothingExtracted
    else
      var recent := Recent(rows);
      AbsByCategoryTotal(recent);
      AbsDebitsBounded(recent);
      var monthly := AbsDebits(recent) / 6.0;
      assert monthly * 6.0 == AbsDebits(recent);
      Extracted(Some(TransactionsData(|recent|, monthly, AbsByCategory(recent))), ChatTransactionAttributes)
  }

  /** Past the gate, the extract is built from the tally and the debits of the recent rows. */
  lemma TransactionsExtractShared(doc: PermissionDoc, rows: seq<Transaction>)
    requires IsAllowed(doc, TransactionsGate) && |rows| > 0
    ensures TransactionsExtract(doc, rows)
      == Extracted(Some(TransactionsData(|Recent(rows)|, AbsDebits(Recent(rows)) / 6.0, AbsByCategory(Recent(rows)))),
                   ChatTransactionAttributes)
  {
  }

  /** The tally loop of `extract_transactions`. */
  method ExtractTransactions(doc: PermissionDoc, rows: seq<Transaction>) returns (e: Extracted)
    ensures e == TransactionsExtract(doc, rows)
  {
    if !IsAllowed(doc, TransactionsGate) || |rows| == 0 {
      return NothingExtracted;
    }
    var recent := Recent(rows);
    var categories: Tally := [];
    var spending := 0.0;
    for i := 0 to |recent|
      invariant categories == AbsByCategory(recent[..i])
      invariant spending == AbsDebits(recent[..i])
    {
      assert recent[..i + 1][..i] == recent[..i];
      var t := recent[i];
      categories := Add(categories, Transactions.CategoryOf(t), Abs(t.amount));
      if t.kind == "debit" {
        spending := spending + Abs(t.amount);
      }
    }
    assert recent[..|recent|] == recent;
    TransactionsExtractShared(doc, rows);
    e := Extracted(Some(TransactionsData(|recent|, spending / 6.0, categories)), ChatTransactionAttributes);
  }

  const SavingsGate := "savings_accounts.balance"
  const ChatSavingsAttributes: seq<string> :=
    ["savings_accounts.name", SavingsGate, "savings_accounts.accountType", "savings_accounts.accountNumber",
     "savings_accounts.apy", "savings_accounts.interestRate", "savings_accounts.monthlyGrowth",
     "savings_accounts.minimumBalance"]

  /** Sum of the APYs. */
  function ApySum(rows: seq<SavingsAccount>): real {
    if |rows| == 0 then 0.0 else ApySum(rows[..|rows| - 1]) + rows[|rows| - 1].apy
  }

  /**
   * `extract_savings_accounts`: nothing when balances are not shared or there is no savings
   * account; otherwise the accounts, their total and their mean APY (zeros included).
   */
  function SavingsExtract(doc: PermissionDoc, rows: seq<SavingsAccount>): (e: Extracted)
    ensures !IsAllowed(doc, SavingsGate) ==> e == NothingExtracted
    ensures e.data.None? <==> !IsAllowed(doc, SavingsGate) || |rows| == 0
    ensures e.data.None? ==> e.attrs == []
    ensures e.data.Some? ==> e.attrs == ChatSavingsAttributes && e.data.value.SavingsData?
    ensures e.data.Some? ==> e.data.value.savingsAccountCount == |rows| > 0
    ensures e.data.Some? ==> e.data.value.averageApy * (|rows| as real) == ApySum(rows)
    ensures e.data.Some? ==> e.data.value.savingsAccounts == rows && e.data.value.totalSavings == TotalSavings(rows)
  {
    if !IsAllowed(doc, SavingsGate) || |rows| == 0 then NothingExtracted
    else
      var n := |rows| as real;
      var average := ApySum(rows) / n;
      assert average * n == ApySum(rows);
      Extracted(Some(SavingsData(rows, TotalSavings(rows), average, |rows|)), ChatSavingsAttributes)
  }

  const GoalsGate := "savings_goals.targetAmount"
  const ChatGoalAttributes: seq<string> :=
    ["savings_goals.name", GoalsGate, "savings_goals.currentAmount", "savings_goals.deadline",
     "savings_goals.monthlyContribution", "savings_goals.priority", "savings_goals.category",
     "savings_goals.status"]

  /** `goal.get("status")` is truthy. */
  predicate HasStatus(g: Goal) {
    g.status.Some? && g.status.value != ""
  }

  /** The text a goal status is stored and shown as. */
  function StatusLabel(s: Savings.GoalStatus): (text: string)
    ensures text == "Completed" <==> s == Savings.Completed
    ensures text == "Behind" <==> s == Savings.Behind
    ensures text == "Ahead" <==> s == Savings.Ahead
    ensures text == "On Track" <==> s == Savings.OnTrack
  {
    match s
    case Completed => "Completed"
    case Ahead => "Ahead"
    case OnTrack => "On Track"
    case Behind => "Behind"
  }

  predicate Reached(g: Goal) {
    g.targetAmount > 0.0 && g.currentAmount >= g.targetAmount
  }

  /**
   * One pass of the loop in `extract_savings_goals`: progress and remainder always; a
   * missing status is computed only for a goal with a deadline.
   */
  function Annotated(g: Goal): (c: ChatGoal)
    ensures c.remaining == g.targetAmount - g.currentAmount
    ensures c.progress >= 100.0 <==> Reached(g)
    ensures c.goal == g.(status := c.goal.status)
    ensures HasStatus(g) || g.daysToDeadline.None? ==> c.goal == g
    ensures !HasStatus(g) && g.daysToDeadline.Some? ==> (c.goal.status == Some("Completed") <==> Reached(g))
    ensures !HasStatus(g) && g.daysToDeadline.Some? && g.daysToDeadline.value <= 0 && !Reached(g) ==>
              c.goal.status == Some("Behind")
    ensures !HasStatus(g) && g.daysToDeadline.Some? && !Reached(g) ==>
              var needed := Savings.NeededPerMonth(g.currentAmount, g.targetAmount, g.daysToDeadline.value);
              && (c.goal.status == Some("Ahead") <==> Savings.AtMost(needed, g.monthlyContribution * 0.9))
              && (c.goal.status == Some("On Track") <==>
                    !Savings.AtMost(needed, g.monthlyContribution * 0.9) && Savings.AtMost(needed, g.monthlyContribution * 1.1))
              && (c.goal.status == Some("Behind") <==>
                    !Savings.AtMost(needed, g.monthlyContribution * 0.9) && !Savings.AtMost(needed, g.monthlyContribution * 1.1))
  {
    var progress := Savings.Progress(g.currentAmount, g.targetAmount);
    var status :=
      if !HasStatus(g) && g.daysToDeadline.Some? then
        var s := Savings.CalculateGoalStatus(g.currentAmount, g.targetAmount, g.daysToDeadline.value, g.monthlyContribution);
        Some(StatusLabel(s))
      else g.status;
    ChatGoal(g.(status := status), progress, g.targetAmount - g.currentAmount)
  }

  /** The loop of `extract_savings_goals`, updating each goal of the fetched list in place. */
  method AnnotateGoals(a: array<ChatGoal>)
    modifies a
    ensures forall i | 0 <= i < a.Length :: a[i] == Annotated(old(a[i]).goal)
  {
    for i := 0 to a.Length
      invariant forall k | 0 <= k < i :: a[k] == Annotated(old(a[k]).goal)
      invariant forall k | i <= k < a.Length :: a[k] == old(a[k])
    {
      a[i] := Annotated(a[i].goal);
    }
  }

  function GoalsOf(cs: seq<ChatGoal>): (gs: seq<Goal>)
    ensures |gs| == |cs| && forall i | 0 <= i < |cs| :: gs[i] == cs[i].goal
  {
    seq(|cs|, i requires 0 <= i < |cs| => cs[i].goal)
  }

  /** Every goal annotated, in order. */
  function AnnotateAll(gs: seq<Goal>): (cs: seq<ChatGoal>)
    ensures |cs| == |gs| && forall i | 0 <= i < |gs| :: cs[i] == Annotated(gs[i])
  {
    seq(|gs|, i requires 0 <= i < |gs| => Annotated(gs[i]))
  }

  /** Annotation changes only statuses, so the sums over the goals are those of the stored goals. */
  lemma {:induction false} AnnotatedTotals(gs: seq<Goal>)
    ensures TotalTargets(GoalsOf(AnnotateAll(gs))) == TotalTargets(gs)
    ensures TotalCurrent(GoalsOf(AnnotateAll(gs))) == TotalCurrent(gs)
  {
    if |gs| > 0 {
      var n := |gs| - 1;
      AnnotatedTotals(gs[..n]);
      assert GoalsOf(AnnotateAll(gs))[..n] == GoalsOf(AnnotateAll(gs[..n]));
    }
  }

  /**
   * `extract_savings_goals`: nothing when targets are not shared or there is no goal;
   * otherwise every goal annotated, the totals and the number of goals not Completed.
   */
  function GoalsExtract(doc: PermissionDoc, rows: seq<Goal>): (e: Extracted)
    ensures !IsAllowed(doc, GoalsGate) ==> e == NothingExtracted
    ensures e.data.None? <==> !IsAllowed(doc, GoalsGate) || |rows| == 0
    ensures e.data.None? ==> e.attrs == []
    ensures e.data.Some? ==> e.attrs == ChatGoalAttributes && e.data.value.GoalsData?
    ensures e.data.Some? ==> e.data.value.goals == AnnotateAll(rows) && e.data.value.totalGoals == |rows| > 0
    ensures e.data.Some? ==> e.data.value.activeGoals <= |rows|
    ensures e.data.Some? ==> e.data.value.totalTarget == TotalTargets(GoalsOf(e.data.value.goals))
    ensures e.data.Some? ==> e.data.value.totalCurrent == TotalCurrent(rows)
    ensures e.data.Some? ==> e.data.value.activeGoals == ActiveGoalCount(GoalsOf(e.data.value.goals))
  {
    if !IsAllowed(doc, GoalsGate) || |rows| == 0 then NothingExtracted
    else
      var goals := AnnotateAll(rows);
      AnnotatedTotals(rows);
      var summary := GoalsData(goals, |rows|, TotalTargets(rows), TotalCurrent(rows), ActiveGoalCount(GoalsOf(goals)));
      Extracted(Some(summary), ChatGoalAttributes)
  }

  /** `extract_savings_goals` over a freshly fetched list, annotated in place. */
  method ExtractSavingsGoals(doc: PermissionDoc, rows: seq<Goal>) returns (e: Extracted)
    ensures e == GoalsExtract(doc, rows)
  {
    if !IsAllowed(doc, GoalsGate) || |rows| == 0 {
      return NothingExtracted;
    }
    var a := new ChatGoal[|rows|](i requires 0 <= i < |rows| => ChatGoal(rows[i], 0.0, 0.0));
    AnnotateGoals(a);
    var goals := a[..];
    assert goals == AnnotateAll(rows);
    e := Extracted(Some(GoalsData(goals, |rows|, TotalTargets(rows), TotalCurrent(rows), ActiveGoalCount(GoalsOf(goals)))),
                   ChatGoalAttributes);
  }

  // ---------------------------------------------------------------------------
  // Running the selected extractors
  // ---------------------------------------------------------------------------

  /** What each extractor's query returns for the user; the database itself is not modelled. */
  datatype Snapshot = Snapshot(
    user: Option<User>,
    today: Calendar.Date,
    accounts: seq<Account>,
    transactions: seq<Transaction>,
    savingsAccounts: seq<SavingsAccount>,
    goals: seq<Goal>)

  /** The result of one extractor of `EXTRACTOR_FUNCTIONS`: only the user extractor can fail (404). */
  function Outcome(s: Source, snap: Snapshot, doc: PermissionDoc): (r: Result<Extracted, HttpError>)
    ensures r.Failure? <==> s == UserSource && snap.user.None?
    ensures s == UserSource && r.Success? ==> r.value.data.Some?
  {
    match s
    case UserSource =>
      if snap.user.None? then Failure(NotFound("User not found")) else Success(UserExtract(snap.user.value, snap.today))
    case AccountsSource => Success(AccountsExtract(doc, snap.accounts))
    case TransactionsSource => Success(TransactionsExtract(doc, snap.transactions))
    case SavingsAccountsSource => Success(SavingsExtract(doc, snap.savingsAccounts))
    case SavingsGoalsSource => Success(GoalsExtract(doc, snap.goals))
  }

  /** `EXTRACTOR_FUNCTIONS[name](user_id, db)` */
  method RunExtractor(s: Source, snap: Snapshot, doc: PermissionDoc) returns (r: Result<Extracted, HttpError>)
    ensures r == Outcome(s, snap, doc)
  {
    match s
    case UserSource =>
      if snap.user.None? {
        r := Failure(NotFound("User not found"));
      } else {
        r := Success(UserExtract(snap.user.value, snap.today));
      }
    case AccountsSource =>
      r := Success(AccountsExtract(doc, snap.accounts));
    case TransactionsSource =>
      var e := ExtractTransactions(doc, snap.transactions);
      r := Success(e);
    case SavingsAccountsSource =>
      r := Success(SavingsExtract(doc, snap.savingsAccounts));
    case SavingsGoalsSource =>
      var e := ExtractSavingsGoals(doc, snap.goals);
      r := Success(e);
  }

  /** The ids an extractor reports (none when it fails). */
  function AttrsOf(s: Source, snap: Snapshot, doc: PermissionDoc): seq<string> {
    var r := Outcome(s, snap, doc);
    if r.Success? then r.value.attrs else []
  }

  /**
   * An extractor that contributes to the payload: it did not raise (`raised` stands for the
   * failures outside the model, such as a database error) and returned a non-empty dict.
   */
  predicate Contributes(s: Source, snap: Snapshot, doc: PermissionDoc, raised: set<Source>) {
    s !in raised && Outcome(s, snap, doc).Success? && Outcome(s, snap, doc).value.data.Some?
  }

  /** `attrs` holds exactly the ids read by the extractors whose payloads are in `data`. */
  ghost predicate AttrsCover(data: map<Source, Summary>, attrs: seq<string>, snap: Snapshot, doc: PermissionDoc) {
    forall x :: x in attrs <==> exists s | s in data :: x in AttrsOf(s, snap, doc)
  }

  /** Recording one more payload together with its extractor's ids keeps the ids in step with the payloads. */
  lemma AttrsCoverStep(data: map<Source, Summary>, attrs: seq<string>, s: Source, v: Summary, snap: Snapshot, doc: PermissionDoc)
    requires AttrsCover(data, attrs, snap, doc)
    ensures AttrsCover(data[s := v], attrs + AttrsOf(s, snap, doc), snap, doc)
  {
    var data', attrs' := data[s := v], attrs + AttrsOf(s, snap, doc);
    forall x
      ensures x in attrs' <==> exists t | t in data' :: x in AttrsOf(t, snap, doc)
    {
      if x in attrs {
        var t :| t in data && x in AttrsOf(t, snap, doc);
        assert t in data';
      } else if x in AttrsOf(s, snap, doc) {
        assert s in data';
      }
    }
  }

  /** The payload keyed by source, and the de-duplicated ids read to build it. */
  datatype ChatData = ChatData(data: map<Source, Summary>, attributes: seq<string>)

  /** The loop of `extract_all_relevant_data`: run each chosen extractor that does not raise, keep the non-empty payloads. */
  method RunSelected(chosen: seq<Source>, snap: Snapshot, doc: PermissionDoc, raised: set<Source>)
    returns (data: map<Source, Summary>, attrs: seq<string>)
    ensures forall s :: s in data <==> s in chosen && Contributes(s, snap, doc, raised)
    ensures forall s | s in data :: Outcome(s, snap, doc).Success? && Outcome(s, snap, doc).value.data == Some(data[s])
    ensures forall x :: x in attrs <==> exists s | s in data :: x in AttrsOf(s, snap, doc)
  {
    data := map[];
    attrs := [];
    for i := 0 to |chosen|
      invariant forall s :: s in data <==> s in chosen[..i] && Contributes(s, snap, doc, raised)
      invariant forall s | s in data :: Outcome(s, snap, doc).Success? && Outcome(s, snap, doc).value.data == Some(data[s])
      invariant AttrsCover(data, attrs, snap, doc)
    {
      assert chosen[..i + 1] == chosen[..i] + [chosen[i]];
      var s := chosen[i];
      if s !in raised {
        var o := RunExtractor(s, snap, doc);
        if o.Success? && o.value.data.Some? {
          assert o.value.attrs == AttrsOf(s, snap, doc);
          AttrsCoverStep(data, attrs, s, o.value.data.value, snap, doc);
          data := data[s := o.value.data.value];
          attrs := attrs + o.value.attrs;
        }
      }
    }
    assert chosen[..|chosen|] == chosen;
  }

  /**
   * `extract_all_relevant_data`: run the selected extractors, keep the non-empty payloads
   * and their ids, then make sure the user profile is there. The request fails only when
   * the user does not exist.
   */
  method ExtractAllRelevantData(query: string, snap: Snapshot, doc: PermissionDoc, raised: set<Source>)
    returns (r: Result<ChatData, HttpError>)
    ensures r.Failure? <==> snap.user.None?
    ensures r.Success? ==> UserSource in r.value.data
    ensures r.Success? ==> forall s | s in r.value.data && s != UserSource ::
              s in Selected(Registry, ToLower(query)) && Contributes(s, snap, doc, raised)
    ensures r.Success? ==> forall s | s in Selected(Registry, ToLower(query)) && Contributes(s, snap, doc, raised) ::
              s in r.value.data
    ensures r.Success? ==> forall s | s in r.value.data ::
              (Outcome(s, snap, doc).Success? && Outcome(s, snap, doc).value.data == Some(r.value.data[s]))
    ensures r.Success? ==> Distinct(r.value.attributes)
    ensures r.Success? ==> forall x :: x in r.value.attributes <==> exists s | s in r.value.data :: x in AttrsOf(s, snap, doc)
  {
    var chosen := SelectExtractors(query);
    var data, attrs := RunSelected(chosen, snap, doc, raised);
    if UserSource !in data {
      if snap.user.None? {
        return Failure(NotFound("User not found"));
      }
      var e := UserExtract(snap.user.value, snap.today);
      data := data[UserSource := e.data.value];
      attrs := attrs + e.attrs;
    }
    RegistrySelection(ToLower(query), UserSource);
    r := Success(ChatData(data, Dedup(attrs)));
  }

  // ---------------------------------------------------------------------------
  // Reconciling the reported attribute ids
  // ---------------------------------------------------------------------------

  const KnownPrefixes: seq<string> := ["user.", "accounts.", "transactions.", "savings_accounts.", "savings_goals.", "bank."]

  predicate HasKnownPrefix(attr: string) {
    exists p | p in KnownPrefixes :: StartsWith(attr, p)
  }

  /** A self-reported id is kept when it was read, or at least names a known collection. */
  predicate Admitted(attr: string, accessed: seq<string>) {
    attr in accessed || HasKnownPrefix(attr)
  }

  /** The admitted ids, in order. */
  function AdmittedOnly(xs: seq<string>, accessed: seq<string>): (r: seq<string>)
    ensures forall x :: x in r <==> x in xs && Admitted(x, accessed)
  {
    if |xs| == 0 then []
    else
      var n := |xs| - 1;
      assert xs == xs[..n] + [xs[n]];
      var front := AdmittedOnly(xs[..n], accessed);
      if Admitted(xs[n], accessed) then front + [xs[n]] else front
  }

  /**
   * What the two validation loops of `chat_query` build: the admitted reported ids, then
   * the accessed ones, cleaned and kept first-of-each-lowercase-class.
   */
  function ChatValidated(aiReported: seq<string>, accessed: seq<string>): seq<string> {
    Attribution.DedupCaseless(AdmittedOnly(Attribution.CleanAll(aiReported), accessed) + Attribution.CleanAll(accessed))
  }

  /** One more entry either matches a kept one up to case or is kept at the end. */
  lemma DedupCaselessSnoc(xs: seq<string>, x: string)
    ensures Attribution.DedupCaseless(xs + [x]) ==
              if Attribution.HasCaselessMatch(Attribution.DedupCaseless(xs), x) then Attribution.DedupCaseless(xs)
              else Attribution.DedupCaseless(xs) + [x]
  {
    assert (xs + [x])[..|xs|] == xs;
  }

  lemma AdmittedOnlySnoc(xs: seq<string>, x: string, accessed: seq<string>)
    ensures AdmittedOnly(xs + [x], accessed) ==
              if Admitted(x, accessed) then AdmittedOnly(xs, accessed) + [x] else AdmittedOnly(xs, accessed)
  {
    assert (xs + [x])[..|xs|] == xs;
  }

  /** The set of lowercase forms seen is exactly the set of case classes already validated. */
  ghost predicate SeenTracks(seen: set<string>, validated: seq<string>) {
    forall x :: ToLower(x) in seen <==> Attribution.HasCaselessMatch(validated, x)
  }

  /** Keeping one more id extends the set of lowercased ids seen by its lowercase form. */
  lemma SeenAppend(seen: set<string>, validated: seq<string>, attr: string)
    requires SeenTracks(seen, validated)
    ensures SeenTracks(seen + {ToLower(attr)}, validated + [attr])
  {
    forall x ensures ToLower(x) in seen + {ToLower(attr)} <==> Attribution.HasCaselessMatch(validated + [attr], x) {
      Attribution.HasCaselessMatchAppend(validated, attr, x);
    }
  }

  /** The first validation loop: admitted reported ids, first of each lowercase class. */
  method ValidateReported(aiReported: seq<string>, accessed: seq<string>) returns (validated: seq<string>, seen: set<string>)
    ensures validated == Attribution.DedupCaseless(AdmittedOnly(Attribution.CleanAll(aiReported), accessed))
    ensures SeenTracks(seen, validated)
  {
    seen := {};
    validated := [];
    for i := 0 to |aiReported|
      invariant validated == Attribution.DedupCaseless(AdmittedOnly(Attribution.CleanAll(aiReported[..i]), accessed))
      invariant SeenTracks(seen, validated)
    {
      Attribution.CleanAllAppend(aiReported, i);
      var attr := Attribution.CleanAttribute(aiReported[i]);
      AdmittedOnlySnoc(Attribution.CleanAll(aiReported[..i]), attr, accessed);
      DedupCaselessSnoc(AdmittedOnly(Attribution.CleanAll(aiReported[..i]), accessed), attr);
      var attrLower := ToLower(attr);
      if attrLower !in seen && (attr in accessed || HasKnownPrefix(attr)) {
        SeenAppend(seen, validated, attr);
        validated := validated + [attr];
        seen := seen + {attrLower};
      }
    }
    assert aiReported[..|aiReported|] == aiReported;
  }

  /** One step of the second loop: keep `attr` unless its lowercase form was seen. */
  method KeepFirstOfClass(ghost input: seq<string>, validated: seq<string>, seen: set<string>, attr: string)
    returns (validated': seq<string>, seen': set<string>)
    requires validated == Attribution.DedupCaseless(input)
    requires SeenTracks(seen, validated)
    ensures validated' == Attribution.DedupCaseless(input + [attr])
    ensures SeenTracks(seen', validated')
  {
    DedupCaselessSnoc(input, attr);
    if ToLower(attr) !in seen {
      SeenAppend(seen, validated, attr);
      validated', seen' := validated + [attr], seen + {ToLower(attr)};
    } else {
      validated', seen' := validated, seen;
    }
  }

  /** The second validation loop: the accessed ids not yet seen up to case. */
  method ValidateAccessed(ghost before: seq<string>, validated0: seq<string>, seen0: set<string>, accessed: seq<string>)
    returns (validated: seq<string>)
    requires validated0 == Attribution.DedupCaseless(before)
    requires SeenTracks(seen0, validated0)
    ensures validated == Attribution.DedupCaseless(before + Attribution.CleanAll(accessed))
  {
    var seen := seen0;
    validated := validated0;
    ghost var cleanedAll := Attribution.CleanAll(accessed);
    ghost var input := before;
    assert before + cleanedAll[..0] == before;
    for i := 0 to |accessed|
      invariant input == before + cleanedAll[..i]
      invariant validated == Attribution.DedupCaseless(input)
      invariant SeenTracks(seen, validated)
    {
      var attr := Attribution.CleanAttribute(accessed[i]);
      TakeSnoc(cleanedAll, i);
      assert cleanedAll[i] == attr;
      validated, seen := KeepFirstOfClass(input, validated, seen, attr);
      input := input + [attr];
    }
    assert cleanedAll[..|accessed|] == cleanedAll;
  }

  /** Both validation loops of `chat_query`, sharing the set of lowercased ids seen. */
  method ValidateChatAttributes(aiReported: seq<string>, accessed: seq<string>) returns (validated: seq<string>)
    ensures validated == ChatValidated(aiReported, accessed)
  {
    var first, seen := ValidateReported(aiReported, accessed);
    validated := ValidateAccessed(AdmittedOnly(Attribution.CleanAll(aiReported), accessed), first, seen, accessed);
  }

  /** Every validated id is already clean, and was either read or reported and admitted. */
  lemma ValidatedOrigin(aiReported: seq<string>, accessed: seq<string>)
    ensures forall x | x in ChatValidated(aiReported, accessed) ::
              Attribution.Clean(x) == x &&
              (x in Attribution.CleanAll(accessed) || (x in Attribution.CleanAll(aiReported) && Admitted(x, accessed)))
  {
    Attribution.CleanAllClean(aiReported);
    Attribution.CleanAllClean(accessed);
  }

  /** The reported ids after `clean_attribute` on the non-empty ones are clean. */
  lemma CleanNonEmptyClean(reported: seq<string>)
    ensures Attribution.CleanAll(Attribution.CleanNonEmpty(reported)) == Attribution.CleanNonEmpty(reported)
  {
    var r := Attribution.CleanNonEmpty(reported);
    forall x | x in r ensures Attribution.Clean(x) == x {
      var a :| a in reported && a != "" && x == Attribution.Clean(a);
      Attribution.CleanIdempotent(a);
    }
    Attribution.CleanAllFixed(r);
  }

  /** The last steps of `chat_query`: consent filter, case-insensitive de-duplication, `sorted`. */
  function ChatFinal(validated: seq<string>, doc: PermissionDoc): seq<string> {
    Sort(Attribution.DedupCaseless(Attribution.CleanAll(Filtered(doc, validated))))
  }

  /** Over clean ids, the final list holds allowed validated ids only. */
  lemma ChatFinalFrom(validated: seq<string>, doc: PermissionDoc, x: string)
    requires forall y | y in validated :: Attribution.Clean(y) == y
    requires x in ChatFinal(validated, doc)
    ensures x in validated && IsAllowed(doc, x)
  {
    var allowed := Filtered(doc, validated);
    SortMembers(Attribution.DedupCaseless(Attribution.CleanAll(allowed)));
    var k :| 0 <= k < |allowed| && x == Attribution.CleanAll(allowed)[k];
    assert allowed[k] in allowed;
  }

  /** Sorting keeps a case variant of every id. */
  lemma SortKeepsCaselessMatch(xs: seq<string>, y: string)
    requires Attribution.HasCaselessMatch(xs, y)
    ensures Attribution.HasCaselessMatch(Sort(xs), y)
  {
    var m :| 0 <= m < |xs| && ToLower(xs[m]) == ToLower(y);
    SortMembers(xs);
    assert xs[m] in Sort(xs);
    var j :| 0 <= j < |Sort(xs)| && Sort(xs)[j] == xs[m];
  }

  /** A clean, allowed id keeps a case variant through the filter and the de-duplication. */
  lemma AllowedSurvivesDedup(validated: seq<string>, doc: PermissionDoc, y: string)
    requires y in validated && Attribution.Clean(y) == y && IsAllowed(doc, y)
    ensures Attribution.HasCaselessMatch(Attribution.DedupCaseless(Attribution.CleanAll(Filtered(doc, validated))), y)
  {
    var allowed := Filtered(doc, validated);
    Attribution.FilterKeepsAllowed(doc, validated, y);
    var k :| 0 <= k < |allowed| && allowed[k] == y;
    assert Attribution.CleanAll(allowed)[k] == y;
  }

  /**
   * Over clean ids, each validated id has a case variant in the final list unless a case
   * variant of it was denied.
   */
  lemma ChatFinalCovers(validated: seq<string>, doc: PermissionDoc, a: string)
    requires forall y | y in validated :: Attribution.Clean(y) == y
    requires Attribution.HasCaselessMatch(validated, a)
    ensures Attribution.HasCaselessMatch(ChatFinal(validated, doc), a) ||
            exists y | y in validated && ToLower(y) == ToLower(a) :: !IsAllowed(doc, y)
  {
    var i :| 0 <= i < |validated| && ToLower(validated[i]) == ToLower(a);
    var y := validated[i];
    if IsAllowed(doc, y) {
      AllowedSurvivesDedup(validated, doc, y);
      SortKeepsCaselessMatch(Attribution.DedupCaseless(Attribution.CleanAll(Filtered(doc, validated))), y);
    }
  }

  /**
   * The attribute bookkeeping of `chat_query`: the final list is sorted and free of case
   * duplicates; each of its ids is allowed and was read or self-reported under a known
   * prefix; every id read survives up to case unless a case variant was denied. The
   * status only compares the list lengths.
   */
  method ChatReconcile(reported: seq<string>, accessed: seq<string>, doc: PermissionDoc)
    returns (final: seq<string>, status: Attribution.Status)
    ensures Sorted(final) && LowerDistinct(final)
    ensures forall x | x in final :: IsAllowed(doc, x) &&
              (x in Attribution.CleanAll(accessed) || (x in Attribution.CleanNonEmpty(reported) && Admitted(x, accessed)))
    ensures forall a | a in Attribution.CleanAll(accessed) :: Attribution.HasCaselessMatch(final, a) ||
              exists y | ToLower(y) == ToLower(a) :: y in Attribution.CleanAll(accessed) + Attribution.CleanNonEmpty(reported) && !IsAllowed(doc, y)
    ensures status == Attribution.Matched <==> |final| == |accessed|
    ensures status == Attribution.Matched || status == Attribution.Partial
  {
    var aiReported := Attribution.CleanNonEmpty(reported);
    var validated := ValidateChatAttributes(aiReported, accessed);
    ValidatedOrigin(aiReported, accessed);
    CleanNonEmptyClean(reported);
    var allowed := FilterAllowedAttributes(doc, validated);
    var cleaned := Attribution.FinalDedup(allowed);
    final := Sort(cleaned);
    SortLowerDistinct(cleaned);
    assert final == ChatFinal(validated, doc);
    forall x | x in final
      ensures IsAllowed(doc, x) &&
              (x in Attribution.CleanAll(accessed) || (x in aiReported && Admitted(x, accessed)))
    {
      ChatFinalFrom(validated, doc, x);
    }
    forall a | a in Attribution.CleanAll(accessed)
      ensures Attribution.HasCaselessMatch(final, a) ||
              exists y | ToLower(y) == ToLower(a) :: y in Attribution.CleanAll(accessed) + aiReported && !IsAllowed(doc, y)
    {
      assert a in AdmittedOnly(Attribution.CleanAll(aiReported), accessed) + Attribution.CleanAll(accessed);
      ChatFinalCovers(validated, doc, a);
    }
    status := if |final| == |accessed| then Attribution.Matched else Attribution.Partial;
  }
}
