/**
 * The transaction service: the balance rule of a new transaction (with the overdraft
 * floor), its reversal on delete, the default analysis used when the AI step is
 * skipped, and the aggregations behind the statistics and the recommendations.
 */
module Transactions {

  import opened Wrappers
  import opened Store
  import opened Tally

  /**
   * The balance after a transaction, as `create_transaction` computes it: a credit adds,
   * a debit subtracts, and a debit is refused when it takes the balance below zero and
   * below `-minimumBalance` (0 when unset); other types are refused outright.
   */
  function NewBalance(kind: string, balance: real, amount: real, minimumBalance: Option<real>): (r: Result<real, HttpError>)
    ensures kind != "debit" && kind != "credit" ==> r == Failure(BadRequest("Transaction type must be 'debit' or 'credit'"))
    ensures kind == "credit" ==> r == Success(balance + amount)
    ensures kind == "debit" ==> r.Success? ==> r.value == balance - amount
  {
    if kind != "debit" && kind != "credit" then Failure(BadRequest("Transaction type must be 'debit' or 'credit'"))
    else if kind == "credit" then Success(balance + amount)
    else
      var newBalance := balance - amount;
      if newBalance < 0.0 && newBalance < -minimumBalance.GetOr(0.0) then Failure(BadRequest("Insufficient balance"))
      else Success(newBalance)
  }

  /** With a non-negative (or no) minimum balance, a debit is refused exactly when it goes below `-minimumBalance`. */
  lemma OverdraftFloor(balance: real, amount: real, minimumBalance: Option<real>)
    requires minimumBalance.GetOr(0.0) >= 0.0
    ensures NewBalance("debit", balance, amount, minimumBalance).Failure?
      <==> balance - amount < -minimumBalance.GetOr(0.0)
    ensures NewBalance("debit", balance, amount, minimumBalance).Success? ==>
      NewBalance("debit", balance, amount, minimumBalance).value >= -minimumBalance.GetOr(0.0)
  {
  }

  /** `delete_transaction`'s reversal: a credit is taken back, anything else is paid back. */
  function Reverse(kind: string, balance: real, amount: real): (r: real)
    ensures kind == "credit" ==> r + amount == balance
    ensures kind != "credit" ==> r - amount == balance
  {
    if kind == "credit" then balance - amount else balance + amount
  }

  /** Deleting a transaction right after creating it restores the balance it started from. */
  lemma ReverseUndoes(kind: string, balance: real, amount: real, minimumBalance: Option<real>)
    requires NewBalance(kind, balance, amount, minimumBalance).Success?
    ensures Reverse(kind, NewBalance(kind, balance, amount, minimumBalance).value, amount) == balance
  {
  }

  /** The analysis stored when the AI step is skipped or fails. */
  const DefaultAnalysis := Analysis(0.0, "low", 0.8, 0.0, "Transaction processed successfully")

  /** The analysis `create_transaction` stores: the default with `skip_ai`, else the AI's, else the default. */
  function AnalysisFor(skipAi: bool, ai: Option<Analysis>): (a: Analysis)
    ensures skipAi || ai.None? ==> a.fraudScore == 0.0 && a.riskLevel == "low" && a.categoryConfidence == 0.8
    ensures !skipAi && ai.Some? ==> a == ai.value
  {
    if skipAi then DefaultAnalysis else ai.GetOr(DefaultAnalysis)
  }

  /** The savings account `update_one({"accountNumber": number})` rewrites: one match, or none. */
  predicate SavingsMirrorUpdated(before: map<string, SavingsAccount>, after: map<string, SavingsAccount>,
                                 number: string, balance: real, k: Option<string>) {
    match k
    case None => after == before && forall key | key in before :: before[key].accountNumber != number
    case Some(key) =>
      && key in before && before[key].accountNumber == number
      && after == before[key := before[key].(balance := balance)]
  }

  /** Sets the balance of the first savings account with number `number`, if there is one. */
  method UpdateSavingsMirror(bank: Bank, number: string, balance: real) returns (k: Option<string>)
    modifies bank
    ensures SavingsMirrorUpdated(old(bank.savingsAccounts), bank.savingsAccounts, number, balance, k)
    ensures bank.accounts == old(bank.accounts) && bank.goals == old(bank.goals)
    ensures bank.transactions == old(bank.transactions)
  {
    if exists key | key in bank.savingsAccounts :: bank.savingsAccounts[key].accountNumber == number {
      var key :| key in bank.savingsAccounts && bank.savingsAccounts[key].accountNumber == number;
      bank.savingsAccounts := bank.savingsAccounts[key := bank.savingsAccounts[key].(balance := balance)];
      k := Some(key);
    } else {
      k := None;
    }
  }

  /** The account `id` exists and belongs to `user`. */
  predicate OwnsAccount(accounts: map<string, Account>, id: string, user: string) {
    id in accounts && accounts[id].userId == user
  }

  /**
   * `create_transaction`: refused before any write when the account is not the user's,
   * the type is unknown or the debit would overdraw; otherwise the transaction is stored
   * under the id the database assigns (`txnId`), the account takes the new balance and a
   * savings account with the same number mirrors it.
   */
  method CreateTransaction(bank: Bank, txnId: string, accountId: string, user: string, kind: string,
                           amount: real, category: Option<string>, month: string,
                           skipAi: bool, ai: Option<Analysis>)
    returns (r: Result<Transaction, HttpError>, mirrored: Option<string>)
    requires txnId !in bank.transactions
    modifies bank
    ensures !OwnsAccount(old(bank.accounts), accountId, user) ==> r == Failure(NotFound("Account not found"))
    ensures OwnsAccount(old(bank.accounts), accountId, user) ==>
      var acc := old(bank.accounts)[accountId];
      var nb := NewBalance(kind, acc.balance, amount, acc.minimumBalance);
      && (r.Failure? <==> nb.Failure?)
      && (r.Failure? ==> r.error == nb.error)
      && (r.Success? ==> r.value == Transaction(user, accountId, kind, amount, category, month, Some(AnalysisFor(skipAi, ai))))
      && (r.Success? ==> bank.transactions == old(bank.transactions)[txnId := r.value])
      && (r.Success? ==> bank.accounts == old(bank.accounts)[accountId := acc.(balance := nb.value)])
      && (r.Success? && acc.accountNumber != "" ==>
            SavingsMirrorUpdated(old(bank.savingsAccounts), bank.savingsAccounts, acc.accountNumber, nb.value, mirrored))
      && (r.Success? && acc.accountNumber == "" ==> bank.savingsAccounts == old(bank.savingsAccounts))
    ensures r.Failure? ==> bank.accounts == old(bank.accounts) && bank.transactions == old(bank.transactions)
    ensures r.Failure? ==> bank.savingsAccounts == old(bank.savingsAccounts)
    ensures bank.goals == old(bank.goals)
  {
    mirrored := None;
    if !OwnsAccount(bank.accounts, accountId, user) {
      return Failure(NotFound("Account not found")), None;
    }
    var acc := bank.accounts[accountId];
    var nb := NewBalance(kind, acc.balance, amount, acc.minimumBalance);
    if nb.Failure? {
      return Failure(nb.error), None;
    }
    var t := Transaction(user, accountId, kind, amount, category, month, Some(AnalysisFor(skipAi, ai)));
    bank.transactions := bank.transactions[txnId := t];
    bank.accounts := bank.accounts[accountId := acc.(balance := nb.value)];
    if acc.accountNumber != "" {
      mirrored := UpdateSavingsMirror(bank, acc.accountNumber, nb.value);
    }
    r := Success(t);
  }

  /** The transaction `id` exists and belongs to `user`. */
  predicate OwnsTransaction(transactions: map<string, Transaction>, id: string, user: string) {
    id in transactions && transactions[id].userId == user
  }

  /**
   * `delete_transaction`: the transaction is removed and, when its account still exists,
   * the account (and a savings account with the same number) takes the reversed balance.
   */
  method DeleteTransaction(bank: Bank, txnId: string, user: string)
    returns (r: Result<(), HttpError>, mirrored: Option<string>)
    modifies bank
    ensures r.Failure? <==> !OwnsTransaction(old(bank.transactions), txnId, user)
    ensures r.Failure? ==> r.error == NotFound("Transaction not found")
    ensures r.Failure? ==> bank.accounts == old(bank.accounts) && bank.transactions == old(bank.transactions)
    ensures r.Failure? ==> bank.savingsAccounts == old(bank.savingsAccounts)
    ensures r.Success? ==> var t := old(bank.transactions)[txnId];
      && bank.transactions == old(bank.transactions) - {txnId}
      && (t.accountId in old(bank.accounts) ==>
            var acc := old(bank.accounts)[t.accountId];
            var nb := Reverse(t.kind, acc.balance, t.amount);
            && bank.accounts == old(bank.accounts)[t.accountId := acc.(balance := nb)]
            && SavingsMirrorUpdated(old(bank.savingsAccounts), bank.savingsAccounts, acc.accountNumber, nb, mirrored))
      && (t.accountId !in old(bank.accounts) ==>
            bank.accounts == old(bank.accounts) && bank.savingsAccounts == old(bank.savingsAccounts))
    ensures bank.goals == old(bank.goals)
  {
    mirrored := None;
    if !OwnsTransaction(bank.transactions, txnId, user) {
      return Failure(NotFound("Transaction not found")), None;
    }
    var t := bank.transactions[txnId];
    if t.accountId in bank.accounts {
      var acc := bank.accounts[t.accountId];
      var nb := Reverse(t.kind, acc.balance, t.amount);
      bank.accounts := bank.accounts[t.accountId := acc.(balance := nb)];
      mirrored := UpdateSavingsMirror(bank, acc.accountNumber, nb);
    }
    bank.transactions := bank.transactions - {txnId};
    r := Success(());
  }

  /** `t.get("category", "other")` */
  function CategoryOf(t: Transaction): string {
    t.category.GetOr("other")
  }

  /** `riskLevel in ["medium", "high"]` on the stored analysis. */
  predicate IsFlagged(t: Transaction) {
    t.analysis.Some? && (t.analysis.value.riskLevel == "medium" || t.analysis.value.riskLevel == "high")
  }

  /** How many transactions carry a medium or high risk level. */
  function FlaggedCount(txns: seq<Transaction>): (n: nat)
    ensures n <= |txns|
  {
    if |txns| == 0 then 0
    else FlaggedCount(txns[..|txns| - 1]) + (if IsFlagged(txns[|txns| - 1]) then 1 else 0)
  }

  /** Debit amounts accumulated per category, categories in first-debit order. */
  function DebitsByCategory(txns: seq<Transaction>): Tally {
    if |txns| == 0 then []
    else
      var t := txns[|txns| - 1];
      var front := DebitsByCategory(txns[..|txns| - 1]);
      if t.kind == "debit" then Add(front, CategoryOf(t), t.amount) else front
  }

  /** Debit amounts accumulated per month (`%Y-%m`), months in first-debit order. */
  function DebitsByMonth(txns: seq<Transaction>): Tally {
    if |txns| == 0 then []
    else
      var t := txns[|txns| - 1];
      var front := DebitsByMonth(txns[..|txns| - 1]);
      if t.kind == "debit" then Add(front, t.month, t.amount) else front
  }

  /** The category breakdown is a dict whose values add up to the debit total. */
  lemma {:induction false} DebitsByCategoryTotal(txns: seq<Transaction>)
    ensures WellFormed(DebitsByCategory(txns))
    ensures Total(DebitsByCategory(txns)) == DebitTotal(txns)
  {
    if |txns| > 0 {
      var t := txns[|txns| - 1];
      var front := txns[..|txns| - 1];
      DebitsByCategoryTotal(front);
      if t.kind == "debit" {
        AddTotal(DebitsByCategory(front), CategoryOf(t), t.amount);
        AddWellFormed(DebitsByCategory(front), CategoryOf(t), t.amount);
      }
    }
  }

  /** The monthly totals form a dict whose values add up to the debit total. */
  lemma {:induction false} DebitsByMonthTotal(txns: seq<Transaction>)
    ensures WellFormed(DebitsByMonth(txns))
    ensures Total(DebitsByMonth(txns)) == DebitTotal(txns)
  {
    if |txns| > 0 {
      var t := txns[|txns| - 1];
      var front := txns[..|txns| - 1];
      DebitsByMonthTotal(front);
      if t.kind == "debit" {
        AddTotal(DebitsByMonth(front), t.month, t.amount);
        AddWellFormed(DebitsByMonth(front), t.month, t.amount);
      }
    }
  }

  /** What `get_transaction_stats` returns (rounding to cents not modelled). */
  datatype Stats = Stats(totalTransactions: nat, totalSpent: real, totalReceived: real,
                         flaggedCount: nat, categoryBreakdown: Tally)

  /**
   * `get_transaction_stats` over the recent completed transactions: debits and credits
   * summed apart, the flagged ones counted, and the debits broken down by category so
   * that the breakdown adds up to the amount spent.
   */
  method GetTransactionStats(txns: seq<Transaction>) returns (stats: Stats)
    ensures stats.totalTransactions == |txns|
    ensures stats.totalSpent == DebitTotal(txns) && stats.totalReceived == CreditTotal(txns)
    ensures stats.flaggedCount == FlaggedCount(txns) && stats.flaggedCount <= |txns|
    ensures stats.categoryBreakdown == DebitsByCategory(txns)
    ensures WellFormed(stats.categoryBreakdown) && Total(stats.categoryBreakdown) == stats.totalSpent
  {
    var breakdown: Tally := [];
    for i := 0 to |txns|
      invariant breakdown == DebitsByCategory(txns[..i])
    {
      assert txns[..i + 1][..i] == txns[..i];
      var t := txns[i];
      if t.kind == "debit" {
        breakdown := Add(breakdown, CategoryOf(t), t.amount);
      }
    }
    assert txns[..|txns|] == txns;
    DebitsByCategoryTotal(txns);
    stats := Stats(|txns|, DebitTotal(txns), CreditTotal(txns), FlaggedCount(txns), breakdown);
  }

  /** The spending figures `get_transaction_recommendations` puts in its prompt. */
  datatype SpendingPattern = SpendingPattern(monthly: Tally, byCategory: Tally, totalSpending: real, avgMonthly: real)

  /** The loop of `get_transaction_recommendations` that sums the debits per month and per category. */
  method DebitTallies(txns: seq<Transaction>) returns (monthly: Tally, byCategory: Tally)
    ensures monthly == DebitsByMonth(txns) && byCategory == DebitsByCategory(txns)
  {
    monthly := [];
    byCategory := [];
    for i := 0 to |txns|
      invariant monthly == DebitsByMonth(txns[..i])
      invariant byCategory == DebitsByCategory(txns[..i])
    {
      assert txns[..i + 1][..i] == txns[..i];
      var t := txns[i];
      if t.kind == "debit" {
        monthly := Add(monthly, t.month, t.amount);
        byCategory := Add(byCategory, CategoryOf(t), t.amount);
      }
    }
    assert txns[..|txns|] == txns;
  }

  /** `total / len(months)` when there is a month, else 0. */
  function MonthlyAverage(total: real, months: nat): (avg: real)
    ensures months == 0 ==> avg == 0.0
    ensures months > 0 ==> avg * months as real == total
  {
    if months == 0 then 0.0
    else
      var q := total / months as real;
      assert q * months as real == total;
      q
  }

  /**
   * The spending-pattern loop of `get_transaction_recommendations`: debits per month and
   * per category, their total, and the average per month (0 with no month).
   */
  method SpendingPatterns(txns: seq<Transaction>) returns (p: SpendingPattern)
    ensures p.monthly == DebitsByMonth(txns) && p.byCategory == DebitsByCategory(txns)
    ensures p.totalSpending == DebitTotal(txns) && Total(p.byCategory) == p.totalSpending
    ensures p.avgMonthly == MonthlyAverage(p.totalSpending, |p.monthly|)
  {
    var monthly, byCategory := DebitTallies(txns);
    DebitsByMonthTotal(txns);
    DebitsByCategoryTotal(txns);
    var total := Total(monthly);
    p := SpendingPattern(monthly, byCategory, total, MonthlyAverage(total, |monthly|));
  }
}
