/**
 * The stored entities the services read and write (users, accounts, savings
 * accounts, savings goals, transactions), the JSON-like values they put in
 * response payloads, and the bank's collections as one mutable store.
 */
module Store {

  import opened Wrappers
  import Calendar

  /** A value inside a response payload (Python dict values). */
  datatype Value =
    | Null
    | Num(num: real)
    | Int(whole: int)
    | Text(text: string)
    | Texts(texts: seq<string>)

  /** A response payload: a Python dict from keys to values. */
  type Payload = map<string, Value>

  /** An error the service reports as an HTTP status (404, 400 or 500). */
  datatype HttpError = NotFound(what: string) | BadRequest(reason: string) | ServerError(detail: string)

  /** Python's `d.get(k)` on an optional number: missing becomes `None`. */
  function NumOrNull(x: Option<real>): Value {
    if x.Some? then Num(x.value) else Null
  }

  /** Python truthiness of an optional number. */
  predicate Truthy(x: Option<real>) {
    x.Some? && x.value != 0.0
  }

  /** A `users` document, with the fields the services read. */
  datatype User = User(
    firstName: Option<string>,
    lastName: Option<string>,
    email: Option<string>,
    income: Option<real>,
    creditScore: Option<real>,
    employmentStatus: Option<string>,
    dateOfBirth: Option<Calendar.Date>)

  /** `f"{user.get('firstName', '')} {user.get('lastName', '')}"` */
  function FullName(u: User): (name: string)
    ensures |name| == |u.firstName.GetOr("")| + 1 + |u.lastName.GetOr("")|
  {
    u.firstName.GetOr("") + " " + u.lastName.GetOr("")
  }

  /** An `accounts` document; `minimumBalance` is the optional `metadata.minimumBalance`. */
  datatype Account = Account(
    userId: string,
    accountNumber: string,
    accountType: string,
    balance: real,
    status: string,
    currency: Option<string>,
    minimumBalance: Option<real>)

  /** A `savings_accounts` document. */
  datatype SavingsAccount = SavingsAccount(
    userId: string,
    accountNumber: string,
    accountType: string,
    balance: real,
    apy: real,
    minimumBalance: Option<real>)

  /** A `savings_goals` document; the deadline is given as whole days from now, when it is a date. */
  datatype Goal = Goal(
    userId: string,
    targetAmount: real,
    currentAmount: real,
    monthlyContribution: real,
    status: Option<string>,
    accountId: Option<string>,
    daysToDeadline: Option<int>)

  /** The AI analysis stored on a transaction. */
  datatype Analysis = Analysis(
    fraudScore: real,
    riskLevel: string,
    categoryConfidence: real,
    anomalyScore: real,
    explanation: string)

  /** A `transactions` document; `month` is its `createdAt` formatted as `%Y-%m`. */
  datatype Transaction = Transaction(
    userId: string,
    accountId: string,
    kind: string,
    amount: real,
    category: Option<string>,
    month: string,
    analysis: Option<Analysis>)

  /** Sum of the balances of a list of accounts. */
  function TotalBalance(accounts: seq<Account>): real {
    if |accounts| == 0 then 0.0
    else TotalBalance(accounts[..|accounts| - 1]) + accounts[|accounts| - 1].balance
  }

  /** Sum of the balances of a list of savings accounts. */
  function TotalSavings(accounts: seq<SavingsAccount>): real {
    if |accounts| == 0 then 0.0
    else TotalSavings(accounts[..|accounts| - 1]) + accounts[|accounts| - 1].balance
  }

  /** Sum of the amounts of the debits in a list of transactions. */
  function DebitTotal(txns: seq<Transaction>): real {
    if |txns| == 0 then 0.0
    else
      var t := txns[|txns| - 1];
      DebitTotal(txns[..|txns| - 1]) + (if t.kind == "debit" then t.amount else 0.0)
  }

  /** Sum of the amounts of the credits in a list of transactions. */
  function CreditTotal(txns: seq<Transaction>): real {
    if |txns| == 0 then 0.0
    else
      var t := txns[|txns| - 1];
      CreditTotal(txns[..|txns| - 1]) + (if t.kind == "credit" then t.amount else 0.0)
  }

  /** How many accounts have status `active`. */
  function ActiveAccountCount(accounts: seq<Account>): (n: nat)
    ensures n <= |accounts|
  {
    if |accounts| == 0 then 0
    else ActiveAccountCount(accounts[..|accounts| - 1]) + (if accounts[|accounts| - 1].status == "active" then 1 else 0)
  }

  /** The account types, in list order. */
  function AccountTypes(accounts: seq<Account>): (types: seq<string>)
    ensures |types| == |accounts|
  {
    seq(|accounts|, i requires 0 <= i < |accounts| => accounts[i].accountType)
  }

  /** How many goals are not `Completed` (a goal without a status counts). */
  function ActiveGoalCount(goals: seq<Goal>): (n: nat)
    ensures n <= |goals|
  {
    if |goals| == 0 then 0
    else ActiveGoalCount(goals[..|goals| - 1]) + (if goals[|goals| - 1].status != Some("Completed") then 1 else 0)
  }

  /** No goal is active exactly when every goal is marked Completed; all are active exactly when none is. */
  lemma {:induction false} ActiveGoalCountExtremes(goals: seq<Goal>)
    ensures ActiveGoalCount(goals) == 0 <==> forall i | 0 <= i < |goals| :: goals[i].status == Some("Completed")
    ensures ActiveGoalCount(goals) == |goals| <==> forall i | 0 <= i < |goals| :: goals[i].status != Some("Completed")
  {
    if |goals| > 0 {
      var n := |goals| - 1;
      var front := goals[..n];
      ActiveGoalCountExtremes(front);
      assert forall i | 0 <= i < n :: front[i] == goals[i];
    }
  }

  /** Sum of the goals' target amounts. */
  function TotalTargets(goals: seq<Goal>): real {
    if |goals| == 0 then 0.0 else TotalTargets(goals[..|goals| - 1]) + goals[|goals| - 1].targetAmount
  }

  /** Sum of the goals' current amounts. */
  function TotalCurrent(goals: seq<Goal>): real {
    if |goals| == 0 then 0.0 else TotalCurrent(goals[..|goals| - 1]) + goals[|goals| - 1].currentAmount
  }

  /** Sum of the goals' monthly contributions. */
  function TotalContributions(goals: seq<Goal>): real {
    if |goals| == 0 then 0.0 else TotalContributions(goals[..|goals| - 1]) + goals[|goals| - 1].monthlyContribution
  }

  /** The bank's collections, keyed by document id. */
  class Bank {
    var accounts: map<string, Account>
    var savingsAccounts: map<string, SavingsAccount>
    var goals: map<string, Goal>
    var transactions: map<string, Transaction>

    constructor(accounts: map<string, Account>, savingsAccounts: map<string, SavingsAccount>,
                goals: map<string, Goal>, transactions: map<string, Transaction>)
      ensures this.accounts == accounts && this.savingsAccounts == savingsAccounts
      ensures this.goals == goals && this.transactions == transactions
    {
      this.accounts := accounts;
      this.savingsAccounts := savingsAccounts;
      this.goals := goals;
      this.transactions := transactions;
    }
  }
}
