/**
 * The savings service: the goal status rule, the balance rules of the deposit,
 * withdrawal, contribution and deletion endpoints (each a read-modify-write on the
 * bank's collections), and the savings summary.
 */
module Savings {

  import opened Wrappers
  import opened Store
  import opened Seqs

  /** The status a savings goal is reported with. */
  datatype GoalStatus = Completed | Ahead | OnTrack | Behind

  /** `(current / target) * 100 if target > 0 else 0` */
  function Progress(current: real, target: real): (p: real)
    ensures p >= 100.0 <==> target > 0.0 && current >= target
    ensures target > 0.0 ==> p * target == current * 100.0
  {
    if target > 0.0 then
      var q := current / target;
      assert q * target == current;
      q * 100.0
    else 0.0
  }

  /** `max(0, days / 30)`: the whole days left before the deadline, in months. */
  function MonthsRemaining(days: int): (m: real)
    ensures m >= 0.0
    ensures m > 0.0 <==> days > 0
    ensures m * 30.0 == if days > 0 then days as real else 0.0
  {
    if days > 0 then days as real / 30.0 else 0.0
  }

  /** What still has to be saved each month; infinite when no month is left (`float('inf')`). */
  datatype Needed = Finite(perMonth: real) | Infinite

  function NeededPerMonth(current: real, target: real, days: int): (n: Needed)
    ensures n.Infinite? <==> days <= 0
    ensures n.Finite? ==> n.perMonth * MonthsRemaining(days) == target - current
  {
    var months := MonthsRemaining(days);
    if months > 0.0 then
      var q := (target - current) / months;
      assert q * months == target - current;
      Finite(q)
    else Infinite
  }

  /** Python's `needed <= limit`: infinity is above every finite limit. */
  predicate AtMost(n: Needed, limit: real) {
    n.Finite? && n.perMonth <= limit
  }

  /**
   * `calculate_goal_status`: Completed once the target is reached, then Ahead when the
   * need is within 90% of the monthly contribution, On Track within 110%, Behind otherwise.
   */
  function CalculateGoalStatus(current: real, target: real, days: int, contribution: real): (s: GoalStatus)
    ensures s == Completed <==> target > 0.0 && current >= target
  {
    var needed := NeededPerMonth(current, target, days);
    if Progress(current, target) >= 100.0 then Completed
    else if AtMost(needed, contribution * 0.9) then Ahead
    else if AtMost(needed, contribution * 1.1) then OnTrack
    else Behind
  }

  /** A reached target is Completed whatever the deadline and the contribution. */
  lemma CompletedRegardlessOfDeadline(current: real, target: real, days: int, contribution: real)
    requires target > 0.0 && current * 100.0 / target >= 100.0
    ensures CalculateGoalStatus(current, target, days, contribution) == Completed
  {
    assert current * 100.0 / target == Progress(current, target) by {
      var p := Progress(current, target);
      assert p * target == current * 100.0;
    }
  }

  /** With no month left the need is infinite: an unfinished goal is Behind. */
  lemma NoTimeLeftIsBehind(current: real, target: real, days: int, contribution: real)
    requires days <= 0
    requires !(target > 0.0 && current >= target)
    ensures CalculateGoalStatus(current, target, days, contribution) == Behind
  {
  }

  /**
   * With time left, the bands compare the remaining amount with what the contribution
   * saves by the deadline: within 90% of it is Ahead, within 110% On Track.
   */
  lemma StatusByPace(current: real, target: real, days: int, contribution: real)
    requires days > 0 && contribution >= 0.0
    requires !(target > 0.0 && current >= target)
    ensures var s := CalculateGoalStatus(current, target, days, contribution);
      var months := MonthsRemaining(days);
      && (s == Ahead <==> target - current <= contribution * 0.9 * months)
      && (s == OnTrack <==> contribution * 0.9 * months < target - current <= contribution * 1.1 * months)
      && (s == Behind <==> contribution * 1.1 * months < target - current)
  {
    var months := MonthsRemaining(days);
    var n := NeededPerMonth(current, target, days);
    var s := CalculateGoalStatus(current, target, days, contribution);
    var low, high := contribution * 0.9, contribution * 1.1;
    assert months > 0.0 && n.Finite?;
    assert n.perMonth * months == target - current;
    assert s != Completed;
    assert s == Ahead <==> n.perMonth <= low;
    assert s == OnTrack <==> low < n.perMonth <= high;
    PaceBands(n.perMonth, low, high, months, target - current);
  }

  /** A monthly need `p` over `m` months totals `d`: comparing `p` with a monthly band is comparing `d` with the band over `m` months. */
  lemma PaceBands(p: real, low: real, high: real, m: real, d: real)
    requires m > 0.0 && p * m == d
    ensures p <= low <==> d <= low * m
    ensures p <= high <==> d <= high * m
  {
    LessEqScaled(p, low, m);
    LessEqScaled(p, high, m);
  }

  /** Scaling both sides by a positive factor keeps `<=`. */
  lemma LessEqScaled(x: real, y: real, m: real)
    requires m > 0.0
    ensures x <= y <==> x * m <= y * m
  {
    if x <= y {
      assert (y - x) * m >= 0.0;
    } else {
      assert (x - y) * m > 0.0;
    }
  }

  /** Behind < On Track < Ahead < Completed. */
  function Rank(s: GoalStatus): nat {
    match s
    case Behind => 0
    case OnTrack => 1
    case Ahead => 2
    case Completed => 3
  }

  /** A larger monthly contribution never gives a worse status. */
  lemma StatusMonotoneInContribution(current: real, target: real, days: int, c1: real, c2: real)
    requires c1 <= c2
    ensures Rank(CalculateGoalStatus(current, target, days, c1)) <= Rank(CalculateGoalStatus(current, target, days, c2))
  {
  }

  /** The status `get_savings_goals` reports: a goal without a deadline has no month left. */
  function GoalStatusOf(g: Goal): (s: GoalStatus)
    ensures g.daysToDeadline.None? && !(g.targetAmount > 0.0 && g.currentAmount >= g.targetAmount) ==> s == Behind
  {
    CalculateGoalStatus(g.currentAmount, g.targetAmount, g.daysToDeadline.GetOr(0), g.monthlyContribution)
  }

  /** The savings account `id` exists and belongs to `user`. */
  predicate OwnsSavings(bank: map<string, SavingsAccount>, id: string, user: string) {
    id in bank && bank[id].userId == user
  }

  /** The main account `update_one({"accountNumber", "userId"})` rewrites: one match, or none. */
  predicate MirrorUpdated(before: map<string, Account>, after: map<string, Account>,
                          number: string, user: string, balance: real, k: Option<string>) {
    match k
    case None =>
      && after == before
      && forall key | key in before :: !(before[key].accountNumber == number && before[key].userId == user)
    case Some(key) =>
      && key in before && before[key].accountNumber == number && before[key].userId == user
      && after == before[key := before[key].(balance := balance)]
  }

  /** Sets the balance of the first main account of `user` with number `number`, if there is one. */
  method UpdateMirror(bank: Bank, number: string, user: string, balance: real) returns (k: Option<string>)
    modifies bank
    ensures MirrorUpdated(old(bank.accounts), bank.accounts, number, user, balance, k)
    ensures bank.savingsAccounts == old(bank.savingsAccounts) && bank.goals == old(bank.goals)
    ensures bank.transactions == old(bank.transactions)
  {
    if exists key | key in bank.accounts :: bank.accounts[key].accountNumber == number && bank.accounts[key].userId == user {
      var key :| key in bank.accounts && bank.accounts[key].accountNumber == number && bank.accounts[key].userId == user;
      bank.accounts := bank.accounts[key := bank.accounts[key].(balance := balance)];
      k := Some(key);
    } else {
      k := None;
    }
  }

  /** `deposit_to_account`: the new balance is the old one plus the amount, mirrored to the main account. */
  method Deposit(bank: Bank, accountId: string, user: string, amount: real)
    returns (r: Result<real, HttpError>, mirrored: Option<string>)
    modifies bank
    ensures r.Failure? <==> !OwnsSavings(old(bank.savingsAccounts), accountId, user)
    ensures r.Failure? ==> r.error == NotFound("Savings account not found") && mirrored.None?
    ensures r.Failure? ==> bank.savingsAccounts == old(bank.savingsAccounts) && bank.accounts == old(bank.accounts)
    ensures r.Success? ==> var acc := old(bank.savingsAccounts)[accountId];
      && r.value == acc.balance + amount
      && bank.savingsAccounts == old(bank.savingsAccounts)[accountId := acc.(balance := r.value)]
      && MirrorUpdated(old(bank.accounts), bank.accounts, acc.accountNumber, user, r.value, mirrored)
    ensures bank.goals == old(bank.goals) && bank.transactions == old(bank.transactions)
  {
    if !OwnsSavings(bank.savingsAccounts, accountId, user) {
      return Failure(NotFound("Savings account not found")), None;
    }
    var acc := bank.savingsAccounts[accountId];
    var newBalance := acc.balance + amount;
    bank.savingsAccounts := bank.savingsAccounts[accountId := acc.(balance := newBalance)];
    mirrored := UpdateMirror(bank, acc.accountNumber, user, newBalance);
    r := Success(newBalance);
  }

  /**
   * `withdraw_from_account`: refused, with nothing written, when the balance would drop
   * below the minimum balance (0 when unset); otherwise as a deposit of `-amount`.
   */
  method Withdraw(bank: Bank, accountId: string, user: string, amount: real)
    returns (r: Result<real, HttpError>, mirrored: Option<string>)
    modifies bank
    ensures !OwnsSavings(old(bank.savingsAccounts), accountId, user) ==> r == Failure(NotFound("Savings account not found"))
    ensures OwnsSavings(old(bank.savingsAccounts), accountId, user) ==>
      var acc := old(bank.savingsAccounts)[accountId];
      && (r.Failure? <==> acc.balance - amount < acc.minimumBalance.GetOr(0.0))
      && (r.Failure? ==> r.error == BadRequest("Insufficient balance"))
      && (r.Success? ==> r.value == acc.balance - amount && r.value >= acc.minimumBalance.GetOr(0.0))
      && (r.Success? ==> bank.savingsAccounts == old(bank.savingsAccounts)[accountId := acc.(balance := r.value)])
      && (r.Success? ==> MirrorUpdated(old(bank.accounts), bank.accounts, acc.accountNumber, user, r.value, mirrored))
    ensures r.Failure? ==> bank.savingsAccounts == old(bank.savingsAccounts) && bank.accounts == old(bank.accounts)
    ensures bank.goals == old(bank.goals) && bank.transactions == old(bank.transactions)
  {
    if !OwnsSavings(bank.savingsAccounts, accountId, user) {
      return Failure(NotFound("Savings account not found")), None;
    }
    var acc := bank.savingsAccounts[accountId];
    var minimum := acc.minimumBalance.GetOr(0.0);
    if acc.balance - amount < minimum {
      return Failure(BadRequest("Insufficient balance")), None;
    }
    var newBalance := acc.balance - amount;
    bank.savingsAccounts := bank.savingsAccounts[accountId := acc.(balance := newBalance)];
    mirrored := UpdateMirror(bank, acc.accountNumber, user, newBalance);
    r := Success(newBalance);
  }

  /** The goal `id` exists and belongs to `user`. */
  predicate OwnsGoal(goals: map<string, Goal>, id: string, user: string) {
    id in goals && goals[id].userId == user
  }

  /** Python's `min(a, b)`. */
  function Min(a: real, b: real): (m: real)
    ensures m <= a && m <= b && (m == a || m == b)
  {
    if b < a then b else a
  }

  /**
   * `contribute_to_goal`: the goal's saved amount rises by `amount` but never past its
   * target; the linked savings account, when there is one holding at least `amount`,
   * pays the full `amount`, even the part the cap discarded.
   */
  method Contribute(bank: Bank, goalId: string, user: string, amount: real)
    returns (r: Result<real, HttpError>)
    modifies bank
    ensures r.Failure? <==> !OwnsGoal(old(bank.goals), goalId, user)
    ensures r.Failure? ==> r.error == NotFound("Savings goal not found")
    ensures r.Failure? ==> bank.goals == old(bank.goals) && bank.savingsAccounts == old(bank.savingsAccounts)
    ensures r.Success? ==> var g := old(bank.goals)[goalId];
      && r.value == Min(g.currentAmount + amount, g.targetAmount)
      && bank.goals == old(bank.goals)[goalId := g.(currentAmount := r.value)]
      && (if g.accountId.Some? && g.accountId.value in old(bank.savingsAccounts)
             && old(bank.savingsAccounts)[g.accountId.value].balance >= amount
          then bank.savingsAccounts == old(bank.savingsAccounts)[g.accountId.value :=
                 old(bank.savingsAccounts)[g.accountId.value].(balance := old(bank.savingsAccounts)[g.accountId.value].balance - amount)]
          else bank.savingsAccounts == old(bank.savingsAccounts))
    ensures r.Success? ==> r.value <= old(bank.goals)[goalId].targetAmount
    ensures bank.accounts == old(bank.accounts) && bank.transactions == old(bank.transactions)
  {
    if !OwnsGoal(bank.goals, goalId, user) {
      return Failure(NotFound("Savings goal not found"));
    }
    var g := bank.goals[goalId];
    var newAmount := Min(g.currentAmount + amount, g.targetAmount);
    bank.goals := bank.goals[goalId := g.(currentAmount := newAmount)];
    if g.accountId.Some? && g.accountId.value in bank.savingsAccounts {
      var acc := bank.savingsAccounts[g.accountId.value];
      if acc.balance >= amount {
        bank.savingsAccounts := bank.savingsAccounts[g.accountId.value := acc.(balance := acc.balance - amount)];
      }
    }
    r := Success(newAmount);
  }

  /**
   * `delete_savings_goal`: the goal is removed; its saved amount goes back to the linked
   * savings account only when it is positive and the account exists.
   */
  method DeleteGoal(bank: Bank, goalId: string, user: string) returns (r: Result<(), HttpError>)
    modifies bank
    ensures r.Failure? <==> !OwnsGoal(old(bank.goals), goalId, user)
    ensures r.Failure? ==> r.error == NotFound("Savings goal not found")
    ensures r.Failure? ==> bank.goals == old(bank.goals) && bank.savingsAccounts == old(bank.savingsAccounts)
    ensures r.Success? ==> var g := old(bank.goals)[goalId];
      && bank.goals == old(bank.goals) - {goalId}
      && (if g.currentAmount > 0.0 && g.accountId.Some? && g.accountId.value in old(bank.savingsAccounts)
          then bank.savingsAccounts == old(bank.savingsAccounts)[g.accountId.value :=
                 old(bank.savingsAccounts)[g.accountId.value].(balance := old(bank.savingsAccounts)[g.accountId.value].balance + g.currentAmount)]
          else bank.savingsAccounts == old(bank.savingsAccounts))
    ensures bank.accounts == old(bank.accounts) && bank.transactions == old(bank.transactions)
  {
    if !OwnsGoal(bank.goals, goalId, user) {
      return Failure(NotFound("Savings goal not found"));
    }
    var g := bank.goals[goalId];
    if g.currentAmount > 0.0 && g.accountId.Some? && g.accountId.value in bank.savingsAccounts {
      var acc := bank.savingsAccounts[g.accountId.value];
      bank.savingsAccounts := bank.savingsAccounts[g.accountId.value := acc.(balance := acc.balance + g.currentAmount)];
    }
    bank.goals := bank.goals - {goalId};
    r := Success(());
  }

  /** The main account `delete_one({"accountNumber", "userId"})` removes: one match, or none. */
  predicate MirrorDeleted(before: map<string, Account>, after: map<string, Account>,
                          number: string, user: string, k: Option<string>) {
    match k
    case None =>
      && after == before
      && forall key | key in before :: !(before[key].accountNumber == number && before[key].userId == user)
    case Some(key) =>
      && key in before && before[key].accountNumber == number && before[key].userId == user
      && after == before - {key}
  }

  /** Removes the first main account of `user` with number `number`, if there is one. */
  method DeleteMirror(bank: Bank, number: string, user: string) returns (k: Option<string>)
    modifies bank
    ensures MirrorDeleted(old(bank.accounts), bank.accounts, number, user, k)
    ensures bank.savingsAccounts == old(bank.savingsAccounts) && bank.goals == old(bank.goals)
    ensures bank.transactions == old(bank.transactions)
  {
    if exists key | key in bank.accounts :: bank.accounts[key].accountNumber == number && bank.accounts[key].userId == user {
      var key :| key in bank.accounts && bank.accounts[key].accountNumber == number && bank.accounts[key].userId == user;
      bank.accounts := bank.accounts - {key};
      k := Some(key);
    } else {
      k := None;
    }
  }

  /**
   * `delete_savings_account`: refused while the balance is positive; otherwise the savings
   * account and its mirrored main account are removed.
   */
  method DeleteAccount(bank: Bank, accountId: string, user: string)
    returns (r: Result<(), HttpError>, mirrored: Option<string>)
    modifies bank
    ensures !OwnsSavings(old(bank.savingsAccounts), accountId, user) ==> r == Failure(NotFound("Savings account not found"))
    ensures OwnsSavings(old(bank.savingsAccounts), accountId, user) ==>
      var acc := old(bank.savingsAccounts)[accountId];
      && (r.Failure? <==> acc.balance > 0.0)
      && (r.Failure? ==> r.error == BadRequest("Cannot delete account with non-zero balance. Please withdraw funds first."))
      && (r.Success? ==> bank.savingsAccounts == old(bank.savingsAccounts) - {accountId})
      && (r.Success? ==> MirrorDeleted(old(bank.accounts), bank.accounts, acc.accountNumber, user, mirrored))
    ensures r.Failure? ==> bank.savingsAccounts == old(bank.savingsAccounts) && bank.accounts == old(bank.accounts)
    ensures bank.goals == old(bank.goals) && bank.transactions == old(bank.transactions)
  {
    if !OwnsSavings(bank.savingsAccounts, accountId, user) {
      return Failure(NotFound("Savings account not found")), None;
    }
    var acc := bank.savingsAccounts[accountId];
    if acc.balance > 0.0 {
      return Failure(BadRequest("Cannot delete account with non-zero balance. Please withdraw funds first.")), None;
    }
    bank.savingsAccounts := bank.savingsAccounts - {accountId};
    mirrored := DeleteMirror(bank, acc.accountNumber, user);
    r := Success(());
  }

  /** The goals the summary counts as active: progress below 100%. */
  function ActiveGoals(goals: seq<Goal>): (n: nat)
    ensures n <= |goals|
  {
    if |goals| == 0 then 0
    else
      var g := goals[|goals| - 1];
      ActiveGoals(goals[..|goals| - 1]) + (if Progress(g.currentAmount, g.targetAmount) < 100.0 then 1 else 0)
  }

  /** No goal is active exactly when every goal has reached a positive target. */
  lemma {:induction false} NoActiveGoals(goals: seq<Goal>)
    ensures ActiveGoals(goals) == 0 <==> forall g | g in goals :: g.targetAmount > 0.0 && g.currentAmount >= g.targetAmount
  {
    if |goals| > 0 {
      var n := |goals| - 1;
      NoActiveGoals(goals[..n]);
      assert goals == goals[..n] + [goals[n]];
    }
  }

  /** The APY of each account, in account order. */
  function Apys(accounts: seq<SavingsAccount>): (r: seq<real>)
    ensures |r| == |accounts|
    ensures forall i | 0 <= i < |accounts| :: r[i] == accounts[i].apy
  {
    if |accounts| == 0 then [] else Apys(accounts[..|accounts| - 1]) + [accounts[|accounts| - 1].apy]
  }

  /**
   * The positive APYs, in account order (`$cond: [{$gt: [$apy, 0]}, $apy, None]`, Nones dropped):
   * each positive value as often as accounts carry it, and no other value.
   */
  function PositiveApys(accounts: seq<SavingsAccount>): (apys: seq<real>)
    ensures |apys| <= |accounts|
    ensures forall x :: multiset(apys)[x] == if x > 0.0 then multiset(Apys(accounts))[x] else 0
    ensures forall x | x in apys :: x > 0.0
    ensures forall a | a in accounts :: a.apy > 0.0 ==> a.apy in apys
    ensures forall x | x in apys :: exists a | a in accounts :: a.apy == x
  {
    if |accounts| == 0 then []
    else
      var init := accounts[..|accounts| - 1];
      var a := accounts[|accounts| - 1];
      var front := PositiveApys(init);
      var r := if a.apy > 0.0 then front + [a.apy] else front;
      assert Apys(accounts) == Apys(init) + [a.apy];
      assert multiset(r) == multiset(front) + if a.apy > 0.0 then multiset{a.apy} else multiset{};
      PositiveApysMembers(accounts, r);
      r
  }

  /** Membership facts that follow from the per-value counts of `PositiveApys`. */
  lemma PositiveApysMembers(accounts: seq<SavingsAccount>, apys: seq<real>)
    requires forall x :: multiset(apys)[x] == if x > 0.0 then multiset(Apys(accounts))[x] else 0
    ensures forall x | x in apys :: x > 0.0
    ensures forall a | a in accounts :: a.apy > 0.0 ==> a.apy in apys
    ensures forall x | x in apys :: exists a | a in accounts :: a.apy == x
  {
    var all := Apys(accounts);
    forall x | x in apys
      ensures x > 0.0 && exists a | a in accounts :: a.apy == x
    {
      assert multiset(apys)[x] > 0;
      assert x > 0.0 && x in multiset(all);
      var i :| 0 <= i < |all| && all[i] == x;
      assert accounts[i] in accounts;
    }
    forall a | a in accounts && a.apy > 0.0
      ensures a.apy in apys
    {
      var i :| 0 <= i < |accounts| && accounts[i] == a;
      assert all[i] == a.apy;
      assert multiset(all)[a.apy] > 0;
      assert a.apy in multiset(apys);
    }
  }

  /** A non-empty list of positive amounts has a positive sum. */
  lemma {:induction false} SumPositive(xs: seq<real>)
    requires forall x | x in xs :: x > 0.0
    ensures |xs| > 0 ==> Sum(xs) > 0.0
  {
    if |xs| > 0 {
      var f := xs[..|xs| - 1];
      assert forall x | x in f :: x in xs;
      assert xs[|xs| - 1] in xs;
      SumPositive(f);
    }
  }

  /** A list whose entries are at most `hi` sums to at most `|xs| * hi`. */
  lemma {:induction false} SumAtMost(xs: seq<real>, hi: real)
    requires forall x | x in xs :: x <= hi
    ensures Sum(xs) <= |xs| as real * hi
  {
    if |xs| > 0 {
      var f := xs[..|xs| - 1];
      assert forall x | x in f :: x in xs;
      assert xs[|xs| - 1] in xs;
      SumAtMost(f, hi);
    }
  }

  /** The average of the positive APYs, 0 when there is none. */
  function AverageApy(accounts: seq<SavingsAccount>): (avg: real)
    ensures PositiveApys(accounts) == [] ==> avg == 0.0
    ensures PositiveApys(accounts) != [] ==> avg > 0.0
  {
    var apys := PositiveApys(accounts);
    if |apys| > 0 then
      SumPositive(apys);
      QuotientPositive(Sum(apys), |apys| as real);
      Sum(apys) / (|apys| as real)
    else 0.0
  }

  /** The average is the mean of the positive APYs (times their number it gives their sum), 0 when there is none. */
  lemma AverageApyIsMean(accounts: seq<SavingsAccount>)
    ensures AverageApy(accounts) == Mean(Sum(PositiveApys(accounts)), |PositiveApys(accounts)|, 0.0)
  {
  }

  lemma QuotientPositive(s: real, n: real)
    requires s > 0.0 && n > 0.0
    ensures s / n > 0.0
  {
    assert s / n * n == s;
  }

  /** The average APY never exceeds a bound on every account's APY (nor 0). */
  lemma AverageApyBounded(accounts: seq<SavingsAccount>, hi: real)
    requires forall a | a in accounts :: a.apy <= hi
    ensures AverageApy(accounts) <= if hi > 0.0 then hi else 0.0
  {
    var apys := PositiveApys(accounts);
    if |apys| > 0 {
      PositiveApysAtMost(accounts, hi);
      assert apys[0] in apys;
      assert 0.0 < apys[0] <= hi;
      SumAtMost(apys, hi);
      var n := |apys| as real;
      assert AverageApy(accounts) == Sum(apys) / n;
      AverageAtMost(Sum(apys), n, hi);
    }
  }

  /** A bound on every account's APY bounds every APY that is averaged. */
  lemma PositiveApysAtMost(accounts: seq<SavingsAccount>, hi: real)
    requires forall a | a in accounts :: a.apy <= hi
    ensures forall y | y in PositiveApys(accounts) :: y <= hi
  {
    forall y | y in PositiveApys(accounts)
      ensures y <= hi
    {
      var a :| a in accounts && a.apy == y;
    }
  }

  /** `s <= n * hi` with `n > 0` gives `s / n <= hi`. */
  lemma AverageAtMost(s: real, n: real, hi: real)
    requires n > 0.0 && s <= n * hi
    ensures s / n <= hi
  {
    assert s / n * n == s;
    LessEqScaled(s / n, hi, n);
  }

  /** The figures `get_savings_summary` returns (rounding and monthly growth not modelled). */
  datatype SavingsSummaryReport = SavingsSummaryReport(
    totalSavings: real, averageApy: real, activeGoals: nat, totalAccounts: nat)

  /** `get_savings_summary` over the user's savings accounts and goals. */
  method GetSavingsSummary(accounts: seq<SavingsAccount>, goals: seq<Goal>) returns (report: SavingsSummaryReport)
    ensures report.activeGoals == ActiveGoals(goals)
    ensures report.totalSavings == TotalSavings(accounts) && report.totalAccounts == |accounts|
    ensures report.averageApy == AverageApy(accounts)
    ensures accounts == [] ==> report == SavingsSummaryReport(0.0, 0.0, ActiveGoals(goals), 0)
  {
    var active := 0;
    for i := 0 to |goals|
      invariant active == ActiveGoals(goals[..i])
    {
      assert goals[..i + 1][..i] == goals[..i];
      var g := goals[i];
      if Progress(g.currentAmount, g.targetAmount) < 100.0 {
        active := active + 1;
      }
    }
    assert goals[..|goals|] == goals;
    if |accounts| == 0 {
      return SavingsSummaryReport(0.0, 0.0, active, 0);
    }
    report := SavingsSummaryReport(TotalSavings(accounts), AverageApy(accounts), active, |accounts|);
  }
}
