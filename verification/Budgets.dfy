/** Incentive budgets and the token counter across claims, distributions and budget changes. */
module Budgets {
  import opened Model
  import opened Rewards
  import opened Incentives
  import opened TokenLedger

  ghost predicate BudgetInv(funds: Funds) {
    && (forall id :: id in funds.incentives ==> 1 <= id <= funds.incentiveCount)
    && (forall id :: id in funds.incentives ==> funds.incentives[id].remaining <= funds.incentives[id].total)
  }

  /** Total minus remaining: what the contract takes to be spent. */
  function Used(funds: Funds, id: nat): int {
    if id in funds.incentives then funds.incentives[id].total - funds.incentives[id].remaining else 0
  }

  /** What a call takes out of the budget of programme `id`. */
  ghost function Spent(s: State, op: IncentiveOp, id: nat): nat {
    match op
    case Claim(i, m, a) =>
      (match ClaimReward(s, i, m, a) case Ok(r) => if i == id then r.1 else 0 case Err(_) => 0)
    case Distribute(m, i, a, multiplier, tokenSet, paysOut) =>
      if i == id && DistributeRewards(s, m, i, a, multiplier, tokenSet, paysOut).Ok? then
        Low64(CheckDistribution(s, m, i, a, multiplier, tokenSet).value)
      else 0
    case _ => 0
  }

  /** What a new total below the spent amount makes the contract forget having spent. */
  ghost function Forgotten(s: State, op: IncentiveOp, id: nat): nat {
    match op
    case Update(i, points, total) =>
      if i == id && UpdateIncentive(s.reg, s.funds, i, points, total).Ok? && total < Used(s.funds, i)
      then Used(s.funds, i) - total else 0
    case _ => 0
  }

  lemma SmallStepsBudget(s: State, op: IncentiveOp, id: nat)
    requires BudgetInv(s.funds) && (op.Create? || op.Switch? || op.Close?)
    ensures BudgetInv(IncentiveStep(s, op).funds)
    ensures Used(IncentiveStep(s, op).funds, id) == Used(s.funds, id)
  {}

  /** Writing one programme back. */
  lemma WriteBudget(funds: Funds, total: nat, id: nat, i: Incentive)
    requires BudgetInv(funds) && id in funds.incentives && i.remaining <= i.total
    ensures BudgetInv(funds.(totalTokens := total, incentives := funds.incentives[id := i]))
  {}

  lemma UpdateBudget(s: State, op: IncentiveOp, id: nat)
    requires BudgetInv(s.funds) && op.Update?
    ensures BudgetInv(IncentiveStep(s, op).funds)
    ensures Used(IncentiveStep(s, op).funds, id) + Forgotten(s, op, id) == Used(s.funds, id)
  {
    if UpdateIncentive(s.reg, s.funds, op.id, op.points, op.total).Ok? {
      WriteBudget(s.funds, s.funds.totalTokens, op.id, Rebudget(s.funds.incentives[op.id], op.points, op.total));
    }
  }

  lemma ClaimBudget(s: State, op: IncentiveOp, id: nat)
    requires BudgetInv(s.funds) && op.Claim?
    ensures BudgetInv(IncentiveStep(s, op).funds)
    ensures Used(IncentiveStep(s, op).funds, id) == Used(s.funds, id) + Spent(s, op, id)
  {
    var r := ClaimReward(s, op.id, op.material, op.claimer);
    if r.Ok? {
      WriteBudget(s.funds, r.value.0.funds.totalTokens, op.id, Debit(s.funds.incentives[op.id], r.value.1));
    }
  }

  lemma ChargeBudget(funds: Funds, total: nat, i: nat, amount: nat, id: nat)
    requires BudgetInv(funds) && i in funds.incentives && amount <= funds.incentives[i].remaining
    ensures var after := funds.(totalTokens := total,
                                incentives := funds.incentives[i := Debit(funds.incentives[i], amount)]);
      BudgetInv(after) && Used(after, id) == Used(funds, id) + if i == id then amount else 0
  {
    WriteBudget(funds, total, i, Debit(funds.incentives[i], amount));
  }

  lemma SettledFunds(s: State, m: nat, i: nat, reward: nat, paysOut: bool)
    requires m in s.store.materials && i in s.funds.incentives && Low64(reward) <= s.funds.incentives[i].remaining
    requires Settle(s, m, i, reward, paysOut).Ok?
    ensures var after := Settle(s, m, i, reward, paysOut).value.0.funds;
      && after.incentives == s.funds.incentives[i := Debit(s.funds.incentives[i], Low64(reward))]
      && after.incentiveCount == s.funds.incentiveCount && after.config == s.funds.config
  {}

  lemma SettleBudget(s: State, m: nat, i: nat, reward: nat, paysOut: bool, id: nat)
    requires BudgetInv(s.funds) && m in s.store.materials && i in s.funds.incentives
    requires Low64(reward) <= s.funds.incentives[i].remaining && Settle(s, m, i, reward, paysOut).Ok?
    ensures var after := Settle(s, m, i, reward, paysOut).value.0.funds;
      BudgetInv(after) && Used(after, id) == Used(s.funds, id) + if i == id then Low64(reward) else 0
  {
    SettledFunds(s, m, i, reward, paysOut);
    ChargeBudget(s.funds, Settle(s, m, i, reward, paysOut).value.0.funds.totalTokens, i, Low64(reward), id);
  }

  lemma DistributeBudget(s: State, op: IncentiveOp, id: nat)
    requires BudgetInv(s.funds) && op.Distribute?
    ensures BudgetInv(IncentiveStep(s, op).funds)
    ensures Used(IncentiveStep(s, op).funds, id) == Used(s.funds, id) + Spent(s, op, id)
  {
    var reward := CheckDistribution(s, op.material, op.id, op.manufacturer, op.multiplier, op.tokenSet);
    if reward.Ok? && Settle(s, op.material, op.id, reward.value, op.paysOut).Ok? {
      SettleBudget(s, op.material, op.id, reward.value, op.paysOut, id);
    }
  }

  lemma StepBudget(s: State, op: IncentiveOp, id: nat)
    requires BudgetInv(s.funds)
    ensures BudgetInv(IncentiveStep(s, op).funds)
    ensures Used(IncentiveStep(s, op).funds, id) + Forgotten(s, op, id) == Used(s.funds, id) + Spent(s, op, id)
  {
    match op
    case Update(_, _, _) => UpdateBudget(s, op, id);
    case Claim(_, _, _) => ClaimBudget(s, op, id);
    case Distribute(_, _, _, _, _, _) => DistributeBudget(s, op, id);
    case _ => SmallStepsBudget(s, op, id);
  }

  // ---------- the token counter ----------

  lemma {:induction false} EarnAllBalances(reg: Registry, total: nat, pays: seq<Payment>)
    requires EarnAll(reg, total, pays).Ok?
    ensures var r := EarnAll(reg, total, pays).value; Balanced(reg, total, r.0, r.1)
  {
    if pays != [] {
      var last := |pays| - 1;
      EarnAllBalances(reg, total, pays[..last]);
      var done := EarnAll(reg, total, pays[..last]).value;
      EarnBalances(done.0, done.1, pays[last].to, 0, Low64(pays[last].amount));
      var r := EarnAll(reg, total, pays).value;
      BalancedTransitive(reg, total, done.0, done.1, r.0, r.1);
    }
  }

  /** A distribution adds its reward to the counter once per payment and then once more. */
  ghost function CountedTwice(s: State, op: IncentiveOp): nat {
    match op
    case Distribute(m, i, a, multiplier, tokenSet, paysOut) =>
      if DistributeRewards(s, m, i, a, multiplier, tokenSet, paysOut).Ok? then
        CheckDistribution(s, m, i, a, multiplier, tokenSet).value
      else 0
    case _ => 0
  }

  ghost predicate PaidInto(s: State, extra: nat, s': State) {
    && SameFaces(s.reg, s'.reg)
    && TokenSum(s'.reg) + s.funds.totalTokens + extra == TokenSum(s.reg) + s'.funds.totalTokens
  }

  lemma SettleTokens(s: State, m: nat, i: nat, reward: nat, paysOut: bool)
    requires m in s.store.materials && i in s.funds.incentives && Low64(reward) <= s.funds.incentives[i].remaining
    requires Settle(s, m, i, reward, paysOut).Ok?
    ensures PaidInto(s, reward, Settle(s, m, i, reward, paysOut).value.0)
  {
    EarnAllBalances(s.reg, s.funds.totalTokens,
      Payments(s.reg, TransferHistory(s.store, m), s.store.materials[m].submitter, reward, s.funds.config));
  }

  lemma ClaimTokens(s: State, i: nat, m: nat, a: Address)
    requires ClaimReward(s, i, m, a).Ok?
    ensures PaidInto(s, 0, ClaimReward(s, i, m, a).value.0)
  {
    EarnBalances(s.reg, s.funds.totalTokens, a, 0, ClaimReward(s, i, m, a).value.1);
  }

  lemma IncentiveTokens(s: State, op: IncentiveOp)
    ensures PaidInto(s, CountedTwice(s, op), IncentiveStep(s, op))
  {
    match op
    case Claim(i, m, a) =>
      if ClaimReward(s, i, m, a).Ok? { ClaimTokens(s, i, m, a); }
    case Distribute(m, i, a, multiplier, tokenSet, paysOut) =>
      if DistributeRewards(s, m, i, a, multiplier, tokenSet, paysOut).Ok? {
        SettleTokens(s, m, i, CheckDistribution(s, m, i, a, multiplier, tokenSet).value, paysOut);
      }
    case _ =>
  }
}
