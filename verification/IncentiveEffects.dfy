/** Incentive programmes once more: which calls go through, and what each leaves of every programme and record. */
module IncentiveEffects {
  import opened Prelude
  import opened Model
  import opened CustodyIndex
  import opened Rewards
  import opened Incentives
  import opened RewardEffects
  import opened MaterialEffects

  /** Points for every whole kilogram. */
  function ClaimOf(m: Material, i: Incentive): nat { m.weight / 1000 * i.points }

  /** The same times the season's multiplier, in percent. */
  function RewardOf(m: Material, i: Incentive, multiplier: nat): nat {
    i.points * (m.weight / 1000) * multiplier / 100
  }

  /** The payments of a distribution. */
  function Due(s: State, material: nat, reward: nat): seq<Payment>
    requires material in s.store.materials
  {
    Payments(s.reg, Chain(s.store, material), s.store.materials[material].submitter, reward, s.funds.config)
  }

  /** The reward, and all that a distribution adds up for it, fits the integers. */
  ghost predicate Payable(s: State, material: nat, reward: nat)
    requires material in s.store.materials
  {
    && reward * s.funds.config.collector <= I128_MAX && reward * s.funds.config.owner <= I128_MAX
    && Payout(Due(s, material, reward)) <= I128_MAX
    && PaymentsFit(s.reg, s.funds.totalTokens, Due(s, material, reward))
    && s.funds.totalTokens + BookedToKnown(s.reg, Due(s, material, reward)) + reward <= U128_MAX
  }

  ghost predicate Admits(s: State, op: IncentiveOp) {
    match op
    case Create(a, wt, points, total) =>
      Registered(s.reg, a) && s.reg.participants[a].role == Manufacturer && s.funds.incentiveCount < U64_MAX
    case Switch(id, active) => id in s.funds.incentives && Registered(s.reg, s.funds.incentives[id].rewarder)
    case Update(id, points, total) =>
      && id in s.funds.incentives && Registered(s.reg, s.funds.incentives[id].rewarder)
      && s.funds.incentives[id].active && points > 0 && total > 0
      && s.funds.incentives[id].remaining <= s.funds.incentives[id].total
    case Close(id, a) => Registered(s.reg, a) && id in s.funds.incentives && s.funds.incentives[id].rewarder == a
    case Claim(id, m, a) =>
      && Registered(s.reg, a) && id in s.funds.incentives && s.funds.incentives[id].active
      && m in s.store.materials && s.store.materials[m].verified
      && s.store.materials[m].wasteType == s.funds.incentives[id].wasteType
      && var reward := ClaimOf(s.store.materials[m], s.funds.incentives[id]);
      && 0 < reward <= U64_MAX && reward <= s.funds.incentives[id].remaining
      && s.reg.participants[a].processed <= U128_MAX && s.reg.participants[a].tokens + reward <= U128_MAX
      && s.funds.totalTokens + reward <= U128_MAX
    case Distribute(m, id, a, multiplier, tokenSet, paysOut) =>
      && m in s.store.materials && s.store.materials[m].verified
      && id in s.funds.incentives && s.funds.incentives[id].active && s.funds.incentives[id].rewarder == a
      && s.store.materials[m].wasteType == s.funds.incentives[id].wasteType && tokenSet && paysOut
      && s.funds.incentives[id].points * (s.store.materials[m].weight / 1000) * multiplier <= I128_MAX
      && var reward := RewardOf(s.store.materials[m], s.funds.incentives[id], multiplier);
      reward % 0x1_0000_0000_0000_0000 <= s.funds.incentives[id].remaining && Payable(s, m, reward)
  }

  /** One programme changed, to this. */
  ghost predicate OnlyProgramme(funds: Funds, funds': Funds, id: nat, i: Incentive) {
    && funds' == funds.(incentives := funds'.incentives) && id in funds.incentives
    && funds'.incentives.Keys == funds.incentives.Keys && funds'.incentives[id] == i
    && forall j :: j in funds.incentives && j != id ==> funds'.incentives[j] == funds.incentives[j]
  }

  /** The programme after its budget paid `amount`: closed when nothing is left. */
  predicate Charged(i: Incentive, i': Incentive, amount: nat) {
    && i'.remaining + amount == i.remaining
    && i' == i.(remaining := i'.remaining, active := i.active && i'.remaining > 0)
  }

  /** The programme with a new total: what was spent stays spent, and a total not above it closes the programme. */
  predicate Rebudgeted(i: Incentive, i': Incentive, points: nat, total: nat) {
    var spent := i.total - i.remaining;
    && i'.points == points && i'.total == total
    && i'.remaining == (if total > spent then total - spent else 0)
    && i' == i.(points := points, total := total, remaining := i'.remaining, active := i.active && total > spent)
  }

  ghost predicate Leaves(s: State, op: IncentiveOp, s': State) {
    match op
    case Create(a, wt, points, total) =>
      var id := s.funds.incentiveCount + 1;
      s' == s.(funds := s.funds.(incentiveCount := id,
                                 incentives := s.funds.incentives[id := Incentive(a, wt, points, total, total, true)]))
    case Switch(id, active) =>
      && id in s.funds.incentives && s' == s.(funds := s'.funds)
      && OnlyProgramme(s.funds, s'.funds, id, s.funds.incentives[id].(active := active))
    case Update(id, points, total) =>
      && id in s.funds.incentives && id in s'.funds.incentives && s' == s.(funds := s'.funds)
      && OnlyProgramme(s.funds, s'.funds, id, s'.funds.incentives[id])
      && Rebudgeted(s.funds.incentives[id], s'.funds.incentives[id], points, total)
    case Close(id, a) =>
      && id in s.funds.incentives && s' == s.(funds := s'.funds)
      && OnlyProgramme(s.funds, s'.funds, id, s.funds.incentives[id].(active := false))
    case Claim(id, m, a) =>
      && id in s.funds.incentives && m in s.store.materials && a in s.reg.participants
      && var reward := ClaimOf(s.store.materials[m], s.funds.incentives[id]);
      && Paid(s, s', id, s.funds.totalTokens + reward, reward)
      && a in s'.reg.participants && Booked(s.reg.participants[a], s'.reg.participants[a], 1, reward)
      && OnlyRecord(s.reg, s'.reg, a, s'.reg.participants[a])
    case Distribute(m, id, a, multiplier, _, _) =>
      && id in s.funds.incentives && m in s.store.materials
      && var reward := RewardOf(s.store.materials[m], s.funds.incentives[id], multiplier);
      && Paid(s, s', id, s.funds.totalTokens + BookedToKnown(s.reg, Due(s, m, reward)) + reward,
              reward % 0x1_0000_0000_0000_0000)
      && s'.reg.index == s.reg.index && s'.reg.participants.Keys == s.reg.participants.Keys
      && forall b :: b in s.reg.participants ==>
        Booked(s.reg.participants[b], s'.reg.participants[b], PaymentsTo(Due(s, m, reward), b),
               BookedTo(Due(s, m, reward), b))
  }

  /** A programme was charged and the token counter set; records apart, nothing else changed. */
  ghost predicate Paid(s: State, s': State, id: nat, counter: nat, charge: nat) {
    && s' == s.(reg := s'.reg, funds := s'.funds) && id in s.funds.incentives && id in s'.funds.incentives
    && s'.funds.totalTokens == counter
    && OnlyProgramme(s.funds.(totalTokens := counter), s'.funds, id, s'.funds.incentives[id])
    && Charged(s.funds.incentives[id], s'.funds.incentives[id], charge)
  }

  lemma BudgetCallIs(s: State, op: IncentiveOp)
    requires !op.Claim? && !op.Distribute?
    ensures if Admits(s, op) then Leaves(s, op, IncentiveStep(s, op)) else IncentiveStep(s, op) == s
  {}

  lemma ClaimIs(s: State, id: nat, m: nat, a: Address)
    ensures var r, op := ClaimReward(s, id, m, a), Claim(id, m, a);
      && (r.Ok? <==> Admits(s, op))
      && (r.Ok? ==>
            && Leaves(s, op, r.value.0)
            && r.value.1 == ClaimOf(s.store.materials[m], s.funds.incentives[id]))
  {}

  lemma DistributionChecks(s: State, m: nat, id: nat, a: Address, multiplier: nat, tokenSet: bool)
    requires IdsInv(s.store)
    ensures var r := CheckDistribution(s, m, id, a, multiplier, tokenSet);
      && (r.Ok? <==>
            && m in s.store.materials && s.store.materials[m].verified
            && id in s.funds.incentives && s.funds.incentives[id].active && s.funds.incentives[id].rewarder == a
            && s.store.materials[m].wasteType == s.funds.incentives[id].wasteType && tokenSet
            && s.funds.incentives[id].points * (s.store.materials[m].weight / 1000) * multiplier <= I128_MAX
            && var reward := RewardOf(s.store.materials[m], s.funds.incentives[id], multiplier);
            && reward % 0x1_0000_0000_0000_0000 <= s.funds.incentives[id].remaining
            && reward * s.funds.config.collector <= I128_MAX && reward * s.funds.config.owner <= I128_MAX)
      && (r.Ok? ==> r.value == RewardOf(s.store.materials[m], s.funds.incentives[id], multiplier))
  {}

  lemma SettlesIff(s: State, m: nat, id: nat, reward: nat, paysOut: bool)
    requires IdsInv(s.store) && m in s.store.materials && id in s.funds.incentives
    requires Low64(reward) <= s.funds.incentives[id].remaining
    ensures Settle(s, m, id, reward, paysOut).Ok?
            <==> && paysOut && Payout(Due(s, m, reward)) <= I128_MAX
                 && PaymentsFit(s.reg, s.funds.totalTokens, Due(s, m, reward))
                 && s.funds.totalTokens + BookedToKnown(s.reg, Due(s, m, reward)) + reward <= U128_MAX
  {
    EarnAllFitsIff(s.reg, s.funds.totalTokens, Due(s, m, reward));
  }

  /** An accepted settlement, in terms of the payments due. */
  lemma SettleShape(s: State, m: nat, id: nat, reward: nat)
    requires IdsInv(s.store) && m in s.store.materials && id in s.funds.incentives
    requires Low64(reward) <= s.funds.incentives[id].remaining && Settle(s, m, id, reward, true).Ok?
    ensures var pays := Due(s, m, reward);
      && EarnAll(s.reg, s.funds.totalTokens, pays).Ok?
      && var paid := EarnAll(s.reg, s.funds.totalTokens, pays).value;
      Settle(s, m, id, reward, true)
      == Ok((s.(reg := paid.0,
                funds := s.funds.(totalTokens := paid.1 + reward,
                                  incentives := s.funds.incentives[id := Debit(s.funds.incentives[id],
                                                                               Low64(reward))])),
             pays))
  {}

  lemma DebitIs(s: State, reg: Registry, id: nat, counter: nat, amount: nat)
    requires id in s.funds.incentives && amount <= s.funds.incentives[id].remaining
    ensures var programmes := s.funds.incentives[id := Debit(s.funds.incentives[id], amount)];
      Paid(s, s.(reg := reg, funds := s.funds.(totalTokens := counter, incentives := programmes)), id, counter, amount)
  {}

  lemma SettleIs(s: State, m: nat, id: nat, reward: nat)
    requires IdsInv(s.store) && m in s.store.materials && id in s.funds.incentives
    requires Low64(reward) <= s.funds.incentives[id].remaining && Settle(s, m, id, reward, true).Ok?
    ensures var r, pays := Settle(s, m, id, reward, true).value, Due(s, m, reward);
      && r.1 == pays
      && Paid(s, r.0, id, s.funds.totalTokens + BookedToKnown(s.reg, pays) + reward, Low64(reward))
      && r.0.reg.index == s.reg.index && r.0.reg.participants.Keys == s.reg.participants.Keys
      && forall b :: b in s.reg.participants ==>
        Booked(s.reg.participants[b], r.0.reg.participants[b], PaymentsTo(pays, b), BookedTo(pays, b))
  {
    var pays := Due(s, m, reward);
    SettleShape(s, m, id, reward);
    EarnAllFitsIff(s.reg, s.funds.totalTokens, pays);
    EarnAllAre(s.reg, s.funds.totalTokens, pays);
    DebitIs(s, EarnAll(s.reg, s.funds.totalTokens, pays).value.0, id,
            s.funds.totalTokens + BookedToKnown(s.reg, pays) + reward, Low64(reward));
  }

  /** A distribution makes exactly the payments due, books them, and charges the reward. */
  lemma DistributeIs(s: State, m: nat, id: nat, a: Address, multiplier: nat, tokenSet: bool, paysOut: bool)
    requires IdsInv(s.store)
    ensures var r, op := DistributeRewards(s, m, id, a, multiplier, tokenSet, paysOut),
                         Distribute(m, id, a, multiplier, tokenSet, paysOut);
      && (r.Ok? <==> Admits(s, op))
      && (r.Ok? ==>
            && Leaves(s, op, r.value.0)
            && r.value.1 == Due(s, m, RewardOf(s.store.materials[m], s.funds.incentives[id], multiplier)))
  {
    DistributionChecks(s, m, id, a, multiplier, tokenSet);
    if CheckDistribution(s, m, id, a, multiplier, tokenSet).Ok? {
      var reward := RewardOf(s.store.materials[m], s.funds.incentives[id], multiplier);
      SettlesIff(s, m, id, reward, paysOut);
      if paysOut && Settle(s, m, id, reward, true).Ok? { SettleIs(s, m, id, reward); }
    }
  }

  /** Every call on programmes goes through exactly when it is admitted, and then leaves exactly this. */
  lemma StepIs(s: State, op: IncentiveOp)
    requires IdsInv(s.store)
    ensures if Admits(s, op) then Leaves(s, op, IncentiveStep(s, op)) else IncentiveStep(s, op) == s
  {
    match op
    case Claim(id, m, a) => ClaimIs(s, id, m, a);
    case Distribute(m, id, a, multiplier, tokenSet, paysOut) =>
      DistributeIs(s, m, id, a, multiplier, tokenSet, paysOut);
    case _ => BudgetCallIs(s, op);
  }

  // ---------- refusals ----------

  predicate NoProgramme(s: State, id: nat, e: Error) { e == IncentiveNotFound && id !in s.funds.incentives }

  /** An error a refused call may answer names a check that failed; `Overflow` is left to what is not admitted. */
  predicate Blames(s: State, op: IncentiveOp, e: Error) {
    match op
    case Create(a, _, _, _) =>
      || (e == NotRegistered && !Registered(s.reg, a)) || (e == Overflow && s.funds.incentiveCount >= U64_MAX)
      || (e == NotManufacturer && Registered(s.reg, a) && s.reg.participants[a].role != Manufacturer)
    case Switch(id, _) => NoProgramme(s, id, e) || Unregistered(s, id, e)
    case Update(id, points, total) =>
      || NoProgramme(s, id, e) || Unregistered(s, id, e) || Inactive(s, id, e)
      || (e == InvalidAmount && (points == 0 || total == 0))
      || (e == Overflow && id in s.funds.incentives && s.funds.incentives[id].remaining > s.funds.incentives[id].total)
    case Close(id, a) => (e == NotRegistered && !Registered(s.reg, a)) || NoProgramme(s, id, e) || Foreign(s, id, a, e)
    case Claim(id, m, a) =>
      || (e == NotRegistered && !Registered(s.reg, a)) || NoProgramme(s, id, e) || Inactive(s, id, e)
      || Unfit(s, id, m, e) || e == Overflow || Worthless(s, id, m, e)
    case Distribute(m, id, a, multiplier, tokenSet, paysOut) =>
      || Undue(s, id, m, a, e) || (e == TokenAddressNotSet && !tokenSet) || (e == PaymentFailed && !paysOut)
      || e == Overflow || (e == InsufficientBudget && Beyond(s, id, m, multiplier))
  }

  /** The material earns nothing, or more than is left. */
  predicate Worthless(s: State, id: nat, m: nat, e: Error) {
    && id in s.funds.incentives && m in s.store.materials
    && var reward := ClaimOf(s.store.materials[m], s.funds.incentives[id]);
    || (e == NoRewardAvailable && reward == 0)
    || (e == InsufficientBudget && reward > s.funds.incentives[id].remaining)
  }

  /** The distribution is not this caller's to make. */
  predicate Undue(s: State, id: nat, m: nat, a: Address, e: Error) {
    NoProgramme(s, id, e) || Inactive(s, id, e) || Unfit(s, id, m, e) || Foreign(s, id, a, e)
  }

  /** The budget does not cover the low 64 bits of the reward. */
  predicate Beyond(s: State, id: nat, m: nat, multiplier: nat) {
    && id in s.funds.incentives && m in s.store.materials
    && RewardOf(s.store.materials[m], s.funds.incentives[id], multiplier) % 0x1_0000_0000_0000_0000
       > s.funds.incentives[id].remaining
  }

  predicate Unregistered(s: State, id: nat, e: Error) {
    e == NotRegistered && id in s.funds.incentives && !Registered(s.reg, s.funds.incentives[id].rewarder)
  }

  predicate Inactive(s: State, id: nat, e: Error) {
    e == IncentiveInactive && id in s.funds.incentives && !s.funds.incentives[id].active
  }

  predicate Foreign(s: State, id: nat, a: Address, e: Error) {
    e == NotCreator && id in s.funds.incentives && s.funds.incentives[id].rewarder != a
  }

  /** The material does not fit the programme. */
  predicate Unfit(s: State, id: nat, m: nat, e: Error) {
    || (e == MaterialNotFound && m !in s.store.materials)
    || (e == MaterialNotVerified && m in s.store.materials && !s.store.materials[m].verified)
    || (e == WasteTypeMismatch && m in s.store.materials && id in s.funds.incentives
        && s.store.materials[m].wasteType != s.funds.incentives[id].wasteType)
  }

  lemma {:induction false} BookingOverflows(reg: Registry, total: nat, pays: seq<Payment>)
    ensures EarnAll(reg, total, pays).Err? ==> EarnAll(reg, total, pays).error == Overflow
  {
    if pays != [] { BookingOverflows(reg, total, pays[..|pays| - 1]); }
  }

  lemma OpeningRefusalsAre(s: State, id: nat, a: Address, wt: WasteType, points: nat, total: nat, active: bool)
    ensures var r := CreateIncentive(s.reg, s.funds, a, wt, points, total);
      r.Err? ==> Blames(s, Create(a, wt, points, total), r.error)
    ensures var r := SetStatus(s.reg, s.funds, id, active); r.Err? ==> Blames(s, Switch(id, active), r.error)
  {}

  lemma BudgetRefusalsAre(s: State, id: nat, a: Address, points: nat, total: nat)
    ensures var r := UpdateIncentive(s.reg, s.funds, id, points, total);
      r.Err? ==> Blames(s, Update(id, points, total), r.error)
    ensures var r := DeactivateIncentive(s.reg, s.funds, id, a); r.Err? ==> Blames(s, Close(id, a), r.error)
  {}

  lemma ClaimRefusalsAre(s: State, id: nat, m: nat, a: Address)
    ensures var r := ClaimReward(s, id, m, a); r.Err? ==> Blames(s, Claim(id, m, a), r.error)
  {
    if ClaimReward(s, id, m, a).Err? { ClaimFails(s, id, m, a); }
  }

  lemma ClaimFails(s: State, id: nat, m: nat, a: Address)
    requires ClaimReward(s, id, m, a).Err?
    ensures var e := ClaimReward(s, id, m, a).error;
      || (e == NotRegistered && !Registered(s.reg, a)) || NoProgramme(s, id, e) || Inactive(s, id, e)
      || Unfit(s, id, m, e) || e == Overflow || Worthless(s, id, m, e)
  {
    if Registered(s.reg, a) && id in s.funds.incentives && m in s.store.materials {
      PaymentFails(s, id, m, a, ClaimOf(s.store.materials[m], s.funds.incentives[id]));
    }
  }

  lemma PaymentFails(s: State, id: nat, m: nat, a: Address, reward: nat)
    requires Registered(s.reg, a) && id in s.funds.incentives && m in s.store.materials
    requires reward == ClaimOf(s.store.materials[m], s.funds.incentives[id]) && ClaimReward(s, id, m, a).Err?
    ensures var e := ClaimReward(s, id, m, a).error;
      || Inactive(s, id, e) || Unfit(s, id, m, e) || e == Overflow
      || (e == NoRewardAvailable && reward == 0)
      || (e == InsufficientBudget && reward > s.funds.incentives[id].remaining)
  {}

  lemma TotalIs(s: State, id: nat, m: nat, multiplier: nat)
    requires IdsInv(s.store) && m in s.store.materials && id in s.funds.incentives
    ensures TotalReward(s.store, m, s.store.materials[m].weight, s.funds.incentives[id].points, multiplier)
            == RewardOf(s.store.materials[m], s.funds.incentives[id], multiplier)
  {}

  lemma ChecksBlame(s: State, m: nat, id: nat, a: Address, multiplier: nat, tokenSet: bool)
    requires IdsInv(s.store)
    ensures var r := CheckDistribution(s, m, id, a, multiplier, tokenSet);
      r.Err? ==>
        || Undue(s, id, m, a, r.error) || (r.error == TokenAddressNotSet && !tokenSet) || r.error == Overflow
        || (r.error == InsufficientBudget && Beyond(s, id, m, multiplier))
  {
    if m in s.store.materials && id in s.funds.incentives {
      TotalIs(s, id, m, multiplier);
      CheckFails(s, m, id, a, multiplier, tokenSet,
                 RewardOf(s.store.materials[m], s.funds.incentives[id], multiplier));
    }
  }

  lemma CheckFails(s: State, m: nat, id: nat, a: Address, multiplier: nat, tokenSet: bool, reward: nat)
    requires m in s.store.materials && id in s.funds.incentives
    requires reward == TotalReward(s.store, m, s.store.materials[m].weight, s.funds.incentives[id].points, multiplier)
    ensures var r := CheckDistribution(s, m, id, a, multiplier, tokenSet);
      r.Err? ==>
        || Inactive(s, id, r.error) || Unfit(s, id, m, r.error) || Foreign(s, id, a, r.error) || r.error == Overflow
        || (r.error == TokenAddressNotSet && !tokenSet)
        || (r.error == InsufficientBudget && Low64(reward) > s.funds.incentives[id].remaining)
  {}

  lemma SettlingFailsWith(s: State, m: nat, id: nat, reward: nat, paysOut: bool)
    requires m in s.store.materials && id in s.funds.incentives
    requires Low64(reward) <= s.funds.incentives[id].remaining
    ensures var r := Settle(s, m, id, reward, paysOut);
      r.Err? ==> r.error == if paysOut then Overflow else PaymentFailed
  {
    BookingOverflows(s.reg, s.funds.totalTokens,
                     Payments(s.reg, TransferHistory(s.store, m), s.store.materials[m].submitter, reward,
                              s.funds.config));
  }

  lemma DistributionRefusalsAre(s: State, m: nat, id: nat, a: Address, multiplier: nat, tokenSet: bool, paysOut: bool)
    requires IdsInv(s.store)
    ensures var r := DistributeRewards(s, m, id, a, multiplier, tokenSet, paysOut);
      r.Err? ==> Blames(s, Distribute(m, id, a, multiplier, tokenSet, paysOut), r.error)
  {
    var checked := CheckDistribution(s, m, id, a, multiplier, tokenSet);
    if checked.Err? {
      ChecksBlame(s, m, id, a, multiplier, tokenSet);
    } else {
      SettlingFailsWith(s, m, id, checked.value, paysOut);
    }
  }
}
