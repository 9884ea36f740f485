/** Incentive programmes: their budgets, claims, and distribution along a transfer history. */
module Incentives {
  import opened Prelude
  import opened Model
  import opened Rewards

  function CreateIncentive(reg: Registry, funds: Funds, rewarder: Address, wasteType: WasteType, points: nat,
                           total: nat)
    : Answer<(Funds, nat)>
  {
    if !Registered(reg, rewarder) then Err(NotRegistered)
    else
      :- Need(reg.participants[rewarder].role.CanManufacture(), NotManufacturer);
      :- Need(funds.incentiveCount < U64_MAX, Overflow);
      var id: nat := funds.incentiveCount + 1;
      Ok((funds.(incentiveCount := id,
                 incentives := funds.incentives[id := Incentive(rewarder, wasteType, points, total, total, true)]),
          id))
  }

  function SetStatus(reg: Registry, funds: Funds, id: nat, active: bool): Answer<Funds> {
    var i :- Find(funds.incentives, id, IncentiveNotFound);
    :- Need(Registered(reg, i.rewarder), NotRegistered);
    Ok(funds.(incentives := funds.incentives[id := i.(active := active)]))
  }

  /** What is spent is read off as total minus remaining; a total at or below it empties and closes the programme. */
  function Rebudget(i: Incentive, points: nat, total: nat): Incentive
    requires i.remaining <= i.total
  {
    var used := i.total - i.remaining;
    if total > used then i.(points := points, total := total, remaining := total - used)
    else i.(points := points, total := total, remaining := 0, active := false)
  }

  function UpdateIncentive(reg: Registry, funds: Funds, id: nat, points: nat, total: nat): Answer<Funds> {
    var i :- Find(funds.incentives, id, IncentiveNotFound);
    :- Need(Registered(reg, i.rewarder), NotRegistered);
    :- Need(i.active, IncentiveInactive);
    :- Need(points > 0, InvalidAmount);
    :- Need(total > 0, InvalidAmount);
    :- Need(i.remaining <= i.total, Overflow);
    Ok(funds.(incentives := funds.incentives[id := Rebudget(i, points, total)]))
  }

  function DeactivateIncentive(reg: Registry, funds: Funds, id: nat, rewarder: Address): Answer<Funds> {
    if !Registered(reg, rewarder) then Err(NotRegistered)
    else
      var i :- Find(funds.incentives, id, IncentiveNotFound);
      :- Need(i.rewarder == rewarder, NotCreator);
      Ok(funds.(incentives := funds.incentives[id := i.(active := false)]))
  }

  /** Take `amount` from the budget; an empty budget closes the programme. */
  function Debit(i: Incentive, amount: nat): Incentive
    requires amount <= i.remaining
  {
    i.(remaining := i.remaining - amount, active := i.active && i.remaining != amount)
  }

  function ClaimReward(s: State, id: nat, material: nat, claimer: Address): Answer<(State, nat)> {
    if !Registered(s.reg, claimer) then Err(NotRegistered)
    else
      var i :- Find(s.funds.incentives, id, IncentiveNotFound);
      :- Need(i.active, IncentiveInactive);
      var m :- Find(s.store.materials, material, MaterialNotFound);
      :- Need(m.verified, MaterialNotVerified);
      :- Need(m.wasteType == i.wasteType, WasteTypeMismatch);
      var reward := m.weight / 1000 * i.points;
      :- Need(reward <= U64_MAX, Overflow);
      :- Need(reward > 0, NoRewardAvailable);
      :- Need(reward <= i.remaining, InsufficientBudget);
      var paid :- Earn(s.reg, s.funds.totalTokens, claimer, 0, reward);
      Ok((s.(reg := paid.0,
             funds := s.funds.(totalTokens := paid.1, incentives := s.funds.incentives[id := Debit(i, reward)])),
          reward))
  }

  // ---------- distribution ----------

  datatype Payment = Payment(to: Address, amount: nat)

  predicate IsRecipient(reg: Registry, a: Address) {
    a in reg.participants && reg.participants[a].role.CanCollect()
  }

  function CollectorPayments(reg: Registry, h: seq<Transfer>, share: nat): seq<Payment> {
    if h == [] then []
    else
      var last := |h| - 1;
      CollectorPayments(reg, h[..last], share)
      + if IsRecipient(reg, h[last].to) then [Payment(h[last].to, share)] else []
  }

  function Payout(pays: seq<Payment>): nat {
    if pays == [] then 0 else Payout(pays[..|pays| - 1]) + pays[|pays| - 1].amount
  }

  /** Every token transfer of one distribution, in order. */
  function Payments(reg: Registry, h: seq<Transfer>, submitter: Address, reward: nat, cfg: RewardConfig): seq<Payment> {
    var collectors := CollectorPayments(reg, h, Share(reward, cfg.collector));
    var shared := collectors + [Payment(submitter, Share(reward, cfg.owner))];
    if reward > Payout(shared) then shared + [Payment(submitter, reward - Payout(shared))] else shared
  }

  /** Statistics take each amount as a u64. */
  function EarnAll(reg: Registry, total: nat, pays: seq<Payment>): Answer<(Registry, nat)> {
    if pays == [] then Ok((reg, total))
    else
      var last := |pays| - 1;
      var done :- EarnAll(reg, total, pays[..last]);
      Earn(done.0, done.1, pays[last].to, 0, Low64(pays[last].amount))
  }

  /** Points per whole kilogram times the season's multiplier, in percent. */
  function BaseReward(weight: nat, points: nat, multiplier: nat): nat { points * (weight / 1000) * multiplier }

  /** The reward before it is shared out: the base reward less the contamination discount. */
  function TotalReward(st: Store, material: nat, weight: nat, points: nat, multiplier: nat): nat {
    Discounted(st, material, BaseReward(weight, points, multiplier) / 100)
  }

  /** The checks before any payment; on success the reward to share out. */
  function CheckDistribution(s: State, material: nat, id: nat, manufacturer: Address, multiplier: nat, tokenSet: bool)
    : Answer<nat>
  {
    var m :- Find(s.store.materials, material, MaterialNotFound);
    :- Need(m.verified, MaterialNotVerified);
    var i :- Find(s.funds.incentives, id, IncentiveNotFound);
    :- Need(i.rewarder == manufacturer, NotCreator);
    :- Need(i.wasteType == m.wasteType, WasteTypeMismatch);
    :- Need(i.active, IncentiveInactive);
    :- Need(BaseReward(m.weight, i.points, multiplier) <= I128_MAX, Overflow);
    var reward := TotalReward(s.store, material, m.weight, i.points, multiplier);
    :- Need(Low64(reward) <= i.remaining, InsufficientBudget);
    :- Need(tokenSet, TokenAddressNotSet);
    :- Need(Divisible(reward, s.funds.config, I128_MAX), Overflow);
    Ok(reward)
  }

  /** Pay `reward` out and charge it. */
  function Settle(s: State, material: nat, id: nat, reward: nat, paysOut: bool): Answer<(State, seq<Payment>)>
    requires material in s.store.materials && id in s.funds.incentives
    requires Low64(reward) <= s.funds.incentives[id].remaining
  {
    var pays := Payments(s.reg, TransferHistory(s.store, material), s.store.materials[material].submitter, reward,
                         s.funds.config);
    :- Need(paysOut, PaymentFailed);
    :- Need(Payout(pays) <= I128_MAX, Overflow);
    var paid :- EarnAll(s.reg, s.funds.totalTokens, pays);
    :- Need(paid.1 + reward <= U128_MAX, Overflow);
    Ok((s.(reg := paid.0,
           funds := s.funds.(totalTokens := paid.1 + reward,
                             incentives := s.funds.incentives[id := Debit(s.funds.incentives[id], Low64(reward))])),
        pays))
  }

  function DistributeRewards(s: State, material: nat, id: nat, manufacturer: Address,
                             multiplier: nat, tokenSet: bool, paysOut: bool)
    : Answer<(State, seq<Payment>)>
  {
    var reward :- CheckDistribution(s, material, id, manufacturer, multiplier, tokenSet);
    Settle(s, material, id, reward, paysOut)
  }

  datatype IncentiveOp =
    | Create(rewarder: Address, wasteType: WasteType, points: nat, total: nat)
    | Switch(id: nat, active: bool)
    | Update(id: nat, points: nat, total: nat)
    | Close(id: nat, rewarder: Address)
    | Claim(id: nat, material: nat, claimer: Address)
    | Distribute(material: nat, id: nat, manufacturer: Address, multiplier: nat, tokenSet: bool, paysOut: bool)

  function IncentiveStep(s: State, op: IncentiveOp): State {
    match op
    case Create(a, wt, points, total) =>
      (match CreateIncentive(s.reg, s.funds, a, wt, points, total) case Ok(r) => s.(funds := r.0) case Err(_) => s)
    case Switch(id, active) =>
      (match SetStatus(s.reg, s.funds, id, active) case Ok(f) => s.(funds := f) case Err(_) => s)
    case Update(id, points, total) =>
      (match UpdateIncentive(s.reg, s.funds, id, points, total) case Ok(f) => s.(funds := f) case Err(_) => s)
    case Close(id, a) =>
      (match DeactivateIncentive(s.reg, s.funds, id, a) case Ok(f) => s.(funds := f) case Err(_) => s)
    case Claim(id, m, a) => (match ClaimReward(s, id, m, a) case Ok(r) => r.0 case Err(_) => s)
    case Distribute(m, id, a, multiplier, tokenSet, paysOut) =>
      (match DistributeRewards(s, m, id, a, multiplier, tokenSet, paysOut) case Ok(r) => r.0 case Err(_) => s)
  }
}
