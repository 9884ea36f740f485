/** Version 1 materials and the tokens paid for them. */
module Rewards {
  import opened Prelude
  import opened Model
  import opened Custody

  const REP_VERIFY: int := 10

  /** `as u64`. */
  function Low64(n: nat): nat { n % (U64_MAX + 1) }

  /** `update_participant_stats`: waste and tokens for one participant, the tokens also for the global counter. */
  function Earn(reg: Registry, total: nat, a: Address, waste: nat, tokens: nat): Answer<(Registry, nat)> {
    if a !in reg.participants then Ok((reg, total))
    else
      var p := reg.participants[a];
      :- Need(p.processed + waste <= U128_MAX, Overflow);
      :- Need(p.tokens + tokens <= U128_MAX, Overflow);
      :- Need(total + tokens <= U128_MAX, Overflow);
      var processed := p.processed + waste;
      var p' := p.(processed := processed, tokens := p.tokens + tokens,
                   certification := CertificationFor(processed), tier := TierFor(processed));
      Ok((reg.(participants := reg.participants[a := p']), total + tokens))
  }

  function Adjusted(p: Participant, share: nat): nat {
    share * p.certification.Multiplier() * p.tier.Multiplier() / 10000
  }

  predicate IsCollector(reg: Registry, a: Address) {
    a in reg.participants && reg.participants[a].role == Collector
  }

  /** The collectors along a history, each paid an adjusted share; the third part is what was paid out. */
  function PayCollectors(reg: Registry, total: nat, h: seq<Transfer>, share: nat): Answer<(Registry, nat, nat)> {
    if h == [] then Ok((reg, total, 0))
    else
      var last := |h| - 1;
      var done :- PayCollectors(reg, total, h[..last], share);
      var a := h[last].to;
      if IsCollector(done.0, a) then
        var adjusted := Adjusted(done.0.participants[a], share);
        :- Need(done.2 + adjusted <= U128_MAX, Overflow);
        var paid :- Earn(done.0, done.1, a, 0, Low64(adjusted));
        Ok((paid.0, paid.1, done.2 + adjusted))
      else Ok(done)
  }

  /** The submitter's owner share and remainder, adjusted and paid in one write. */
  function PaySubmitter(reg: Registry, total: nat, a: Address, amount: nat): Answer<(Registry, nat)> {
    if amount == 0 || a !in reg.participants then Ok((reg, total))
    else
      var p := reg.participants[a];
      var adjusted := Adjusted(p, amount);
      :- Need(p.tokens + adjusted <= U128_MAX, Overflow);
      :- Need(total + adjusted <= U128_MAX, Overflow);
      Ok((reg.(participants := reg.participants[a := p.(tokens := p.tokens + adjusted)]), total + adjusted))
  }

  function Share(reward: nat, percent: nat): nat { reward * percent / 100 }

  /** Neither product of a reward and a percentage leaves the integer range. */
  predicate Divisible(reward: nat, cfg: RewardConfig, limit: nat) {
    reward * cfg.collector <= limit && reward * cfg.owner <= limit
  }

  /** `_reward_tokens` along a material's history. */
  function RewardTokens(reg: Registry, total: nat, cfg: RewardConfig, h: seq<Transfer>, submitter: Address, reward: nat)
    : Answer<(Registry, nat)>
  {
    if reward == 0 then Ok((reg, total))
    else
      :- Need(Divisible(reward, cfg, U128_MAX), Overflow);
      var ownerShare := Share(reward, cfg.owner);
      var paid :- PayCollectors(reg, total, h, Share(reward, cfg.collector));
      :- Need(paid.2 + ownerShare <= U128_MAX, Overflow);
      var rest := if reward > paid.2 + ownerShare then reward - (paid.2 + ownerShare) else 0;
      PaySubmitter(paid.0, paid.1, submitter, ownerShare + rest)
  }

  // ---------- entry points ----------

  function Points(m: Material): Answer<nat> {
    var points := m.weight / 1000 * m.wasteType.PointRate() * 10;
    :- Need(points <= U64_MAX, Overflow);
    Ok(points)
  }

  function Credits(m: Material): nat { m.weight * m.wasteType.CarbonRate() / 1000 }

  /** The contamination discount looks for a version 2 waste with the material's id. */
  function Discounted(st: Store, id: nat, points: nat): nat {
    if id in st.wastes && st.wastes[id].contaminated then
      if st.wastes[id].contamination > 50 then 0 else points * (100 - st.wastes[id].contamination) / 100
    else points
  }

  function SubmitMaterial(s: State, minWeight: nat, wasteType: WasteType, weight: nat,
                          submitter: Address): Answer<(State, nat)> {
    if !Registered(s.reg, submitter) then Err(NotRegistered)
    else
      :- Need(0 < weight <= MAX_WASTE_WEIGHT && minWeight <= weight, InvalidWeight);
      :- Need(s.store.count < U64_MAX, Overflow);
      var id: nat := s.store.count + 1;
      var paid :- Earn(s.reg, s.funds.totalTokens, submitter, weight, 0);
      Ok((s.(reg := paid.0,
             store := s.store.(count := id,
                               materials := s.store.materials[id := Material(wasteType, weight, submitter, false)]),
             stats := Touch(s.stats, submitter)),
          id))
  }

  /** The deprecated version 1 transfer. */
  function TransferMaterial(reg: Registry, st: Store, now: nat, id: nat, from: Address, to: Address): Answer<Store> {
    if !(Registered(reg, from) && Registered(reg, to)) then Err(NotRegistered)
    else
      var m :- Find(st.materials, id, MaterialNotFound);
      :- Need(m.submitter == from, NotWasteOwner);
      :- Need(from != to, SelfTransfer);
      :- Need(ValidRoute(reg, from, to), InvalidTransferRoute);
      var t := Transfer(id, from, to, now, 0, 0, VersionOne);
      Ok(st.(materials := st.materials[id := m.(submitter := to)],
             transfers := st.transfers[id := Lookup(st.transfers, id, []) + [t]]))
  }

  function CheckVerifier(reg: Registry, verifier: Address): Answer<()> {
    if !Registered(reg, verifier) then Err(NotRegistered)
    else
      :- Need(reg.participants[verifier].role == Recycler, Unauthorized);
      Ok(())
  }

  /** What both verification entry points do to one stored material: mark it, mint its carbon, pay its tokens. */
  function VerifyOne(s: State, id: nat, tokens: nat): Answer<State>
    requires id in s.store.materials
  {
    var m := s.store.materials[id].(verified := true);
    var had := Lookup(s.stats, m.submitter, NO_STATS);
    :- Need(had.carbon + Credits(m) <= U128_MAX, Overflow);
    :- Need(s.market.totalCarbon + Credits(m) <= U128_MAX, Overflow);
    var h := TransferHistory(s.store, id);
    var paid :- RewardTokens(s.reg, s.funds.totalTokens, s.funds.config, h, m.submitter, tokens);
    Ok(s.(reg := paid.0, store := s.store.(materials := s.store.materials[id := m]),
          stats := s.stats[m.submitter := had.(carbon := had.carbon + Credits(m))],
          market := s.market.(totalCarbon := s.market.totalCarbon + Credits(m)),
          funds := s.funds.(totalTokens := paid.1)))
  }

  /** The tokens a single verification pays. */
  function VerificationTokens(s: State, id: nat, verifier: Address): (r: Answer<nat>)
    ensures r.Ok? ==> id in s.store.materials
  {
    var _ :- CheckVerifier(s.reg, verifier);
    var m :- Find(s.store.materials, id, MaterialNotFound);
    var points :- Points(m);
    Ok(Discounted(s.store, id, points))
  }

  function VerifyMaterial(s: State, now: nat, id: nat, verifier: Address): Answer<State> {
    var tokens :- VerificationTokens(s, id, verifier);
    var done :- VerifyOne(s, id, tokens);
    var submitter := s.store.materials[id].submitter;
    Ok(done.(reg := Reward(Reward(done.reg, submitter, REP_VERIFY, now), verifier, REP_VERIFY, now)))
  }

  /** Missing ids are skipped; neither contamination nor reputation plays a part. */
  function VerifyAll(s: State, ids: seq<nat>): Answer<State> {
    if ids == [] then Ok(s)
    else
      var last := |ids| - 1;
      var done :- VerifyAll(s, ids[..last]);
      if ids[last] in done.store.materials then
        var points :- Points(done.store.materials[ids[last]]);
        VerifyOne(done, ids[last], points)
      else Ok(done)
  }

  function VerifyMaterials(s: State, ids: seq<nat>, verifier: Address): Answer<State> {
    var _ :- CheckVerifier(s.reg, verifier);
    VerifyAll(s, ids)
  }

  function RewardRecipient(reg: Registry, total: nat, tokenSet: bool, a: Address,
                           amount: int): Answer<(Registry, nat)> {
    if amount <= 0 then Err(InvalidAmount)
    else
      :- Need(Registered(reg, a), NotRegistered);
      :- Need(tokenSet, TokenAddressNotSet);
      var p := reg.participants[a];
      :- Need(p.tokens + amount <= U128_MAX && total + amount <= U128_MAX, Overflow);
      Ok((reg.(participants := reg.participants[a := p.(tokens := p.tokens + amount)]), total + amount))
  }

  function Donate(reg: Registry, charitySet: bool, a: Address, amount: int): Answer<Registry> {
    if amount <= 0 then Err(InvalidAmount)
    else
      :- Need(Registered(reg, a), NotRegistered);
      var p := reg.participants[a];
      :- Need(amount <= p.tokens, InsufficientBalance);
      :- Need(charitySet, CharityNotSet);
      Ok(reg.(participants := reg.participants[a := p.(tokens := p.tokens - amount)]))
  }

  datatype MaterialOp =
    | Submit(minWeight: nat, wasteType: WasteType, weight: nat, submitter: Address)
    | HandOn(id: nat, from: Address, to: Address)
    | Verify(id: nat, verifier: Address)
    | VerifyMany(ids: seq<nat>, verifier: Address)
    | Grant(tokenSet: bool, a: Address, amount: int)
    | Give(charitySet: bool, a: Address, amount: int)

  function MaterialStep(s: State, now: nat, op: MaterialOp): State {
    match op
    case Submit(minWeight, wt, w, a) =>
      (match SubmitMaterial(s, minWeight, wt, w, a) case Ok(r) => r.0 case Err(_) => s)
    case HandOn(id, from, to) =>
      (match TransferMaterial(s.reg, s.store, now, id, from, to) case Ok(st) => s.(store := st) case Err(_) => s)
    case Verify(id, verifier) => (match VerifyMaterial(s, now, id, verifier) case Ok(s') => s' case Err(_) => s)
    case VerifyMany(ids, verifier) => (match VerifyMaterials(s, ids, verifier) case Ok(s') => s' case Err(_) => s)
    case Grant(tokenSet, a, amount) =>
      (match RewardRecipient(s.reg, s.funds.totalTokens, tokenSet, a, amount)
       case Ok(r) => s.(reg := r.0, funds := s.funds.(totalTokens := r.1)) case Err(_) => s)
    case Give(charitySet, a, amount) =>
      (match Donate(s.reg, charitySet, a, amount) case Ok(reg) => s.(reg := reg) case Err(_) => s)
  }
}
