/** Every account over whole runs: whose carbon and whose tokens, call by call. */
module LedgerRuns {
  import opened Model
  import opened Custody
  import opened CustodyIndex
  import opened Rewards
  import opened Incentives
  import opened Materials
  import opened Runs
  import opened Reachable
  import ME = MaterialEffects
  import IE = IncentiveEffects
  import KE = MarketEffects
  import QE = QualityEffects
  import PE = PeopleEffects
  import opened RewardEffects

  // ---------- a call on wastes, beside the waste store ----------

  /** A transfer that goes through thanks both parties; nothing else on wastes touches a record. */
  ghost predicate PartiesThanked(reg: Registry, reg': Registry, from: Address, to: Address, now: nat) {
    && reg'.index == reg.index && reg'.participants.Keys == reg.participants.Keys
    && forall a :: a in reg.participants ==>
      reg'.participants[a] == ME.Thanks(reg.participants[a], ME.Both(from, to, a), 5, now)
  }

  /** Registering a waste opens its recycler's account with nothing on it. */
  ghost predicate AccountsKept(stats: map<Address, Stats>, stats': map<Address, Stats>, who: set<Address>) {
    forall a ::
      && KE.CarbonAt(stats', a) == KE.CarbonAt(stats, a) && KE.RecycledAt(stats', a) == KE.RecycledAt(stats, a)
      && (a in stats' <==> a in stats || a in who)
  }

  /** What a call on wastes leaves beside the store. */
  lemma WasteCallIs(s: State, now: nat, op: WasteOp)
    ensures var s' := WasteCall(s, now, op);
      && s' == s.(store := WasteStep(s.reg, s.gov.admins, s.store, now, op), reg := s'.reg, stats := s'.stats)
      && (if op.Transfer1? && TransferWaste(s.reg, s.store, now, op.id, op.from, op.to, op.lat, op.lon).Ok? then
            PartiesThanked(s.reg, s'.reg, op.from, op.to, now)
          else s'.reg == s.reg)
      && (if op.Recycle? && RecycleWaste(s.reg, s.store, op.minWeight, op.ttl, now, op.wasteType, op.weight,
                                         op.recycler, op.lat, op.lon).Ok? then
            AccountsKept(s.stats, s'.stats, {op.recycler})
          else s'.stats == s.stats)
  {
    if op.Transfer1? { ME.TwiceIs(s.reg, op.from, op.to, 5, now); }
  }

  // ---------- carbon ----------

  function CarbonOf(s: State, a: Address): nat { KE.CarbonAt(s.stats, a) }

  function MintedByBatch(materials: map<nat, Material>, ids: seq<nat>, a: Address): nat {
    if ids == [] then 0
    else
      var id := ids[|ids| - 1];
      MintedByBatch(materials, ids[..|ids| - 1], a)
      + if id in materials && materials[id].submitter == a then ME.CreditsFor(materials[id]) else 0
  }

  /** Credits for the verified materials of `a`. */
  ghost function Minted(a: Address): (State, Call) -> nat {
    (s: State, c: Call) =>
      match c.op
      case OnMaterial(op) => if ME.Admits(s, op) then MintedFor(s.store.materials, op, a) else 0
      case _ => 0
  }

  function MintedFor(materials: map<nat, Material>, op: MaterialOp, a: Address): nat {
    match op
    case Verify(id, _) => MintedByBatch(materials, [id], a)
    case VerifyMany(ids, _) => MintedByBatch(materials, ids, a)
    case _ => 0
  }

  /** Credits bought, or taken back from a listing of one's own. */
  ghost function Received(a: Address): (State, Call) -> nat {
    (s: State, c: Call) =>
      match c.op
      case OnCarbon(op) => if KE.Admits(s.stats, s.market, op) then KE.Gained(s.market, op, a) else 0
      case _ => 0
  }

  /** Credits put up for sale or redeemed. */
  ghost function Parted(a: Address): (State, Call) -> nat {
    (s: State, c: Call) =>
      match c.op
      case OnCarbon(op) => if KE.Admits(s.stats, s.market, op) then KE.GivenUp(op, a) else 0
      case _ => 0
  }

  lemma {:induction false} SameMaterialsMint(m: map<nat, Material>, m': map<nat, Material>, ids: seq<nat>, a: Address)
    requires m.Keys == m'.Keys && forall id :: id in m ==> m'[id] == m[id].(verified := m'[id].verified)
    ensures MintedByBatch(m', ids, a) == MintedByBatch(m, ids, a)
  {
    if ids != [] { SameMaterialsMint(m, m', ids[..|ids| - 1], a); }
  }

  lemma {:induction false} VerifyAllCarbon(s: State, ids: seq<nat>, a: Address)
    requires IdsInv(s.store) && VerifyAll(s, ids).Ok?
    ensures CarbonOf(VerifyAll(s, ids).value, a) == CarbonOf(s, a) + MintedByBatch(s.store.materials, ids, a)
  {
    if ids != [] {
      var init, id := ids[..|ids| - 1], ids[|ids| - 1];
      VerifyAllCarbon(s, init, a);
      VerifyAllMarks(s, init);
      var done := VerifyAll(s, init).value;
      if id in done.store.materials {
        ME.PointsAre(done.store.materials[id]);
        ME.VerifyOneIs(done, id, ME.TokensFor(done.store.materials[id]));
      }
    }
  }

  lemma MintedByOne(materials: map<nat, Material>, id: nat, a: Address)
    requires id in materials
    ensures MintedByBatch(materials, [id], a)
            == if materials[id].submitter == a then ME.CreditsFor(materials[id]) else 0
  {
    assert [id][..0] == [] && MintedByBatch(materials, [], a) == 0;
  }

  lemma VerifyCarbon(s: State, now: nat, id: nat, verifier: Address, a: Address)
    requires IdsInv(s.store) && ME.Admits(s, Verify(id, verifier))
    ensures CarbonOf(MaterialStep(s, now, Verify(id, verifier)), a)
            == CarbonOf(s, a) + MintedByBatch(s.store.materials, [id], a)
  {
    ME.VerifyIs(s, now, id, verifier);
    var s', m := MaterialStep(s, now, Verify(id, verifier)), s.store.materials[id];
    var reg :| && ME.Verified(s, s'.(reg := reg), id, ME.TokensFor(m))
               && ME.Thanked(reg, s'.reg, m.submitter, verifier, now);
    assert ME.OnlyCarbon(s.stats, s'.stats, m.submitter, ME.CreditsFor(m));
    MintedByOne(s.store.materials, id, a);
  }

  lemma MaterialCarbon(s: State, now: nat, op: MaterialOp, a: Address)
    requires IdsInv(s.store)
    ensures CarbonOf(MaterialStep(s, now, op), a)
            == CarbonOf(s, a) + if ME.Admits(s, op) then MintedFor(s.store.materials, op, a) else 0
  {
    ME.StepIs(s, now, op);
    if ME.Admits(s, op) {
      match op
      case Verify(id, verifier) => VerifyCarbon(s, now, id, verifier, a);
      case VerifyMany(ids, verifier) => VerifyAllCarbon(s, ids, a);
      case _ =>
    }
  }

  lemma OthersCarbon(s: State, c: Call, a: Address)
    requires !c.op.OnMaterial? && !c.op.OnCarbon?
    ensures CarbonOf(Step(s, c), a) == CarbonOf(s, a)
  {
    match c.op
    case OnWaste(op) => WasteCallIs(s, c.now, op);
    case OnIncentive(op) => IncentiveFrame(s, op);
    case OnAdmin(op) => AdminFrame(s, c.now, op);
    case OnQuality(op) => QE.StepIs(s, c.now, op);
    case _ =>
  }

  lemma StepCarbon(s: State, c: Call, a: Address)
    requires IdsInv(s.store)
    ensures CarbonOf(Step(s, c), a) + Parted(a)(s, c) == CarbonOf(s, a) + Minted(a)(s, c) + Received(a)(s, c)
  {
    match c.op
    case OnMaterial(op) => MaterialCarbon(s, c.now, op, a);
    case OnCarbon(op) => KE.StepIs(s.stats, s.market, op);
    case _ => OthersCarbon(s, c, a);
  }

  /** Along every run each account holds what was minted for its owner's materials and what its owner bought or took
      back, less what its owner put up for sale or redeemed. */
  lemma {:induction false} CarbonAccountAddsUp(admin: Address, calls: seq<Call>, a: Address)
    ensures var s0 := Genesis(admin);
      CarbonOf(Run(s0, calls), a) + Flow(s0, calls, Parted(a))
      == Flow(s0, calls, Minted(a)) + Flow(s0, calls, Received(a))
  {
    if calls != [] {
      CarbonAccountAddsUp(admin, calls[..|calls| - 1], a);
      RunIsSound(admin, calls[..|calls| - 1]);
      StepCarbon(Run(Genesis(admin), calls[..|calls| - 1]), calls[|calls| - 1], a);
    }
  }

  // ---------- tokens ----------

  function TokensOf(reg: Registry, a: Address): nat {
    if a in reg.participants then reg.participants[a].tokens else 0
  }

  /** What one verification brings to `a`. */
  function VerificationGain(s: State, id: nat, a: Address): nat {
    if id in s.store.materials && a in s.reg.participants then
      RewardGain(s.reg, s.funds.config, ME.Chain(s.store, id), s.store.materials[id].submitter,
                 ME.TokensFor(s.store.materials[id]), a)
    else 0
  }

  /** What the verifications of a batch bring to `a`, each in the state the ones before have left. */
  function BatchGain(s: State, ids: seq<nat>, a: Address): nat
    requires VerifyAll(s, ids).Ok?
  {
    if ids == [] then 0
    else
      BatchGain(s, ids[..|ids| - 1], a)
      + VerificationGain(VerifyAll(s, ids[..|ids| - 1]).value, ids[|ids| - 1], a)
  }

  ghost function EarnedOnMaterials(s: State, op: MaterialOp, a: Address): nat {
    if !ME.Admits(s, op) then 0
    else
      match op
      case Verify(id, _) => VerificationGain(s, id, a)
      case VerifyMany(ids, _) => BatchGain(s, ids, a)
      case Grant(_, b, amount) => if a == b then amount else 0
      case _ => 0
  }

  ghost function EarnedOnIncentives(s: State, op: IncentiveOp, a: Address): nat {
    if !IE.Admits(s, op) || a !in s.reg.participants then 0
    else
      match op
      case Claim(id, m, b) => if a == b then IE.ClaimOf(s.store.materials[m], s.funds.incentives[id]) else 0
      case Distribute(m, id, _, multiplier, _, _) =>
        BookedTo(IE.Due(s, m, IE.RewardOf(s.store.materials[m], s.funds.incentives[id], multiplier)), a)
      case _ => 0
  }

  /** Verifications, grants, claims and distributions. */
  ghost function Earned(a: Address): (State, Call) -> nat {
    (s: State, c: Call) =>
      match c.op
      case OnMaterial(op) => EarnedOnMaterials(s, op, a)
      case OnIncentive(op) => EarnedOnIncentives(s, op, a)
      case _ => 0
  }

  ghost function GivenBy(s: State, op: MaterialOp, a: Address): nat {
    if op.Give? && op.a == a && ME.Admits(s, op) then op.amount else 0
  }

  /** Donations, and what a new registration wipes out. */
  ghost function Lost(a: Address): (State, Call) -> nat {
    (s: State, c: Call) =>
      match c.op
      case OnMaterial(op) => GivenBy(s, op, a)
      case OnPeople(op) => if op.Join? && op.a == a && PE.Admits(s.gov.admins, s.reg, op) then TokensOf(s.reg, a) else 0
      case _ => 0
  }

  lemma PeopleTokensOf(s: State, c: Call, a: Address)
    requires c.op.OnPeople?
    ensures TokensOf(Step(s, c).reg, a) + Lost(a)(s, c) == TokensOf(s.reg, a)
  {
    PE.StepIs(s.gov.admins, s.reg, c.now, c.op.people);
  }

  lemma ThanksKeepTokens(p: Participant, times: nat, delta: int, now: nat)
    ensures ME.Thanks(p, times, delta, now).tokens == p.tokens
  {}

  lemma PartiesKeepTokens(reg: Registry, reg': Registry, from: Address, to: Address, now: nat, a: Address)
    requires PartiesThanked(reg, reg', from, to, now)
    ensures TokensOf(reg', a) == TokensOf(reg, a)
  {
    if a in reg.participants { ThanksKeepTokens(reg.participants[a], ME.Both(from, to, a), 5, now); }
  }

  lemma WasteTokensOf(s: State, now: nat, op: WasteOp, a: Address)
    ensures TokensOf(WasteCall(s, now, op).reg, a) == TokensOf(s.reg, a)
  {
    WasteCallIs(s, now, op);
    if op.Transfer1? && WasteCall(s, now, op).reg != s.reg {
      PartiesKeepTokens(s.reg, WasteCall(s, now, op).reg, op.from, op.to, now, a);
    }
  }

  lemma VerifiedTokens(s: State, s': State, id: nat, a: Address)
    requires id in s.store.materials && ME.Verified(s, s', id, ME.TokensFor(s.store.materials[id]))
    ensures TokensOf(s'.reg, a) == TokensOf(s.reg, a) + VerificationGain(s, id, a)
  {
    if a in s.reg.participants {
      var h, tokens := ME.Chain(s.store, id), ME.TokensFor(s.store.materials[id]);
      assert Booked(s.reg.participants[a], s'.reg.participants[a], Bookings(s.reg, h, tokens, a),
                    RewardGain(s.reg, s.funds.config, h, s.store.materials[id].submitter, tokens, a));
    }
  }

  lemma VerifyTokensOf(s: State, now: nat, id: nat, verifier: Address, a: Address)
    requires IdsInv(s.store) && ME.Admits(s, Verify(id, verifier))
    ensures TokensOf(MaterialStep(s, now, Verify(id, verifier)).reg, a)
            == TokensOf(s.reg, a) + VerificationGain(s, id, a)
  {
    ME.VerifyIs(s, now, id, verifier);
    var s', m := MaterialStep(s, now, Verify(id, verifier)), s.store.materials[id];
    var reg :| && ME.Verified(s, s'.(reg := reg), id, ME.TokensFor(m))
               && ME.Thanked(reg, s'.reg, m.submitter, verifier, now);
    VerifiedTokens(s, s'.(reg := reg), id, a);
    if a in reg.participants { ThanksKeepTokens(reg.participants[a], ME.Both(m.submitter, verifier, a), 10, now); }
  }

  lemma {:induction false} VerifyAllTokensOf(s: State, ids: seq<nat>, a: Address)
    requires IdsInv(s.store) && VerifyAll(s, ids).Ok?
    ensures TokensOf(VerifyAll(s, ids).value.reg, a) == TokensOf(s.reg, a) + BatchGain(s, ids, a)
  {
    if ids != [] {
      var init, id := ids[..|ids| - 1], ids[|ids| - 1];
      VerifyAllTokensOf(s, init, a);
      VerifyAllMarks(s, init);
      var done := VerifyAll(s, init).value;
      if id in done.store.materials {
        ME.PointsAre(done.store.materials[id]);
        ME.VerifyOneIs(done, id, ME.TokensFor(done.store.materials[id]));
        VerifiedTokens(done, VerifyAll(s, ids).value, id, a);
      }
    }
  }

  lemma MaterialTokensOf(s: State, now: nat, op: MaterialOp, a: Address)
    requires IdsInv(s.store)
    ensures TokensOf(MaterialStep(s, now, op).reg, a) + GivenBy(s, op, a)
            == TokensOf(s.reg, a) + EarnedOnMaterials(s, op, a)
  {
    if !ME.Admits(s, op) {
      ME.StepIs(s, now, op);
    } else {
      match op
      case Verify(id, verifier) => VerifyTokensOf(s, now, id, verifier, a);
      case VerifyMany(ids, verifier) => VerifyAllTokensOf(s, ids, a);
      case _ => ME.StepIs(s, now, op);
    }
  }

  lemma IncentiveTokensOf(s: State, op: IncentiveOp, a: Address)
    requires IdsInv(s.store)
    ensures TokensOf(IncentiveStep(s, op).reg, a) == TokensOf(s.reg, a) + EarnedOnIncentives(s, op, a)
  {
    IE.StepIs(s, op);
    if op.Distribute? && IE.Admits(s, op) && a in s.reg.participants {
      var pays := IE.Due(s, op.material, IE.RewardOf(s.store.materials[op.material], s.funds.incentives[op.id],
                                                     op.multiplier));
      assert Booked(s.reg.participants[a], IncentiveStep(s, op).reg.participants[a], PaymentsTo(pays, a),
                    BookedTo(pays, a));
    }
  }

  lemma StepTokensOf(s: State, c: Call, a: Address)
    requires IdsInv(s.store)
    ensures TokensOf(Step(s, c).reg, a) + Lost(a)(s, c) == TokensOf(s.reg, a) + Earned(a)(s, c)
  {
    match c.op
    case OnPeople(_) => PeopleTokensOf(s, c, a);
    case OnWaste(op) => WasteTokensOf(s, c.now, op, a);
    case OnMaterial(op) => MaterialTokensOf(s, c.now, op, a);
    case OnIncentive(op) => IncentiveTokensOf(s, op, a);
    case OnAdmin(op) => AdminFrame(s, c.now, op);
    case OnQuality(op) => QualityFrame(s, c.now, op);
    case _ =>
  }

  /** Along every run each record shows what verifications, grants, claims and distributions brought its owner, less
      donations and what new registrations wiped out: nobody earns in any other way. */
  lemma {:induction false} EarningsAddUp(admin: Address, calls: seq<Call>, a: Address)
    ensures var s0 := Genesis(admin);
      TokensOf(Run(s0, calls).reg, a) + Flow(s0, calls, Lost(a)) == Flow(s0, calls, Earned(a))
  {
    if calls != [] {
      EarningsAddUp(admin, calls[..|calls| - 1], a);
      RunIsSound(admin, calls[..|calls| - 1]);
      StepTokensOf(Run(Genesis(admin), calls[..|calls| - 1]), calls[|calls| - 1], a);
    }
  }
}
