/** What holds in every state the contract can reach, by any calls in any order. */
module Reachable {
  import opened Prelude
  import opened Model
  import opened Custody
  import opened CustodyIndex
  import opened Rewards
  import opened TokenLedger
  import opened Incentives
  import opened Budgets
  import C = Carbon
  import opened Governance
  import P = Participants
  import Q = Quality
  import opened Provenance
  import opened Upkeep
  import opened Materials
  import opened Runs

  ghost predicate StoreSound(st: Store, contaminated: seq<nat>) {
    && IdsInv(st) && EndsAtOwner(st) && ScoresInv(st.wastes)
    && Q.StagesInv(st.wastes) && Q.ContaminationInv(st.wastes, contaminated)
  }

  ghost predicate PeopleSound(reg: Registry) { P.IndexInv(reg) && P.ReputationInv(reg) }

  ghost predicate MoneySound(market: Market, funds: Funds) {
    C.MarketInv(market) && market.totalCarbon <= U128_MAX && BudgetInv(funds) && Affordable(funds.config)
  }

  ghost predicate Sound(s: State) {
    && StoreSound(s.store, s.contaminated) && PeopleSound(s.reg) && MoneySound(s.market, s.funds)
    && GovInv(s.gov) && Q.GoalsInv(s.goals)
  }

  // ---------- the store ----------

  lemma WasteStoreSound(reg: Registry, admins: seq<Address>, st: Store, contaminated: seq<nat>, now: nat, op: WasteOp)
    requires StoreSound(st, contaminated)
    ensures StoreSound(WasteStep(reg, admins, st, now, op), contaminated)
  {
    var after := WasteStep(reg, admins, st, now, op);
    StepKeepsIds(reg, admins, st, now, op);
    StepKeepsEnds(reg, admins, st, now, op);
    StepFramed(reg, admins, st, now, op);
    FramedKeepsStages(st.wastes, after.wastes);
    FramedKeepsScores(st.wastes, after.wastes);
    FramedKeepsMarks(st.wastes, after.wastes, contaminated);
  }

  lemma MaterialStoreSound(s: State, now: nat, op: MaterialOp)
    requires StoreSound(s.store, s.contaminated)
    ensures StoreSound(MaterialStep(s, now, op).store, MaterialStep(s, now, op).contaminated)
  {
    MaterialKeepsIds(s, now, op);
    StepKeepsWastes(s, now, op);
    MaterialFrame(s, now, op);
  }

  lemma RetireOneSound(st: Store, contaminated: seq<nat>, id: nat)
    requires StoreSound(st, contaminated) && DeactivateWaste(st, id).Ok?
    ensures StoreSound(DeactivateWaste(st, id).value, contaminated)
  {
    var after := DeactivateWaste(st, id).value;
    RetireOneIds(st, id);
    FramedKeepsScores(st.wastes, after.wastes);
    FramedKeepsStages(st.wastes, after.wastes);
    FramedKeepsMarks(st.wastes, after.wastes, contaminated);
  }

  lemma RetireOneIds(st: Store, id: nat)
    requires IdsInv(st) && DeactivateWaste(st, id).Ok?
    ensures EndsAtOwner(st) ==> EndsAtOwner(DeactivateWaste(st, id).value)
    ensures IdsInv(DeactivateWaste(st, id).value) && Framed(st.wastes, DeactivateWaste(st, id).value.wastes)
  {}

  lemma AdminStoreSound(s: State, now: nat, op: AdminOp)
    requires StoreSound(s.store, s.contaminated)
    ensures StoreSound(AdminStep(s, now, op).store, AdminStep(s, now, op).contaminated)
  {
    AdminFrame(s, now, op);
    if AdminStep(s, now, op).store != s.store {
      var id :| DeactivateWaste(s.store, id).Ok? && AdminStep(s, now, op).store == DeactivateWaste(s.store, id).value;
      RetireOneSound(s.store, s.contaminated, id);
    }
  }

  lemma QualityKeepsIds(s: State, now: nat, op: Q.QualityOp)
    requires IdsInv(s.store)
    ensures IdsInv(Q.QualityStep(s, now, op).store)
  {
    if op.Mark? || op.Report? { Q.MarksOnlyMark(s, now, op); }
  }

  lemma QualityKeepsEnds(s: State, now: nat, op: Q.QualityOp)
    requires EndsAtOwner(s.store) && ScoresInv(s.store.wastes)
    ensures EndsAtOwner(Q.QualityStep(s, now, op).store) && ScoresInv(Q.QualityStep(s, now, op).store.wastes)
  {
    if op.Mark? || op.Report? { Q.MarksOnlyMark(s, now, op); }
  }

  lemma QualityStoreSound(s: State, now: nat, op: Q.QualityOp)
    requires StoreSound(s.store, s.contaminated)
    ensures StoreSound(Q.QualityStep(s, now, op).store, Q.QualityStep(s, now, op).contaminated)
  {
    QualityKeepsIds(s, now, op);
    QualityKeepsEnds(s, now, op);
    Q.StepKeepsStages(s, now, op);
    Q.StepKeepsContamination(s, now, op);
  }

  lemma StepStoreSound(s: State, c: Call)
    requires StoreSound(s.store, s.contaminated)
    ensures StoreSound(Step(s, c).store, Step(s, c).contaminated)
  {
    match c.op
    case OnWaste(op) => WasteStoreSound(s.reg, s.gov.admins, s.store, s.contaminated, c.now, op);
    case OnMaterial(op) => MaterialStoreSound(s, c.now, op);
    case OnIncentive(op) => IncentiveFrame(s, op);
    case OnAdmin(op) => AdminStoreSound(s, c.now, op);
    case OnQuality(op) => QualityStoreSound(s, c.now, op);
    case _ =>
  }

  // ---------- participants ----------

  lemma SameFacesSound(reg: Registry, reg': Registry)
    requires SameFaces(reg, reg') && PeopleSound(reg)
    ensures PeopleSound(reg')
  {}

  lemma RewardSound(reg: Registry, a: Address, delta: int, now: nat)
    requires PeopleSound(reg)
    ensures PeopleSound(Reward(reg, a, delta, now))
  {
    P.RewardKeepsIndex(reg, a, delta, now);
    P.RewardKeepsReputation(reg, a, delta, now);
  }

  lemma ThankedSound(reg: Registry, st: Store, now: nat, op: WasteOp)
    requires PeopleSound(reg)
    ensures PeopleSound(Thanked(reg, st, now, op))
  {
    if op.Transfer1? {
      RewardSound(reg, op.from, REP_TRANSFER, now);
      RewardSound(Reward(reg, op.from, REP_TRANSFER, now), op.to, REP_TRANSFER, now);
    }
  }

  lemma VerifySound(s: State, now: nat, id: nat, verifier: Address)
    requires PeopleSound(s.reg) && VerifyMaterial(s, now, id, verifier).Ok?
    ensures PeopleSound(VerifyMaterial(s, now, id, verifier).value.reg)
  {
    var tokens := Discounted(s.store, id, Points(s.store.materials[id]).value);
    var done := VerifyOne(s, id, tokens).value;
    VerifyOneBalances(s, id, tokens);
    SameFacesSound(s.reg, done.reg);
    RewardSound(done.reg, s.store.materials[id].submitter, REP_VERIFY, now);
    RewardSound(Reward(done.reg, s.store.materials[id].submitter, REP_VERIFY, now), verifier, REP_VERIFY, now);
  }

  lemma MaterialPeopleSound(s: State, now: nat, op: MaterialOp)
    requires PeopleSound(s.reg)
    ensures PeopleSound(MaterialStep(s, now, op).reg)
  {
    match op
    case Verify(id, verifier) => if VerifyMaterial(s, now, id, verifier).Ok? { VerifySound(s, now, id, verifier); }
    case VerifyMany(ids, verifier) =>
      if VerifyMaterials(s, ids, verifier).Ok? {
        VerifyAllBalances(s, ids);
        SameFacesSound(s.reg, VerifyAll(s, ids).value.reg);
      }
    case _ => SimpleMaterialSound(s, now, op);
  }

  lemma SimpleMaterialSound(s: State, now: nat, op: MaterialOp)
    requires PeopleSound(s.reg) && !op.Verify? && !op.VerifyMany?
    ensures PeopleSound(MaterialStep(s, now, op).reg)
  {
    match op
    case Submit(minWeight, wt, w, a) =>
      if SubmitMaterial(s, minWeight, wt, w, a).Ok? { SubmitSound(s, minWeight, wt, w, a); }
    case HandOn(_, _, _) =>
    case Grant(_, a, amount) =>
      if a in s.reg.participants { WriteSound(s.reg, a, s.reg.participants[a].tokens + amount); }
    case Give(_, a, amount) =>
      if a in s.reg.participants { WriteSound(s.reg, a, s.reg.participants[a].tokens - amount); }
  }

  lemma SubmitSound(s: State, minWeight: nat, wt: WasteType, w: nat, a: Address)
    requires PeopleSound(s.reg) && SubmitMaterial(s, minWeight, wt, w, a).Ok?
    ensures PeopleSound(SubmitMaterial(s, minWeight, wt, w, a).value.0.reg)
  {
    EarnBalances(s.reg, s.funds.totalTokens, a, w, 0);
    SameFacesSound(s.reg, SubmitMaterial(s, minWeight, wt, w, a).value.0.reg);
  }

  lemma WriteSound(reg: Registry, a: Address, tokens: int)
    requires PeopleSound(reg) && a in reg.participants
    ensures tokens >= 0 ==>
      PeopleSound(reg.(participants := reg.participants[a := reg.participants[a].(tokens := tokens)]))
  {}

  lemma StepPeopleSound(s: State, c: Call)
    requires PeopleSound(s.reg)
    ensures PeopleSound(Step(s, c).reg)
  {
    match c.op
    case OnPeople(op) =>
      P.StepKeepsIndex(s.gov.admins, s.reg, c.now, op);
      P.StepKeepsReputation(s.gov.admins, s.reg, c.now, op);
    case OnWaste(op) => ThankedSound(s.reg, s.store, c.now, op);
    case OnMaterial(op) => MaterialPeopleSound(s, c.now, op);
    case OnIncentive(op) =>
      IncentiveTokens(s, op);
      SameFacesSound(s.reg, IncentiveStep(s, op).reg);
    case OnAdmin(op) => AdminFrame(s, c.now, op);
    case OnQuality(op) => QualityFrame(s, c.now, op);
    case _ =>
  }

  // ---------- money ----------

  lemma MaterialMoneySound(s: State, now: nat, op: MaterialOp)
    requires MoneySound(s.market, s.funds)
    ensures MoneySound(MaterialStep(s, now, op).market, MaterialStep(s, now, op).funds)
  {
    MaterialFrame(s, now, op);
    StepMints(s, now, op);
  }

  lemma IncentiveMoneySound(s: State, op: IncentiveOp)
    requires MoneySound(s.market, s.funds)
    ensures MoneySound(IncentiveStep(s, op).market, IncentiveStep(s, op).funds)
  {
    IncentiveFrame(s, op);
    StepBudget(s, op, 0);
  }

  lemma StepMoneySound(s: State, c: Call)
    requires MoneySound(s.market, s.funds)
    ensures MoneySound(Step(s, c).market, Step(s, c).funds)
  {
    match c.op
    case OnMaterial(op) => MaterialMoneySound(s, c.now, op);
    case OnIncentive(op) => IncentiveMoneySound(s, op);
    case OnCarbon(op) =>
      C.StepKeepsMarket(s.stats, s.market, op);
      C.StepSupply(s.stats, s.market, op);
    case OnAdmin(op) =>
      AdminFrame(s, c.now, op);
      StepKeepsConfig(s, c.now, op);
    case OnQuality(op) => QualityFrame(s, c.now, op);
    case _ =>
  }

  // ---------- administration and goals ----------

  lemma StepGovSound(s: State, c: Call)
    requires GovInv(s.gov)
    ensures GovInv(Step(s, c).gov)
  {
    match c.op
    case OnMaterial(op) => MaterialFrame(s, c.now, op);
    case OnIncentive(op) => IncentiveFrame(s, op);
    case OnAdmin(op) => StepKeepsGov(s, c.now, op);
    case OnQuality(op) => QualityFrame(s, c.now, op);
    case _ =>
  }

  lemma StepGoalsSound(s: State, c: Call)
    requires Q.GoalsInv(s.goals)
    ensures Q.GoalsInv(Step(s, c).goals)
  {
    match c.op
    case OnMaterial(op) => MaterialFrame(s, c.now, op);
    case OnIncentive(op) => IncentiveFrame(s, op);
    case OnAdmin(op) => AdminFrame(s, c.now, op);
    case OnQuality(op) => Q.StepKeepsGoals(s, c.now, op);
    case _ =>
  }

  lemma StepSound(s: State, c: Call)
    requires Sound(s)
    ensures Sound(Step(s, c))
  {
    StepStoreSound(s, c);
    StepPeopleSound(s, c);
    StepMoneySound(s, c);
    StepGovSound(s, c);
    StepGoalsSound(s, c);
  }

  /** Every reachable state is sound. */
  lemma {:induction false} RunIsSound(admin: Address, calls: seq<Call>)
    ensures Sound(Run(Genesis(admin), calls))
  {
    if calls != [] {
      RunIsSound(admin, calls[..|calls| - 1]);
      StepSound(Run(Genesis(admin), calls[..|calls| - 1]), calls[|calls| - 1]);
    }
  }
}
