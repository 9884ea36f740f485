/** The object of the contract and the state machine of the run theorems are the same thing: an invocation of an entry
    point does to the object's storage what the machine's step does to its state. */
module Host {
  import opened Model
  import opened Custody
  import opened CustodyIndex
  import opened Rewards
  import opened Incentives
  import C = Carbon
  import opened Governance
  import opened Materials
  import P = Participants
  import Q = Quality
  import opened TokenLedger
  import opened Budgets
  import opened Contract
  import opened Runs
  import opened Reachable

  method InvokePeople(k: ScavengerContract, now: nat, op: P.PeopleOp)
    modifies k`participants, k`index
    ensures k.Reg() == P.PeopleStep(k.admins, old(k.Reg()), now, op)
  {
    match op
    case Join(a, role) => var _ := k.RegisterParticipant(now, a, role);
    case ChangeRole(a, role) => var _ := k.UpdateRole(a, role);
    case Leave(a) => var _ := k.DeregisterParticipant(a);
    case Punish(admin, a, delta) => var _ := k.PenalizeReputation(admin, a, delta);
    case Idle(a) => var _ := k.DecayReputation(now, a);
  }

  method InvokeMint(k: ScavengerContract, now: nat, op: WasteOp)
    requires IdsInv(k.Sto()) && Mints(op)
    modifies k`count, k`wastes, k`lists, k`history, k`stats
    ensures k.Sto() == MintStep(k.Reg(), old(k.Sto()), now, op)
    ensures k.stats == Opened(old(k.Contents()), now, op)
  {
    match op
    case Recycle(minWeight, ttl, wt, w, a, lat, lon) =>
      var _ := k.RecycleWaste(minWeight, ttl, now, wt, w, a, lat, lon);
    case Bulk(wt, c, m, lat, lon, note) => var _ := k.TransferCollectedWaste(now, wt, c, m, lat, lon, note);
    case Split(id, owner, weights) => var _ := k.SplitWaste(id, owner, weights);
    case Merge(ids, owner) => var _ := k.MergeWastes(ids, owner);
  }

  method InvokeMove(k: ScavengerContract, now: nat, op: WasteOp)
    requires Moves(op)
    modifies k`participants, k`wastes, k`lists, k`history, k`pending
    ensures k.Sto() == MoveStep(old(k.Reg()), k.admins, old(k.Sto()), now, op)
    ensures k.Reg() == Thanked(old(k.Reg()), old(k.Sto()), now, op)
  {
    match op
    case Transfer1(id, from, to, lat, lon) => var _ := k.TransferWaste(now, id, from, to, lat, lon);
    case TransferMany(ids, to, lat, lon) => var _ := k.BatchTransferWaste(now, ids, to, lat, lon);
    case Override(admin, id, from, to, lat, lon) =>
      var _ := k.AdminOverrideTransfer(now, admin, id, from, to, lat, lon);
    case Approve(n, recipient) => var _ := k.ApproveTransfer(now, n, recipient);
  }

  method InvokeEdit(k: ScavengerContract, now: nat, op: WasteOp)
    requires !Mints(op) && !Moves(op)
    modifies k`wastes, k`pendingCount, k`pending
    ensures k.Sto() == EditStep(k.Reg(), k.admins, old(k.Sto()), now, op)
  {
    match op
    case Initiate(id, from, to, lat, lon) => var _ := k.InitiateTransfer(now, id, from, to, lat, lon);
    case Deactivate(id, admin) => var _ := k.DeactivateWaste(id, admin);
    case DeactivateMany(ids, admin) => var _ := k.BatchDeactivateWaste(ids, admin);
    case Cleanup(admin) => var _ := k.CleanupExpiredWastes(now, admin);
    case Reserve(id, reserver, duration) => var _ := k.ReserveWaste(now, id, reserver, duration);
    case Cancel(id, caller) => var _ := k.CancelReservation(id, caller);
  }

  method InvokeCarbon(k: ScavengerContract, op: C.CarbonOp)
    modifies k`stats, k`listingCount, k`listings, k`listingIndex
    ensures (k.stats, k.Mkt()) == C.CarbonStep(old(k.stats), old(k.Mkt()), op)
  {
    match op
    case Redeem(a, amount) => var _ := k.RedeemCarbonCredits(a, amount);
    case List(a, amount, price) => var _ := k.CreateCarbonListing(a, amount, price);
    case Unlist(id, a) => var _ := k.CancelCarbonListing(id, a);
    case Buy(id, a, tokenSet, paid) => var _ := k.PurchaseCarbonListing(id, a, tokenSet, paid);
  }

  /** The entries the calls on materials write are those of `s`. */
  ghost predicate MaterialsAre(k: ScavengerContract, s: State)
    reads k
  {
    && k.participants == s.reg.participants && k.totalTokens == s.funds.totalTokens && k.count == s.store.count
    && k.materials == s.store.materials && k.transfers == s.store.transfers
    && k.stats == s.stats && k.totalCarbon == s.market.totalCarbon
  }

  method InvokeVerify(k: ScavengerContract, now: nat, op: MaterialOp)
    requires op.Verify? || op.VerifyMany?
    modifies k`participants, k`totalTokens, k`materials, k`stats, k`totalCarbon
    ensures MaterialsAre(k, MaterialStep(old(k.Contents()), now, op))
  {
    ghost var s := k.Contents();
    match op {
      case Verify(id, verifier) => var _ := k.VerifyMaterial(now, id, verifier);
      case VerifyMany(ids, verifier) => var _ := k.VerifyMaterialsBatch(ids, verifier);
    }
    VerifyMarks(s, now, op);
  }

  method InvokeMaterial(k: ScavengerContract, now: nat, op: MaterialOp)
    modifies k`participants, k`totalTokens, k`count, k`materials, k`transfers, k`stats, k`totalCarbon
    ensures MaterialsAre(k, MaterialStep(old(k.Contents()), now, op))
  {
    match op
    case Submit(minWeight, wt, w, a) => var _ := k.SubmitMaterial(minWeight, wt, w, a);
    case HandOn(id, from, to) => var _ := k.TransferMaterial(now, id, from, to);
    case Verify(_, _) => InvokeVerify(k, now, op);
    case VerifyMany(_, _) => InvokeVerify(k, now, op);
    case Grant(tokenSet, a, amount) => var _ := k.GrantTokens(tokenSet, a, amount);
    case Give(charitySet, a, amount) => var _ := k.DonateToCharity(charitySet, a, amount);
  }

  /** The calls that pay out of a budget. */
  method InvokePayout(k: ScavengerContract, op: IncentiveOp)
    requires op.Claim? || op.Distribute?
    modifies k`participants, k`totalTokens, k`incentives
    ensures k.PaidAs(IncentiveStep(old(k.Contents()), op))
  {
    match op
    case Claim(id, m, a) => var _ := k.ClaimIncentiveReward(id, m, a);
    case Distribute(m, id, a, multiplier, tokenSet, paysOut) =>
      var _ := k.DistributeRewards(m, id, a, multiplier, tokenSet, paysOut);
  }

  method InvokeBudget(k: ScavengerContract, op: IncentiveOp)
    requires !op.Claim? && !op.Distribute?
    modifies k`incentiveCount, k`incentives
    ensures k.Fds() == IncentiveStep(old(k.Contents()), op).funds
  {
    match op
    case Create(a, wt, points, total) => var _ := k.CreateIncentive(a, wt, points, total);
    case Switch(id, active) => var _ := k.UpdateIncentiveStatus(id, active);
    case Update(id, points, total) => var _ := k.UpdateIncentive(id, points, total);
    case Close(id, a) => var _ := k.DeactivateIncentive(id, a);
  }

  predicate SetsShares(op: AdminOp) { op.SetBoth? || op.SetCollector? || op.SetOwner? }

  method InvokeShares(k: ScavengerContract, now: nat, op: AdminOp)
    requires SetsShares(op)
    modifies k`config
    ensures k.Contents() == AdminStep(old(k.Contents()), now, op)
  {
    match op
    case SetBoth(a, collector, owner) => var _ := k.SetPercentages(a, collector, owner);
    case SetCollector(a, collector) => var _ := k.SetCollectorPercentage(a, collector);
    case SetOwner(a, owner) => var _ := k.SetOwnerPercentage(a, owner);
  }

  method InvokeGov(k: ScavengerContract, now: nat, op: AdminOp)
    requires !SetsShares(op) && !op.Executing?
    modifies k`admins, k`threshold, k`proposalCount, k`proposals
    ensures k.Gvn() == GovStep(old(k.Gvn()), now, op)
  {
    match op
    case Add(a, added) => var _ := k.AddAdmin(a, added);
    case Remove(a, removed) => var _ := k.RemoveAdmin(a, removed);
    case HandOver(a, admins) => var _ := k.TransferAdmin(a, admins);
    case Threshold(a, n) => var _ := k.SetMultisigThreshold(a, n);
    case Proposing(a, action) => var _ := k.ProposeAdminAction(now, a, action);
    case Approving(a, id) => var _ := k.ApproveAdminProposal(now, a, id);
  }

  method InvokeExecution(k: ScavengerContract, now: nat, op: AdminOp)
    requires op.Executing?
    modifies k`config, k`admins, k`proposals, k`wastes
    ensures k.Contents() == AdminStep(old(k.Contents()), now, op)
  {
    ghost var s := k.Contents();
    var _ := k.ExecuteAdminProposal(now, op.executor, op.id);
    ExecutionKeepsRest(s, now, op);
  }

  lemma ExecutionKeepsRest(s: State, now: nat, op: AdminOp)
    requires op.Executing?
    ensures var s' := AdminStep(s, now, op);
      s' == s.(store := s.store.(wastes := s'.store.wastes), funds := s.funds.(config := s'.funds.config),
               gov := s'.gov)
  {
    AdminFrame(s, now, op);
  }

  method InvokeQuality(k: ScavengerContract, now: nat, op: Q.QualityOp)
    modifies k`wastes, k`stats, k`goals, k`reports, k`contaminated
    ensures var s' := Q.QualityStep(old(k.Contents()), now, op);
      && k.wastes == s'.store.wastes && k.stats == s'.stats && k.goals == s'.goals && k.reports == s'.reports
      && k.contaminated == s'.contaminated
  {
    match op
    case Advance(id, a, status) => var _ := k.UpdateProcessingStatus(id, a, status);
    case Aim(a, target, deadline, wt) => var _ := k.SetRecyclingGoal(now, a, target, deadline, wt);
    case Mark(id, a, level) => var _ := k.MarkContaminated(id, a, level);
    case Report(id, a, level) => var _ := k.ReportContamination(id, a, level);
  }

  // ---------- whole states ----------

  method CallPeople(k: ScavengerContract, now: nat, op: P.PeopleOp)
    modifies k`participants, k`index
    ensures k.Contents() == old(k.Contents()).(reg := P.PeopleStep(k.admins, old(k.Reg()), now, op))
  {
    InvokePeople(k, now, op);
  }

  lemma SameButCustody(k: ScavengerContract, s: State)
    requires k.Mkt() == s.market && k.Fds() == s.funds && k.Gvn() == s.gov
    requires (k.goals, k.reports, k.contaminated) == (s.goals, s.reports, s.contaminated)
    ensures k.Contents() == s.(reg := k.Reg(), store := k.Sto(), stats := k.stats)
  {}

  method CallMint(k: ScavengerContract, now: nat, op: WasteOp)
    requires IdsInv(k.Sto()) && Mints(op)
    modifies k`count, k`wastes, k`lists, k`history, k`stats
    ensures var s := old(k.Contents());
      k.Contents() == s.(store := MintStep(s.reg, s.store, now, op), stats := Opened(s, now, op))
  {
    ghost var s := k.Contents();
    InvokeMint(k, now, op);
    SameButCustody(k, s);
  }

  method CallMove(k: ScavengerContract, now: nat, op: WasteOp)
    requires Moves(op)
    modifies k`participants, k`wastes, k`lists, k`history, k`pending
    ensures var s := old(k.Contents());
      k.Contents() == s.(store := MoveStep(s.reg, s.gov.admins, s.store, now, op),
                         reg := Thanked(s.reg, s.store, now, op))
  {
    ghost var s := k.Contents();
    InvokeMove(k, now, op);
    SameButCustody(k, s);
  }

  method CallEdit(k: ScavengerContract, now: nat, op: WasteOp)
    requires !Mints(op) && !Moves(op)
    modifies k`wastes, k`pendingCount, k`pending
    ensures var s := old(k.Contents());
      k.Contents() == s.(store := EditStep(s.reg, s.gov.admins, s.store, now, op))
  {
    InvokeEdit(k, now, op);
  }

  method CallWaste(k: ScavengerContract, now: nat, op: WasteOp)
    requires IdsInv(k.Sto())
    modifies k`participants, k`count, k`wastes, k`lists, k`history, k`pendingCount, k`pending, k`stats
    ensures k.Contents() == WasteCall(old(k.Contents()), now, op)
  {
    if Mints(op) { CallMint(k, now, op); }
    else if Moves(op) { CallMove(k, now, op); }
    else { CallEdit(k, now, op); }
  }

  method CallCarbon(k: ScavengerContract, op: C.CarbonOp)
    modifies k`stats, k`listingCount, k`listings, k`listingIndex
    ensures k.Contents() == CarbonCall(old(k.Contents()), op)
  {
    InvokeCarbon(k, op);
  }

  method CallMaterial(k: ScavengerContract, now: nat, op: MaterialOp)
    modifies k`participants, k`totalTokens, k`count, k`materials, k`transfers, k`stats, k`totalCarbon
    ensures k.Contents() == MaterialStep(old(k.Contents()), now, op)
  {
    ghost var s := k.Contents();
    InvokeMaterial(k, now, op);
    MaterialFrame(s, now, op);
    StepKeepsWastes(s, now, op);
    MaterialKeepsIndex(s, now, op);
  }

  lemma SameButMoney(k: ScavengerContract, s: State)
    requires k.Sto() == s.store && k.Mkt() == s.market && k.Gvn() == s.gov
    requires (k.stats, k.goals, k.reports, k.contaminated) == (s.stats, s.goals, s.reports, s.contaminated)
    ensures k.Contents() == s.(reg := k.Reg(), funds := k.Fds())
  {}

  method CallPayout(k: ScavengerContract, op: IncentiveOp)
    requires op.Claim? || op.Distribute?
    modifies k`participants, k`totalTokens, k`incentives
    ensures k.Contents() == IncentiveStep(old(k.Contents()), op)
  {
    ghost var s := k.Contents();
    InvokePayout(k, op);
    PayoutKeepsRest(s, op);
    SameButMoney(k, s);
  }

  method CallBudget(k: ScavengerContract, op: IncentiveOp)
    requires !op.Claim? && !op.Distribute?
    modifies k`incentiveCount, k`incentives
    ensures k.Contents() == IncentiveStep(old(k.Contents()), op)
  {
    ghost var s := k.Contents();
    InvokeBudget(k, op);
    SameButMoney(k, s);
  }

  method CallIncentive(k: ScavengerContract, op: IncentiveOp)
    modifies k`participants, k`totalTokens, k`incentiveCount, k`incentives
    ensures k.Contents() == IncentiveStep(old(k.Contents()), op)
  {
    if op.Claim? || op.Distribute? { CallPayout(k, op); } else { CallBudget(k, op); }
  }

  lemma SameButGov(k: ScavengerContract, s: State)
    requires k.Reg() == s.reg && k.Sto() == s.store && k.Mkt() == s.market && k.Fds() == s.funds
    requires (k.stats, k.goals, k.reports, k.contaminated) == (s.stats, s.goals, s.reports, s.contaminated)
    ensures k.Contents() == s.(gov := k.Gvn())
  {}

  method CallGov(k: ScavengerContract, now: nat, op: AdminOp)
    requires !SetsShares(op) && !op.Executing?
    modifies k`admins, k`threshold, k`proposalCount, k`proposals
    ensures k.Contents() == old(k.Contents()).(gov := GovStep(old(k.Gvn()), now, op))
  {
    ghost var s := k.Contents();
    InvokeGov(k, now, op);
    SameButGov(k, s);
  }

  method CallAdmin(k: ScavengerContract, now: nat, op: AdminOp)
    modifies k`config, k`admins, k`threshold, k`proposalCount, k`proposals, k`wastes
    ensures k.Contents() == AdminStep(old(k.Contents()), now, op)
  {
    if SetsShares(op) { InvokeShares(k, now, op); }
    else if op.Executing? { InvokeExecution(k, now, op); }
    else { CallGov(k, now, op); }
  }

  method CallQuality(k: ScavengerContract, now: nat, op: Q.QualityOp)
    modifies k`wastes, k`stats, k`goals, k`reports, k`contaminated
    ensures k.Contents() == Q.QualityStep(old(k.Contents()), now, op)
  {
    ghost var s := k.Contents();
    InvokeQuality(k, now, op);
    QualityFrame(s, now, op);
    QualityKeepsRest(s, now, op);
  }

  lemma MaterialKeepsIndex(s: State, now: nat, op: MaterialOp)
    ensures MaterialStep(s, now, op).reg.index == s.reg.index
    ensures MaterialStep(s, now, op).market == s.market.(totalCarbon := MaterialStep(s, now, op).market.totalCarbon)
  {
    StepMints(s, now, op);
    match op
    case Verify(id, verifier) =>
      if VerifyMaterial(s, now, id, verifier).Ok? {
        VerifyOneBalances(s, id, VerificationTokens(s, id, verifier).value);
      }
    case VerifyMany(ids, verifier) => if VerifyMaterials(s, ids, verifier).Ok? { VerifyAllBalances(s, ids); }
    case _ =>
  }

  lemma PayoutKeepsRest(s: State, op: IncentiveOp)
    requires op.Claim? || op.Distribute?
    ensures var s' := IncentiveStep(s, op);
      && s' == s.(reg := s'.reg, funds := s'.funds) && s'.reg.index == s.reg.index && s'.funds.config == s.funds.config
      && s'.funds.incentiveCount == s.funds.incentiveCount
  {
    IncentiveFrame(s, op);
    IncentiveTokens(s, op);
    if op.Distribute? { DistributeKeepsCount(s, op); }
  }

  lemma DistributeKeepsCount(s: State, op: IncentiveOp)
    requires op.Distribute?
    ensures IncentiveStep(s, op).funds.incentiveCount == s.funds.incentiveCount
  {
    var reward := CheckDistribution(s, op.material, op.id, op.manufacturer, op.multiplier, op.tokenSet);
    if reward.Ok? && Settle(s, op.material, op.id, reward.value, op.paysOut).Ok? {
      SettledFunds(s, op.material, op.id, reward.value, op.paysOut);
    }
  }

  lemma QualityKeepsRest(s: State, now: nat, op: Q.QualityOp)
    ensures var s' := Q.QualityStep(s, now, op); s'.store == s.store.(wastes := s'.store.wastes)
  {
    if op.Mark? || op.Report? { Q.MarksOnlyMark(s, now, op); }
  }

  method DispatchItems(k: ScavengerContract, c: Call)
    requires IdsInv(k.Sto()) && (c.op.OnWaste? || c.op.OnMaterial?)
    modifies k
    ensures k.Contents() == Step(old(k.Contents()), c)
  {
    if c.op.OnWaste? { CallWaste(k, c.now, c.op.waste); } else { CallMaterial(k, c.now, c.op.material); }
  }

  method DispatchMoney(k: ScavengerContract, c: Call)
    requires c.op.OnIncentive? || c.op.OnCarbon?
    modifies k
    ensures k.Contents() == Step(old(k.Contents()), c)
  {
    if c.op.OnIncentive? { CallIncentive(k, c.op.incentive); } else { CallCarbon(k, c.op.carbon); }
  }

  lemma AdminIsStep(s: State, c: Call)
    requires c.op.OnAdmin?
    ensures Step(s, c) == AdminStep(s, c.now, c.op.admin)
  {}

  method DispatchAdmin(k: ScavengerContract, c: Call)
    requires c.op.OnAdmin?
    modifies k
    ensures k.Contents() == Step(old(k.Contents()), c)
  {
    AdminIsStep(k.Contents(), c);
    CallAdmin(k, c.now, c.op.admin);
  }

  lemma QualityIsStep(s: State, c: Call)
    requires c.op.OnQuality?
    ensures Step(s, c) == Q.QualityStep(s, c.now, c.op.quality)
  {}

  method DispatchQuality(k: ScavengerContract, c: Call)
    requires c.op.OnQuality?
    modifies k
    ensures k.Contents() == Step(old(k.Contents()), c)
  {
    QualityIsStep(k.Contents(), c);
    CallQuality(k, c.now, c.op.quality);
  }

  method DispatchPeople(k: ScavengerContract, c: Call)
    requires c.op.OnPeople?
    modifies k
    ensures k.Contents() == Step(old(k.Contents()), c)
  {
    CallPeople(k, c.now, c.op.people);
  }

  /** Any call on the object is the machine's step; a sound contract stays sound. */
  method Invoke(k: ScavengerContract, c: Call)
    requires Sound(k.Contents())
    modifies k
    ensures k.Contents() == Step(old(k.Contents()), c) && Sound(k.Contents())
  {
    StepSound(k.Contents(), c);
    if c.op.OnWaste? || c.op.OnMaterial? { DispatchItems(k, c); }
    else if c.op.OnIncentive? || c.op.OnCarbon? { DispatchMoney(k, c); }
    else if c.op.OnAdmin? { DispatchAdmin(k, c); }
    else if c.op.OnPeople? { DispatchPeople(k, c); }
    else { DispatchQuality(k, c); }
  }

  /** A fresh contract that has served some calls holds what the run from initialisation holds. */
  method Serve(admin: Address, calls: seq<Call>) returns (k: ScavengerContract)
    ensures fresh(k) && k.Contents() == Run(Genesis(admin), calls)
  {
    k := new ScavengerContract(admin);
    for i := 0 to |calls|
      invariant fresh(k) && k.Contents() == Run(Genesis(admin), calls[..i])
    {
      assert calls[..i + 1][..i] == calls[..i];
      RunIsSound(admin, calls[..i]);
      Invoke(k, calls[i]);
    }
    assert calls[..|calls|] == calls;
  }
}
