/** Tokens, budgets, carbon, recycled weight and proposals over whole runs of the contract. */
module ValueRuns {
  import opened Prelude
  import opened Model
  import opened Custody
  import opened CustodyIndex
  import opened Rewards
  import opened TokenLedger
  import opened Budgets
  import C = Carbon
  import opened Governance
  import Q = Quality
  import opened Upkeep
  import opened Materials
  import opened Runs
  import opened Reachable

  // ---------- tokens ----------

  /** Tokens that left the records for the charity. */
  ghost function Donated(s: State, c: Call): nat {
    match c.op case OnMaterial(op) => Given(s, op) case _ => 0
  }

  /** Tokens a distribution put on the counter a second time. */
  ghost function DoubleCounted(s: State, c: Call): nat {
    match c.op case OnIncentive(op) => CountedTwice(s, op) case _ => 0
  }

  /** Tokens on the record a new registration overwrites. */
  function Forfeited(s: State, c: Call): nat {
    match c.op
    case OnPeople(Join(a, role)) =>
      if a in s.reg.participants && !s.reg.participants[a].registered then s.reg.participants[a].tokens else 0
    case _ => 0
  }

  lemma PeopleTokens(s: State, c: Call)
    requires c.op.OnPeople?
    ensures TokenSum(Step(s, c).reg) + Forfeited(s, c) == TokenSum(s.reg)
  {
    var op := c.op.people;
    var after := Step(s, c).reg.participants;
    if op.Join? && Registered(s.reg, op.a) {
    } else if op.a in after {
      assert after == s.reg.participants[op.a := after[op.a]];
      MapSumSet(s.reg.participants, op.a, after[op.a], TokensOf);
      if op.a in s.reg.participants { MapSumAtLeast(s.reg.participants, op.a, TokensOf); }
    }
  }

  lemma WasteTokens(reg: Registry, st: Store, now: nat, op: WasteOp)
    ensures TokenSum(Thanked(reg, st, now, op)) == TokenSum(reg)
  {
    if op.Transfer1? {
      RewardKeepsTokens(reg, op.from, REP_TRANSFER, now);
      RewardKeepsTokens(Reward(reg, op.from, REP_TRANSFER, now), op.to, REP_TRANSFER, now);
    }
  }

  lemma StepTokensRuns(s: State, c: Call)
    ensures var s' := Step(s, c);
      TokenSum(s'.reg) + s.funds.totalTokens + Donated(s, c) + DoubleCounted(s, c) + Forfeited(s, c)
      == TokenSum(s.reg) + s'.funds.totalTokens
  {
    match c.op
    case OnPeople(_) => PeopleTokens(s, c);
    case OnWaste(op) => WasteTokens(s.reg, s.store, c.now, op);
    case OnMaterial(op) => StepTokens(s, c.now, op);
    case OnIncentive(op) => IncentiveTokens(s, op);
    case OnAdmin(op) => AdminFrame(s, c.now, op);
    case OnQuality(op) => QualityFrame(s, c.now, op);
    case _ =>
  }

  /** Along every run the global counter is the sum of all earnings, plus what was donated, plus what
      distributions counted twice, plus what re-registrations overwrote. */
  lemma {:induction false} TokenLedgerHolds(admin: Address, calls: seq<Call>)
    ensures var s0 := Genesis(admin);
      Run(s0, calls).funds.totalTokens
      == TokenSum(Run(s0, calls).reg) + Flow(s0, calls, Donated) + Flow(s0, calls, DoubleCounted)
         + Flow(s0, calls, Forfeited)
  {
    if calls != [] {
      TokenLedgerHolds(admin, calls[..|calls| - 1]);
      StepTokensRuns(Run(Genesis(admin), calls[..|calls| - 1]), calls[|calls| - 1]);
    }
  }

  // ---------- budgets ----------

  ghost function SpentOn(id: nat): (State, Call) -> nat {
    (s: State, c: Call) => match c.op case OnIncentive(op) => Spent(s, op, id) case _ => 0
  }

  ghost function ForgottenOf(id: nat): (State, Call) -> nat {
    (s: State, c: Call) => match c.op case OnIncentive(op) => Forgotten(s, op, id) case _ => 0
  }

  lemma OthersKeepBudgets(s: State, c: Call, id: nat)
    requires !c.op.OnIncentive?
    ensures Used(Step(s, c).funds, id) == Used(s.funds, id)
  {
    match c.op
    case OnMaterial(op) => MaterialFrame(s, c.now, op);
    case OnAdmin(op) => AdminFrame(s, c.now, op);
    case OnQuality(op) => QualityFrame(s, c.now, op);
    case _ =>
  }

  lemma StepBudgetRuns(s: State, c: Call, id: nat)
    requires BudgetInv(s.funds)
    ensures Used(Step(s, c).funds, id) + ForgottenOf(id)(s, c) == Used(s.funds, id) + SpentOn(id)(s, c)
  {
    if c.op.OnIncentive? { StepBudget(s, c.op.incentive, id); } else { OthersKeepBudgets(s, c, id); }
  }

  /** Along every run, what a programme has spent and still holds is its total, plus what updates below the spent
      amount made it forget: exactly the total when no update did, at least the total always. */
  lemma {:induction false} BudgetsAddUp(admin: Address, calls: seq<Call>, id: nat)
    ensures var s0 := Genesis(admin);
      var funds := Run(s0, calls).funds;
      if id in funds.incentives then
        && funds.incentives[id].remaining <= funds.incentives[id].total
        && Flow(s0, calls, SpentOn(id)) + funds.incentives[id].remaining
           == funds.incentives[id].total + Flow(s0, calls, ForgottenOf(id))
      else Flow(s0, calls, SpentOn(id)) == Flow(s0, calls, ForgottenOf(id))
  {
    RunIsSound(admin, calls);
    UsedAddsUp(admin, calls, id);
  }

  lemma {:induction false} UsedAddsUp(admin: Address, calls: seq<Call>, id: nat)
    ensures var s0 := Genesis(admin);
      Flow(s0, calls, SpentOn(id)) == Used(Run(s0, calls).funds, id) + Flow(s0, calls, ForgottenOf(id))
  {
    if calls != [] {
      UsedAddsUp(admin, calls[..|calls| - 1], id);
      RunIsSound(admin, calls[..|calls| - 1]);
      StepBudgetRuns(Run(Genesis(admin), calls[..|calls| - 1]), calls[|calls| - 1], id);
    }
  }

  // ---------- carbon ----------

  ghost function Redeemed(s: State, c: Call): nat {
    match c.op case OnCarbon(op) => C.Burned(s.stats, op) case _ => 0
  }

  lemma QualityKeepsCarbon(s: State, now: nat, op: Q.QualityOp)
    ensures C.Balances(Q.QualityStep(s, now, op).stats) == C.Balances(s.stats)
  {
    if op.Advance? {
      C.WriteCarbon(s.stats, op.caller, Lookup(Q.QualityStep(s, now, op).stats, op.caller, NO_STATS));
    }
  }

  lemma StepCarbonRuns(s: State, c: Call)
    requires C.MarketInv(s.market)
    ensures var s' := Step(s, c);
      s'.market.totalCarbon + C.Supply(s.stats, s.market)
      == s.market.totalCarbon + C.Supply(s'.stats, s'.market) + Redeemed(s, c)
  {
    match c.op
    case OnMaterial(op) => StepMints(s, c.now, op);
    case OnCarbon(op) => C.StepSupply(s.stats, s.market, op);
    case _ => OthersKeepCarbon(s, c);
  }

  lemma OthersKeepCarbon(s: State, c: Call)
    requires !c.op.OnMaterial? && !c.op.OnCarbon?
    ensures Step(s, c).market == s.market && C.Balances(Step(s, c).stats) == C.Balances(s.stats)
  {
    match c.op
    case OnWaste(op) => if op.Recycle? { C.TouchKeepsCarbon(s.stats, op.recycler); }
    case OnIncentive(op) => IncentiveFrame(s, op);
    case OnAdmin(op) => AdminFrame(s, c.now, op);
    case OnQuality(op) => QualityFrame(s, c.now, op); QualityKeepsCarbon(s, c.now, op);
    case _ =>
  }

  /** Along every run the credits ever minted are those on accounts, in escrow, or redeemed. */
  lemma {:induction false} CarbonIsConserved(admin: Address, calls: seq<Call>)
    ensures var s := Run(Genesis(admin), calls);
      s.market.totalCarbon == C.Supply(s.stats, s.market) + Flow(Genesis(admin), calls, Redeemed)
  {
    if calls != [] {
      CarbonIsConserved(admin, calls[..|calls| - 1]);
      RunIsSound(admin, calls[..|calls| - 1]);
      StepCarbonRuns(Run(Genesis(admin), calls[..|calls| - 1]), calls[|calls| - 1]);
    }
  }

  /** So in every reachable state a listing can be cancelled if and only if it is open and the caller's own, and a
      paid purchase succeeds if and only if it is open, somebody else's, and its price fits: crediting never
      overflows. */
  lemma ReleasesSucceed(admin: Address, calls: seq<Call>, id: nat, a: Address)
    ensures var s := Run(Genesis(admin), calls);
      && (id in s.market.index ==> id in s.market.listings)
      && (C.CancelListing(s.stats, s.market, id, a).Ok? <==> id in s.market.index && s.market.listings[id].seller == a)
      && (C.PurchaseListing(s.stats, s.market, id, a, true, true).Ok?
          <==> && id in s.market.index && s.market.listings[id].seller != a
               && s.market.listings[id].amount * s.market.listings[id].price <= I128_MAX)
  {
    RunIsSound(admin, calls);
    CarbonIsConserved(admin, calls);
    var s := Run(Genesis(admin), calls);
    if id in s.market.index { C.ReleaseNeverOverflows(s.stats, s.market, id, a); }
  }

  // ---------- recycled weight ----------

  /** Recycled weight that did not fit its account. */
  function CutOff(s: State, c: Call): nat {
    match c.op case OnQuality(op) => Q.Capped(s, op) case _ => 0
  }

  lemma WriteRecycled(stats: map<Address, Stats>, a: Address, after: Stats)
    requires after.recycled == Lookup(stats, a, NO_STATS).recycled
    ensures Q.RecycledTotal(stats[a := after]) == Q.RecycledTotal(stats)
  {
    MapSumSet(stats, a, after, Q.RecycledOf);
  }

  lemma ReleaseKeepsRecycled(stats: map<Address, Stats>, market: Market, id: nat, a: Address)
    requires id in market.listings && C.Release(stats, market, id, a).Ok?
    ensures Q.RecycledTotal(C.Release(stats, market, id, a).value.0) == Q.RecycledTotal(stats)
  {
    WriteRecycled(stats, a, C.Release(stats, market, id, a).value.0[a]);
  }

  lemma CarbonKeepsRecycled(stats: map<Address, Stats>, market: Market, op: C.CarbonOp)
    ensures Q.RecycledTotal(C.CarbonStep(stats, market, op).0) == Q.RecycledTotal(stats)
  {
    match op
    case Redeem(a, amount) =>
      if C.RedeemCredits(stats, a, amount).Ok? {
        WriteRecycled(stats, a, stats[a].(carbon := stats[a].carbon - amount));
      }
    case List(a, amount, price) =>
      if C.CreateListing(stats, market, a, amount, price).Ok? {
        WriteRecycled(stats, a, stats[a].(carbon := stats[a].carbon - amount));
      }
    case Unlist(id, a) => if C.CancelListing(stats, market, id, a).Ok? { ReleaseKeepsRecycled(stats, market, id, a); }
    case Buy(id, a, tokenSet, paid) =>
      if C.PurchaseListing(stats, market, id, a, tokenSet, paid).Ok? { ReleaseKeepsRecycled(stats, market, id, a); }
  }

  lemma VerifyOneKeepsRecycled(s: State, id: nat, tokens: nat)
    requires id in s.store.materials && VerifyOne(s, id, tokens).Ok?
    ensures Q.RecycledTotal(VerifyOne(s, id, tokens).value.stats) == Q.RecycledTotal(s.stats)
  {
    var a := s.store.materials[id].submitter;
    WriteRecycled(s.stats, a, VerifyOne(s, id, tokens).value.stats[a]);
  }

  lemma {:induction false} VerifyAllKeepsRecycled(s: State, ids: seq<nat>)
    requires VerifyAll(s, ids).Ok?
    ensures Q.RecycledTotal(VerifyAll(s, ids).value.stats) == Q.RecycledTotal(s.stats)
  {
    if ids != [] {
      VerifyAllKeepsRecycled(s, ids[..|ids| - 1]);
      var done, id := VerifyAll(s, ids[..|ids| - 1]).value, ids[|ids| - 1];
      if id in done.store.materials { VerifyOneKeepsRecycled(done, id, Points(done.store.materials[id]).value); }
    }
  }

  lemma MaterialKeepsRecycled(s: State, now: nat, op: MaterialOp)
    ensures Q.RecycledTotal(MaterialStep(s, now, op).stats) == Q.RecycledTotal(s.stats)
  {
    match op
    case Submit(minWeight, wt, w, a) => WriteRecycled(s.stats, a, Lookup(s.stats, a, NO_STATS));
    case Verify(id, verifier) =>
      if VerifyMaterial(s, now, id, verifier).Ok? {
        VerifyOneKeepsRecycled(s, id, Discounted(s.store, id, Points(s.store.materials[id]).value));
      }
    case VerifyMany(ids, verifier) => if VerifyMaterials(s, ids, verifier).Ok? { VerifyAllKeepsRecycled(s, ids); }
    case _ =>
  }

  ghost predicate RecycledMoves(s: State, s': State) {
    Q.RecycledTotal(s'.stats) + Q.RecycledWeights(s.store.wastes)
    == Q.RecycledTotal(s.stats) + Q.RecycledWeights(s'.store.wastes)
  }

  lemma WasteRecycled(s: State, c: Call)
    requires IdsInv(s.store) && c.op.OnWaste?
    ensures RecycledMoves(s, Step(s, c))
  {
    var op := c.op.waste;
    StepFramed(s.reg, s.gov.admins, s.store, c.now, op);
    FramedKeepsRecycled(s.store.wastes, Step(s, c).store.wastes);
    if op.Recycle? { WriteRecycled(s.stats, op.recycler, Lookup(s.stats, op.recycler, NO_STATS)); }
  }

  lemma AdminRecycled(s: State, now: nat, op: AdminOp)
    ensures RecycledMoves(s, AdminStep(s, now, op))
  {
    AdminFrame(s, now, op);
    var after := AdminStep(s, now, op).store.wastes;
    MapSumSame(s.store.wastes, after, Q.WeightRecycled);
  }

  lemma StepRecycledRuns(s: State, c: Call)
    requires StoreSound(s.store, s.contaminated)
    ensures var s' := Step(s, c);
      Q.RecycledTotal(s'.stats) + CutOff(s, c) + Q.RecycledWeights(s.store.wastes)
      == Q.RecycledTotal(s.stats) + Q.RecycledWeights(s'.store.wastes)
  {
    if c.op.OnQuality? { Q.StepRecycled(s, c.now, c.op.quality); } else { OthersMoveRecycled(s, c); }
  }

  lemma OthersMoveRecycled(s: State, c: Call)
    requires StoreSound(s.store, s.contaminated) && !c.op.OnQuality?
    ensures RecycledMoves(s, Step(s, c))
  {
    match c.op
    case OnPeople(_) =>
    case OnWaste(op) => WasteRecycled(s, c);
    case OnMaterial(op) => StepKeepsWastes(s, c.now, op); MaterialKeepsRecycled(s, c.now, op);
    case OnIncentive(op) => IncentiveFrame(s, op);
    case OnCarbon(op) => CarbonKeepsRecycled(s.stats, s.market, op);
    case OnAdmin(op) => AdminRecycled(s, c.now, op);
  }

  /** Along every run, the recycled weight on the accounts plus what the ceiling cut off is the summed weight of the
      wastes that were recycled: the two agree if and only if nothing was cut off. */
  lemma {:induction false} RecycledWeightAddsUp(admin: Address, calls: seq<Call>)
    ensures var s := Run(Genesis(admin), calls);
      Q.RecycledTotal(s.stats) + Flow(Genesis(admin), calls, CutOff) == Q.RecycledWeights(s.store.wastes)
  {
    if calls != [] {
      RecycledWeightAddsUp(admin, calls[..|calls| - 1]);
      RunIsSound(admin, calls[..|calls| - 1]);
      StepRecycledRuns(Run(Genesis(admin), calls[..|calls| - 1]), calls[|calls| - 1]);
    }
  }

  /** In every reachable state each waste has gone through each stage in order, Recycled at most once. */
  lemma RecycledAtMostOnce(admin: Address, calls: seq<Call>, id: nat)
    requires id in Run(Genesis(admin), calls).store.wastes
    ensures var w := Run(Genesis(admin), calls).store.wastes[id];
      Q.GoodStages(w) && multiset(w.stages)[Recycled] <= 1
  {
    RunIsSound(admin, calls);
    Q.RecycledOnce(Run(Genesis(admin), calls).store.wastes[id]);
  }

  // ---------- proposals ----------

  lemma OthersKeepGov(s: State, c: Call)
    requires !c.op.OnAdmin?
    ensures Step(s, c).gov == s.gov
  {
    match c.op
    case OnMaterial(op) => MaterialFrame(s, c.now, op);
    case OnIncentive(op) => IncentiveFrame(s, op);
    case OnQuality(op) => QualityFrame(s, c.now, op);
    case _ =>
  }

  function ExecutionsOf(id: nat): (State, Call) -> nat {
    (s: State, c: Call) => if c.op.OnAdmin? && Executes(s, c.now, c.op.admin, id) then 1 else 0
  }

  predicate IsExecuted(gov: Gov, id: nat) { id in gov.proposals && gov.proposals[id].executed }

  lemma StepExecutions(s: State, c: Call, id: nat)
    requires GovInv(s.gov)
    ensures (if IsExecuted(Step(s, c).gov, id) then 1 else 0)
            == (if IsExecuted(s.gov, id) then 1 else 0) + ExecutionsOf(id)(s, c)
    ensures IsExecuted(s.gov, id) ==>
      id in Step(s, c).gov.proposals && Step(s, c).gov.proposals[id] == s.gov.proposals[id]
  {
    if !c.op.OnAdmin? {
      OthersKeepGov(s, c);
    } else if IsExecuted(s.gov, id) {
      ExecutedIsFinal(s, c.now, c.op.admin, id);
    } else if Executes(s, c.now, c.op.admin, id) {
      ExecutionIsEarned(s, c.now, c.op.admin, id);
    } else if IsExecuted(Step(s, c).gov, id) {
      OnlyExecutionExecutes(s, c.now, c.op.admin, id);
    }
  }

  /** Along every run a proposal is executed at most once, and its record says executed exactly when it was. */
  lemma {:induction false} ExecutedAtMostOnce(admin: Address, calls: seq<Call>, id: nat)
    ensures var s0 := Genesis(admin);
      Flow(s0, calls, ExecutionsOf(id)) == if IsExecuted(Run(s0, calls).gov, id) then 1 else 0
  {
    if calls != [] {
      ExecutedAtMostOnce(admin, calls[..|calls| - 1], id);
      RunIsSound(admin, calls[..|calls| - 1]);
      StepExecutions(Run(Genesis(admin), calls[..|calls| - 1]), calls[|calls| - 1], id);
    }
  }

  /** Once executed, a proposal's record stays as it is for the rest of the run. */
  lemma {:induction false} ExecutedStaysAsItIs(admin: Address, calls: seq<Call>, more: seq<Call>, id: nat)
    requires IsExecuted(Run(Genesis(admin), calls).gov, id)
    ensures var s, s' := Run(Genesis(admin), calls), Run(Run(Genesis(admin), calls), more);
      id in s'.gov.proposals && s'.gov.proposals[id] == s.gov.proposals[id] && Sound(s')
  {
    RunIsSound(admin, calls);
    if more != [] {
      ExecutedStaysAsItIs(admin, calls, more[..|more| - 1], id);
      var s := Run(Run(Genesis(admin), calls), more[..|more| - 1]);
      StepExecutions(s, more[|more| - 1], id);
      StepSound(s, more[|more| - 1]);
    }
  }

  /** Some call of the run passes the test, given the calls before it. */
  ghost predicate During(calls: seq<Call>, test: (seq<Call>, Call) -> bool) {
    exists i :: 0 <= i < |calls| && test(calls[..i], calls[i])
  }

  lemma DuringLast(calls: seq<Call>, test: (seq<Call>, Call) -> bool)
    requires calls != [] && test(calls[..|calls| - 1], calls[|calls| - 1])
    ensures During(calls, test)
  {}

  lemma DuringLonger(calls: seq<Call>, test: (seq<Call>, Call) -> bool)
    requires calls != [] && During(calls[..|calls| - 1], test)
    ensures During(calls, test)
  {
    var init := calls[..|calls| - 1];
    var i :| 0 <= i < |init| && test(init[..i], init[i]);
    assert calls[..i] == init[..i] && test(calls[..i], calls[i]);
  }

  /** The call signed the proposal for `a`, who was an administrator at that moment. */
  ghost predicate SignedBy(s: State, c: Call, id: nat, a: Address) {
    c.op.OnAdmin? && Signs(s, c.now, c.op.admin, id, a) && a in s.gov.admins
  }

  ghost function Signing(s: State, id: nat, a: Address): (seq<Call>, Call) -> bool {
    (before: seq<Call>, c: Call) => SignedBy(Run(s, before), c, id, a)
  }

  ghost predicate SignedDuring(s: State, calls: seq<Call>, id: nat, a: Address) { During(calls, Signing(s, id, a)) }

  /** Along every run the approvers of a proposal are distinct and each signed it as an administrator. */
  lemma {:induction false} ApproversSigned(admin: Address, calls: seq<Call>, id: nat, a: Address)
    requires id in Run(Genesis(admin), calls).gov.proposals
    ensures Distinct(Run(Genesis(admin), calls).gov.proposals[id].approvers)
    ensures a in Run(Genesis(admin), calls).gov.proposals[id].approvers ==> SignedDuring(Genesis(admin), calls, id, a)
  {
    RunIsSound(admin, calls);
    if calls != [] && a in Run(Genesis(admin), calls).gov.proposals[id].approvers {
      var s, c := Run(Genesis(admin), calls[..|calls| - 1]), calls[|calls| - 1];
      RunIsSound(admin, calls[..|calls| - 1]);
      if !c.op.OnAdmin? { OthersKeepGov(s, c); }
      if id in s.gov.proposals && a in s.gov.proposals[id].approvers {
        ApproversSigned(admin, calls[..|calls| - 1], id, a);
        DuringLonger(calls, Signing(Genesis(admin), id, a));
      } else {
        ApproversSign(s, c.now, c.op.admin, id, a);
        DuringLast(calls, Signing(Genesis(admin), id, a));
      }
    }
  }

  /** The call made the proposal, at its creation time, with its action. */
  predicate ProposedBy(s: State, c: Call, id: nat, p: Proposal) {
    && c.op.OnAdmin? && c.op.admin.Proposing? && id == s.gov.proposalCount + 1
    && Propose(s.gov, c.now, c.op.admin.proposer, c.op.admin.action).Ok?
    && p.proposer == c.op.admin.proposer && p.action == c.op.admin.action && p.createdAt == c.now
  }

  ghost function Making(s: State, id: nat, p: Proposal): (seq<Call>, Call) -> bool {
    (before: seq<Call>, c: Call) => ProposedBy(Run(s, before), c, id, p)
  }

  ghost predicate ProposedDuring(s: State, calls: seq<Call>, id: nat, p: Proposal) { During(calls, Making(s, id, p)) }

  /** One and the same proposal, whoever approved it and whether or not it was executed. */
  predicate SameProposal(p: Proposal, q: Proposal) {
    p.proposer == q.proposer && p.action == q.action && p.createdAt == q.createdAt
  }

  /** A call creates a proposal or keeps what it proposes. */
  lemma StepProposal(s: State, now: nat, op: AdminOp, id: nat)
    requires GovInv(s.gov) && id in AdminStep(s, now, op).gov.proposals
    ensures var p := AdminStep(s, now, op).gov.proposals[id];
      if id in s.gov.proposals then SameProposal(s.gov.proposals[id], p)
      else ProposedBy(s, Call(now, OnAdmin(op)), id, p)
  {}

  lemma {:induction false} ProposalsWereProposed(admin: Address, calls: seq<Call>, id: nat)
    requires id in Run(Genesis(admin), calls).gov.proposals
    ensures ProposedDuring(Genesis(admin), calls, id, Run(Genesis(admin), calls).gov.proposals[id])
  {
    if calls != [] {
      var s0, s, c := Genesis(admin), Run(Genesis(admin), calls[..|calls| - 1]), calls[|calls| - 1];
      var p := Run(s0, calls).gov.proposals[id];
      RunIsSound(admin, calls[..|calls| - 1]);
      if c.op.OnAdmin? { StepProposal(s, c.now, c.op.admin, id); } else { OthersKeepGov(s, c); }
      if id in s.gov.proposals {
        ProposalsWereProposed(admin, calls[..|calls| - 1], id);
        SameWasProposed(s0, calls[..|calls| - 1], id, s.gov.proposals[id], p);
        DuringLonger(calls, Making(s0, id, p));
      } else {
        DuringLast(calls, Making(s0, id, p));
      }
    }
  }

  lemma SameWasProposed(s: State, calls: seq<Call>, id: nat, p: Proposal, q: Proposal)
    requires ProposedDuring(s, calls, id, p) && SameProposal(p, q)
    ensures ProposedDuring(s, calls, id, q)
  {
    var i :| 0 <= i < |calls| && Making(s, id, p)(calls[..i], calls[i]);
    assert Making(s, id, q)(calls[..i], calls[i]);
  }

  /** By an administrator, within seven days of creation, with at least the threshold of approvals, to the effect of
      the proposed action. */
  ghost predicate Lawful(s: State, c: Call, id: nat) {
    && c.op.OnAdmin? && Executes(s, c.now, c.op.admin, id) && id in s.gov.proposals
    && c.op.admin.executor in s.gov.admins
    && var p := s.gov.proposals[id];
    && c.now <= p.createdAt + 604_800 && |p.approvers| >= s.gov.threshold >= 1
    && Effected(s, Step(s, c), id, p.action)
  }

  /** Proposed by one of these calls, and approved by distinct addresses, each of which signed it as an administrator in
      one of them. */
  ghost predicate Backed(s0: State, before: seq<Call>, id: nat, p: Proposal) {
    && ProposedDuring(s0, before, id, p) && Distinct(p.approvers)
    && forall a :: a in p.approvers ==> SignedDuring(s0, before, id, a)
  }

  ghost predicate Earned(s0: State, before: seq<Call>, c: Call, id: nat) {
    && Lawful(Run(s0, before), c, id)
    && Backed(s0, before, id, Run(s0, before).gov.proposals[id])
  }

  lemma ExecutionIsLawful(s: State, c: Call, id: nat)
    requires GovInv(s.gov) && c.op.OnAdmin? && Executes(s, c.now, c.op.admin, id)
    ensures Lawful(s, c, id)
  {
    ExecutionIsEarned(s, c.now, c.op.admin, id);
  }

  lemma EverybodySigned(admin: Address, calls: seq<Call>, id: nat, approvers: seq<Address>)
    requires id in Run(Genesis(admin), calls).gov.proposals
    requires approvers == Run(Genesis(admin), calls).gov.proposals[id].approvers
    ensures forall a :: a in approvers ==> SignedDuring(Genesis(admin), calls, id, a)
  {
    forall a | a in approvers ensures SignedDuring(Genesis(admin), calls, id, a) {
      ApproversSigned(admin, calls, id, a);
    }
  }

  lemma ProposalsAreBacked(admin: Address, calls: seq<Call>, id: nat)
    requires id in Run(Genesis(admin), calls).gov.proposals
    ensures Backed(Genesis(admin), calls, id, Run(Genesis(admin), calls).gov.proposals[id])
  {
    ProposalsWereProposed(admin, calls, id);
    ApproversSigned(admin, calls, id, admin);
    EverybodySigned(admin, calls, id, Run(Genesis(admin), calls).gov.proposals[id].approvers);
  }

  lemma ExecutionIsEarnedInRun(admin: Address, before: seq<Call>, c: Call, id: nat)
    requires c.op.OnAdmin? && Executes(Run(Genesis(admin), before), c.now, c.op.admin, id)
    ensures Earned(Genesis(admin), before, c, id)
  {
    RunIsSound(admin, before);
    ExecutionIsLawful(Run(Genesis(admin), before), c, id);
    ProposalsAreBacked(admin, before, id);
  }

  ghost function Earning(s0: State, id: nat): (seq<Call>, Call) -> bool {
    (before: seq<Call>, c: Call) => Earned(s0, before, c, id)
  }

  ghost predicate EarnedDuring(s0: State, calls: seq<Call>, id: nat) { During(calls, Earning(s0, id)) }

  /** Along every run an executed proposal was executed by a call that was lawful, for a proposal that earlier calls of
      the run had made and signed. */
  lemma {:induction false} EveryExecutionIsEarned(admin: Address, calls: seq<Call>, id: nat)
    requires IsExecuted(Run(Genesis(admin), calls).gov, id)
    ensures EarnedDuring(Genesis(admin), calls, id)
  {
    var init, c := calls[..|calls| - 1], calls[|calls| - 1];
    if IsExecuted(Run(Genesis(admin), init).gov, id) {
      EveryExecutionIsEarned(admin, init, id);
      DuringLonger(calls, Earning(Genesis(admin), id));
    } else {
      RunIsSound(admin, init);
      StepExecutions(Run(Genesis(admin), init), c, id);
      ExecutionIsEarnedInRun(admin, init, c, id);
      DuringLast(calls, Earning(Genesis(admin), id));
    }
  }
}
