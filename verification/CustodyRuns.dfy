/** Custody, weight and provenance over whole runs of the contract. */
module CustodyRuns {
  import opened Prelude
  import opened Model
  import opened Custody
  import opened CustodyIndex
  import opened Weight
  import opened Provenance
  import opened Rewards
  import opened Incentives
  import opened RewardSplit
  import opened Governance
  import opened Materials
  import opened TokenLedger
  import Budgets
  import P = Participants
  import Q = Quality
  import opened Runs
  import opened Reachable

  // ---------- calls outside the custody area ----------

  /** Same histories and lists, same wastes with the same owners and weights; a waste may have been retired. */
  ghost predicate Quiet(st: Store, after: Store) {
    && after.history == st.history && after.lists == st.lists && after.wastes.Keys == st.wastes.Keys
    && forall id :: id in st.wastes ==>
      && after.wastes[id].owner == st.wastes[id].owner && after.wastes[id].weight == st.wastes[id].weight
      && (after.wastes[id].active ==> st.wastes[id].active)
  }

  lemma QualityIsQuiet(s: State, now: nat, op: Q.QualityOp)
    ensures Quiet(s.store, Q.QualityStep(s, now, op).store)
  {
    if op.Mark? || op.Report? { Q.MarksOnlyMark(s, now, op); }
  }

  lemma AdminIsQuiet(s: State, now: nat, op: AdminOp)
    ensures Quiet(s.store, AdminStep(s, now, op).store)
  {
    AdminFrame(s, now, op);
  }

  lemma OthersAreQuiet(s: State, c: Call)
    requires !c.op.OnWaste?
    ensures Quiet(s.store, Step(s, c).store)
  {
    match c.op
    case OnMaterial(op) => StepKeepsWastes(s, c.now, op);
    case OnIncentive(op) => IncentiveFrame(s, op);
    case OnAdmin(op) => AdminIsQuiet(s, c.now, op);
    case OnQuality(op) => QualityIsQuiet(s, c.now, op);
    case _ =>
  }

  // ---------- the custody index ----------

  /** An accepted batch repeats no id, an accepted override moves an unlisted waste, an accepted transfer's sender
      still owns the waste. */
  ghost predicate KeepsListsCall(s: State, c: Call) {
    c.op.OnWaste? ==> KeepsLists(s.reg, s.gov.admins, s.store, c.now, c.op.waste)
  }

  lemma QuietKeepsLists(st: Store, after: Store)
    requires CustodyInv(st) && Quiet(st, after)
    ensures ListsInv(after.lists, after.wastes)
  {}

  lemma StepKeepsListsIff(s: State, c: Call)
    requires CustodyInv(s.store) && IdsInv(Step(s, c).store)
    ensures CustodyInv(Step(s, c).store) <==> KeepsListsCall(s, c)
  {
    if c.op.OnWaste? {
      StepKeepsCustodyIff(s.reg, s.gov.admins, s.store, c.now, c.op.waste);
    } else {
      OthersAreQuiet(s, c);
      QuietKeepsLists(s.store, Step(s, c).store);
    }
  }

  /** The lists were right after every call. */
  ghost predicate ListsHeld(s: State, calls: seq<Call>) {
    CustodyInv(Run(s, calls).store) && (calls == [] || ListsHeld(s, calls[..|calls| - 1]))
  }

  /** The lists are right throughout a run if and only if every accepted call of it met its condition. */
  lemma {:induction false} RunKeepsCustodyIff(admin: Address, calls: seq<Call>)
    ensures ListsHeld(Genesis(admin), calls) <==> Along(Genesis(admin), calls, KeepsListsCall)
  {
    if calls != [] {
      RunIsSound(admin, calls);
      RunKeepsCustodyIff(admin, calls[..|calls| - 1]);
      if ListsHeld(Genesis(admin), calls[..|calls| - 1]) {
        StepKeepsListsIff(Run(Genesis(admin), calls[..|calls| - 1]), calls[|calls| - 1]);
      }
    }
  }

  lemma GoodStoreLists(st: Store, id: nat, a: Address)
    requires CustodyInv(st)
    ensures id in st.wastes && st.wastes[id].active ==>
      multiset(OwnedBy(st, a))[id] == if a == st.wastes[id].owner then 1 else 0
    ensures id in OwnedBy(st, a) ==> id in st.wastes && st.wastes[id].owner == a
    ensures id in st.wastes || id in st.materials ==>
      1 <= id <= st.count && !(id in st.wastes && id in st.materials)
  {
    if id in st.wastes && st.wastes[id].active { ListedOnce(st, id, a); }
  }

  /** Along every such run each active waste is listed once, by its owner, and by nobody else; every listed id is
      a waste of that owner; and ids of both versions are disjoint within 1..=count. */
  lemma EveryActiveWasteIsListedOnce(admin: Address, calls: seq<Call>, id: nat, a: Address)
    requires Along(Genesis(admin), calls, KeepsListsCall)
    ensures var st := Run(Genesis(admin), calls).store;
      && (id in st.wastes && st.wastes[id].active ==>
            multiset(OwnedBy(st, a))[id] == if a == st.wastes[id].owner then 1 else 0)
      && (id in OwnedBy(st, a) ==> id in st.wastes && st.wastes[id].owner == a)
      && (id in st.wastes || id in st.materials ==> 1 <= id <= st.count && !(id in st.wastes && id in st.materials))
  {
    RunKeepsCustodyIff(admin, calls);
    GoodStoreLists(Run(Genesis(admin), calls).store, id, a);
  }

  // ---------- weight ----------

  ghost function WeightIn(k: Kind): (State, Call) -> nat {
    (s: State, c: Call) => match c.op case OnWaste(op) => Added(k, s.reg, s.store, c.now, op) case _ => 0
  }

  /** The waste an executed proposal retires. */
  function RetiredBy(s: State, c: Call): set<nat> {
    match c.op
    case OnAdmin(Executing(a, id)) =>
      if ExecuteProposal(s, c.now, a, id).Ok? then
        (match CheckExecution(s.gov, c.now, a, id).value.action case RetireWaste(w) => {w} case _ => {})
      else {}
    case _ => {}
  }

  ghost function WeightOut(k: Kind): (State, Call) -> nat {
    (s: State, c: Call) =>
      match c.op
      case OnWaste(op) => Removed(k, s.gov.admins, s.store, c.now, op)
      case _ => HeldBy(k, s.store.wastes, RetiredBy(s, c))
  }

  lemma HeldByNone(k: Kind, wastes: map<nat, Waste>)
    ensures HeldBy(k, wastes, {}) == 0
  {
    assert Chosen(wastes, {}) == map[];
  }

  lemma AdminWeight(k: Kind, s: State, c: Call)
    requires c.op.OnAdmin?
    ensures TotalWeight(k, Step(s, c).store.wastes) + WeightOut(k)(s, c) == TotalWeight(k, s.store.wastes)
  {
    HeldByNone(k, s.store.wastes);
    AdminRetires(s, c.now, c.op.admin);
    if RetiredBy(s, c) != {} {
      DeactivateWeight(k, s.store, CheckExecution(s.gov, c.now, c.op.admin.executor, c.op.admin.id).value.action.id);
    }
  }

  lemma AdminRetires(s: State, now: nat, op: AdminOp)
    ensures var after := AdminStep(s, now, op).store;
      if RetiredBy(s, Call(now, OnAdmin(op))) == {} then after == s.store
      else
        && op.Executing? && CheckExecution(s.gov, now, op.executor, op.id).Ok?
        && var action := CheckExecution(s.gov, now, op.executor, op.id).value.action;
        && action.RetireWaste? && RetiredBy(s, Call(now, OnAdmin(op))) == {action.id}
        && DeactivateWaste(s.store, action.id).Ok? && after == DeactivateWaste(s.store, action.id).value
  {}

  lemma QualityWeight(k: Kind, s: State, now: nat, op: Q.QualityOp)
    ensures TotalWeight(k, Q.QualityStep(s, now, op).store.wastes) == TotalWeight(k, s.store.wastes)
  {
    var after := Q.QualityStep(s, now, op).store.wastes;
    if op.Mark? || op.Report? { Q.MarksOnlyMark(s, now, op); }
    MapSumSame(s.store.wastes, after, ActiveOf(k));
  }

  lemma StepWeightRuns(k: Kind, s: State, c: Call)
    requires IdsInv(s.store)
    ensures TotalWeight(k, Step(s, c).store.wastes) + WeightOut(k)(s, c)
            == TotalWeight(k, s.store.wastes) + WeightIn(k)(s, c)
  {
    match c.op
    case OnWaste(op) => StepWeight(k, s.reg, s.gov.admins, s.store, c.now, op);
    case OnAdmin(op) => AdminWeight(k, s, c);
    case _ => OtherWeight(k, s, c);
  }

  lemma OtherWeight(k: Kind, s: State, c: Call)
    requires !c.op.OnWaste? && !c.op.OnAdmin?
    ensures TotalWeight(k, Step(s, c).store.wastes) == TotalWeight(k, s.store.wastes)
    ensures WeightIn(k)(s, c) == WeightOut(k)(s, c) == 0
  {
    HeldByNone(k, s.store.wastes);
    match c.op
    case OnMaterial(op) => StepKeepsWastes(s, c.now, op);
    case OnIncentive(op) => IncentiveFrame(s, op);
    case OnQuality(op) => QualityWeight(k, s, c.now, op);
    case _ =>
  }

  /** Along every run the active weight of each type, and of all together, is what was registered (and what merges
      counted again) less what was deactivated; the scan over the ids finds exactly the total. */
  lemma {:induction false} WeightIsConserved(admin: Address, calls: seq<Call>, k: Kind)
    ensures var s := Run(Genesis(admin), calls);
      && TotalWeight(k, s.store.wastes) + Flow(Genesis(admin), calls, WeightOut(k))
         == Flow(Genesis(admin), calls, WeightIn(k))
      && ScannedWeight(s.store.wastes, s.store.count) == TotalWeight(None, s.store.wastes)
  {
    RunIsSound(admin, calls);
    ScanIsTotal(Run(Genesis(admin), calls).store);
    if calls != [] {
      WeightIsConserved(admin, calls[..|calls| - 1], k);
      RunIsSound(admin, calls[..|calls| - 1]);
      StepWeightRuns(k, Run(Genesis(admin), calls[..|calls| - 1]), calls[|calls| - 1]);
    }
  }

  // ---------- provenance ----------

  /** Along every run, whatever was called, each history is empty or ends at the present owner. */
  lemma HistoriesEndAtOwner(admin: Address, calls: seq<Call>, id: nat)
    ensures var st := Run(Genesis(admin), calls).store;
      id in st.wastes ==> EndsAt(HistoryOf(st, id), st.wastes[id].owner)
  {
    RunIsSound(admin, calls);
  }

  /** The wastes whose history the calls of a run broke, or that inherited a broken one. */
  ghost function Broken(s: State, calls: seq<Call>): set<nat> {
    if calls == [] then {}
    else
      var before, c := Run(s, calls[..|calls| - 1]), calls[|calls| - 1];
      var broken := Broken(s, calls[..|calls| - 1]);
      match c.op
      case OnWaste(op) => BrokenAfter(broken, before.reg, before.gov.admins, before.store, c.now, op)
      case _ => broken
  }

  lemma QuietKeepsBroken(broken: set<nat>, st: Store, after: Store)
    requires BrokenAre(broken, st) && Quiet(st, after)
    ensures BrokenAre(broken, after)
  {}

  lemma {:induction false} BrokenInRun(admin: Address, calls: seq<Call>)
    ensures BrokenAre(Broken(Genesis(admin), calls), Run(Genesis(admin), calls).store)
  {
    if calls != [] {
      var s, c := Run(Genesis(admin), calls[..|calls| - 1]), calls[|calls| - 1];
      var broken := Broken(Genesis(admin), calls[..|calls| - 1]);
      BrokenInRun(admin, calls[..|calls| - 1]);
      RunIsSound(admin, calls[..|calls| - 1]);
      if c.op.OnWaste? {
        StepKeepsBroken(broken, s.reg, s.gov.admins, s.store, c.now, c.op.waste);
      } else {
        OthersAreQuiet(s, c);
        QuietKeepsBroken(broken, s.store, Step(s, c).store);
      }
    }
  }

  /** Along every run the history of a waste is a chain if and only if no call broke it or handed it on broken. */
  lemma {:induction false} HistoryIsChainIff(admin: Address, calls: seq<Call>, id: nat)
    requires id in Run(Genesis(admin), calls).store.wastes
    ensures Linked(HistoryOf(Run(Genesis(admin), calls).store, id)) <==> id !in Broken(Genesis(admin), calls)
  {
    BrokenInRun(admin, calls);
  }

  /** The wastes with a merge in their ancestry. */
  ghost function Mixed(s: State, calls: seq<Call>): set<nat> {
    if calls == [] then {}
    else
      var before, c := Run(s, calls[..|calls| - 1]), calls[|calls| - 1];
      var mixed := Mixed(s, calls[..|calls| - 1]);
      match c.op
      case OnWaste(op) => MixedAfter(mixed, before.reg, before.gov.admins, before.store, c.now, op)
      case _ => mixed
  }

  ghost predicate KeepsChainsCall(mixed: set<nat>, s: State, c: Call) {
    c.op.OnWaste? ==> KeepsChains(mixed, s.reg, s.store, c.now, c.op.waste)
  }

  /** Every accepted call met its condition on the wastes that were unmerged when it was made. */
  ghost predicate ChainsKept(s: State, calls: seq<Call>) {
    calls == []
    || (ChainsKept(s, calls[..|calls| - 1])
        && KeepsChainsCall(Mixed(s, calls[..|calls| - 1]), Run(s, calls[..|calls| - 1]), calls[|calls| - 1]))
  }

  /** The histories of all unmerged wastes were chains after every call. */
  ghost predicate ChainsHeld(s: State, calls: seq<Call>) {
    ChainInv(Mixed(s, calls), Run(s, calls).store) && (calls == [] || ChainsHeld(s, calls[..|calls| - 1]))
  }

  lemma QuietKeepsChains(mixed: set<nat>, st: Store, after: Store)
    requires ChainInv(mixed, st) && Quiet(st, after)
    ensures ChainInv(mixed, after)
  {}

  /** The histories of unmerged wastes are chains throughout a run if and only if every accepted call of it met its
      condition. */
  lemma {:induction false} HistoriesAreChainsIff(admin: Address, calls: seq<Call>)
    ensures ChainsHeld(Genesis(admin), calls) <==> ChainsKept(Genesis(admin), calls)
  {
    if calls != [] {
      var s, c := Run(Genesis(admin), calls[..|calls| - 1]), calls[|calls| - 1];
      var mixed := Mixed(Genesis(admin), calls[..|calls| - 1]);
      HistoriesAreChainsIff(admin, calls[..|calls| - 1]);
      RunIsSound(admin, calls[..|calls| - 1]);
      if ChainsHeld(Genesis(admin), calls[..|calls| - 1]) {
        if c.op.OnWaste? {
          StepKeepsChainsIff(mixed, s.reg, s.gov.admins, s.store, c.now, c.op.waste);
        } else {
          OthersAreQuiet(s, c);
          QuietKeepsChains(mixed, s.store, Step(s, c).store);
        }
      }
    }
  }

  // ---------- fixed roles ----------

  /** A call that gives nobody a different role. */
  predicate KeepsRoles(s: State, c: Call) {
    match c.op
    case OnPeople(ChangeRole(a, role)) => a in s.reg.participants ==> s.reg.participants[a].role == role
    case OnPeople(Join(a, role)) => a in s.reg.participants ==> s.reg.participants[a].role == role
    case _ => true
  }

  ghost predicate RolesKept(reg: Registry, reg': Registry) {
    forall a :: a in reg.participants ==>
      a in reg'.participants && reg'.participants[a].role == reg.participants[a].role
  }

  lemma RewardKeepsRoles(reg: Registry, a: Address, delta: int, now: nat)
    ensures RolesKept(reg, Reward(reg, a, delta, now))
  {}

  lemma RolesTransitive(r0: Registry, r1: Registry, r2: Registry)
    requires RolesKept(r0, r1) && RolesKept(r1, r2)
    ensures RolesKept(r0, r2)
  {}

  lemma ThankedTwice(reg: Registry, a: Address, b: Address, delta: int, now: nat)
    ensures RolesKept(reg, Reward(Reward(reg, a, delta, now), b, delta, now))
  {
    RewardKeepsRoles(reg, a, delta, now);
    RewardKeepsRoles(Reward(reg, a, delta, now), b, delta, now);
    RolesTransitive(reg, Reward(reg, a, delta, now), Reward(Reward(reg, a, delta, now), b, delta, now));
  }

  lemma VerifyKeepsRoles(s: State, now: nat, id: nat, verifier: Address)
    requires VerifyMaterial(s, now, id, verifier).Ok?
    ensures RolesKept(s.reg, VerifyMaterial(s, now, id, verifier).value.reg)
  {
    var tokens := Discounted(s.store, id, Points(s.store.materials[id]).value);
    var done, m := VerifyOne(s, id, tokens).value, s.store.materials[id];
    VerifyOneBalances(s, id, tokens);
    ThankedTwice(done.reg, m.submitter, verifier, REP_VERIFY, now);
    RolesTransitive(s.reg, done.reg, VerifyMaterial(s, now, id, verifier).value.reg);
  }

  lemma MaterialKeepsRoles(s: State, now: nat, op: MaterialOp)
    ensures RolesKept(s.reg, MaterialStep(s, now, op).reg)
  {
    match op
    case Verify(id, verifier) => if VerifyMaterial(s, now, id, verifier).Ok? { VerifyKeepsRoles(s, now, id, verifier); }
    case VerifyMany(ids, verifier) => if VerifyMaterials(s, ids, verifier).Ok? { VerifyAllBalances(s, ids); }
    case _ =>
  }

  lemma PeopleKeepRoles(s: State, c: Call)
    requires KeepsRoles(s, c) && c.op.OnPeople?
    ensures RolesKept(s.reg, P.PeopleStep(s.gov.admins, s.reg, c.now, c.op.people))
  {}

  lemma ThanksKeepRoles(reg: Registry, st: Store, now: nat, op: WasteOp)
    ensures RolesKept(reg, Thanked(reg, st, now, op))
  {
    if op.Transfer1? { ThankedTwice(reg, op.from, op.to, REP_TRANSFER, now); }
  }

  lemma StepKeepsRoles(s: State, c: Call)
    requires KeepsRoles(s, c)
    ensures RolesKept(s.reg, Step(s, c).reg)
  {
    match c.op
    case OnPeople(_) => PeopleKeepRoles(s, c);
    case OnWaste(op) => ThanksKeepRoles(s.reg, s.store, c.now, op);
    case OnMaterial(op) => MaterialKeepsRoles(s, c.now, op);
    case OnIncentive(op) => Budgets.IncentiveTokens(s, op);
    case OnAdmin(op) => AdminFrame(s, c.now, op);
    case OnQuality(op) => QualityFrame(s, c.now, op);
    case _ =>
  }

  lemma ClimbsUnder(reg: Registry, reg': Registry, h: seq<Transfer>)
    requires RolesKept(reg, reg') && Climbs(reg, h)
    ensures Climbs(reg', h)
  {
    forall i | 0 <= i < |h| ensures Climb(reg', h[i]) { assert Climb(reg, h[i]); }
  }

  ghost predicate RouteCheckedCall(s: State, c: Call) {
    c.op.OnWaste? ==> RouteChecked(s.reg, s.gov.admins, s.store, c.now, c.op.waste)
  }

  lemma StepKeepsClimbInv(s: State, c: Call)
    requires IdsInv(s.store) && ClimbInv(s.reg, s.store)
    requires RouteCheckedCall(s, c) && KeepsRoles(s, c)
    ensures ClimbInv(Step(s, c).reg, Step(s, c).store)
  {
    var s' := Step(s, c);
    StepKeepsRoles(s, c);
    if c.op.OnWaste? { StepKeepsClimbs(s.reg, s.gov.admins, s.store, c.now, c.op.waste); }
    else { OthersAreQuiet(s, c); }
    assert ClimbInv(s.reg, s'.store);
    forall id | id in s'.store.wastes ensures Climbs(s'.reg, HistoryOf(s'.store, id)) {
      ClimbsUnder(s.reg, s'.reg, HistoryOf(s'.store, id));
    }
  }

  lemma {:induction false} HistoriesClimb(admin: Address, calls: seq<Call>)
    requires Along(Genesis(admin), calls, RouteCheckedCall) && Along(Genesis(admin), calls, KeepsRoles)
    ensures var s := Run(Genesis(admin), calls); ClimbInv(s.reg, s.store)
  {
    if calls != [] {
      HistoriesClimb(admin, calls[..|calls| - 1]);
      RunIsSound(admin, calls[..|calls| - 1]);
      StepKeepsClimbInv(Run(Genesis(admin), calls[..|calls| - 1]), calls[|calls| - 1]);
    }
  }

  /** With fixed roles and only route-checked transfers, a waste whose history is a chain changes hands at most twice
      and never returns to an earlier holder. */
  lemma {:induction false} HistoriesAreShort(admin: Address, calls: seq<Call>, id: nat)
    requires Along(Genesis(admin), calls, RouteCheckedCall) && Along(Genesis(admin), calls, KeepsRoles)
    requires id in Run(Genesis(admin), calls).store.wastes && id !in Broken(Genesis(admin), calls)
    ensures var h := HistoryOf(Run(Genesis(admin), calls).store, id); |h| <= 2 && Distinct(Holders(h))
  {
    HistoryIsChainIff(admin, calls, id);
    HistoriesClimb(admin, calls);
    var s := Run(Genesis(admin), calls);
    ClimbingChainIsShort(s.reg, HistoryOf(s.store, id));
  }

  // ---------- materials under fixed roles ----------

  lemma {:induction false} BatchKeepsMaterials(st: Store, now: nat, ids: seq<nat>, to: Address, lat: int, lon: int)
    requires forall id :: id in ids ==> id in st.wastes
    ensures var done := BatchMove(st, st.wastes, now, ids, to, lat, lon);
      done.materials == st.materials && done.transfers == st.transfers
  {
    if ids != [] { BatchKeepsMaterials(st, now, ids[..|ids| - 1], to, lat, lon); }
  }

  lemma {:induction false} ChildrenKeepMaterials(st: Store, parent: Waste, weights: seq<nat>, h: seq<Transfer>)
    ensures var done := Children(st, parent, weights, h);
      done.materials == st.materials && done.transfers == st.transfers
  {
    if weights != [] { ChildrenKeepMaterials(st, parent, weights[..|weights| - 1], h); }
  }

  ghost predicate SameMaterials(st: Store, after: Store) {
    after.materials == st.materials && after.transfers == st.transfers
  }

  lemma WasteKeepsMaterials(reg: Registry, admins: seq<Address>, st: Store, now: nat, op: WasteOp)
    ensures SameMaterials(st, WasteStep(reg, admins, st, now, op))
  {
    if Mints(op) { MintKeepsMaterials(reg, st, now, op); }
    else if Moves(op) { MoveKeepsMaterials(reg, admins, st, now, op); }
    else { EditThins(reg, admins, st, now, op); }
  }

  lemma MintKeepsMaterials(reg: Registry, st: Store, now: nat, op: WasteOp)
    requires Mints(op)
    ensures SameMaterials(st, MintStep(reg, st, now, op))
  {
    match op
    case Split(id, owner, weights) =>
      if SplitWaste(st, id, owner, weights).Ok? {
        SplitShape(st, id, owner, weights);
        ChildrenKeepMaterials(st, st.wastes[id], weights, HistoryOf(st, id));
      }
    case Merge(ids, owner) => if MergeWastes(st, ids, owner).Ok? { MergeShape(st, ids, owner); }
    case _ =>
  }

  lemma MoveKeepsMaterials(reg: Registry, admins: seq<Address>, st: Store, now: nat, op: WasteOp)
    requires Moves(op)
    ensures SameMaterials(st, MoveStep(reg, admins, st, now, op))
  {
    match op
    case TransferMany(ids, to, lat, lon) =>
      if BatchTransfer(reg, st, now, ids, to, lat, lon).Ok? {
        BatchCheckPassed(reg, st.wastes, now, ids, to);
        BatchKeepsMaterials(st, now, ids, to, lat, lon);
      }
    case _ =>
  }

  lemma QualityKeepsMaterials(s: State, now: nat, op: Q.QualityOp)
    ensures SameMaterials(s.store, Q.QualityStep(s, now, op).store)
  {
    if op.Mark? || op.Report? { Q.MarksOnlyMark(s, now, op); }
  }

  lemma OthersKeepMaterials(s: State, c: Call)
    requires !c.op.OnMaterial?
    ensures SameMaterials(s.store, Step(s, c).store)
  {
    match c.op
    case OnWaste(op) => WasteKeepsMaterials(s.reg, s.gov.admins, s.store, c.now, op);
    case OnIncentive(op) => IncentiveFrame(s, op);
    case OnAdmin(op) => AdminFrame(s, c.now, op);
    case OnQuality(op) => QualityKeepsMaterials(s, c.now, op);
    case _ =>
  }

  lemma ChainsUnder(reg: Registry, reg': Registry, st: Store)
    requires RolesKept(reg, reg') && MaterialChains(reg, st)
    ensures MaterialChains(reg', st)
  {
    forall id | id in st.materials ensures GoodChain(reg', st, id) {
      assert GoodChain(reg, st, id);
      ClimbsUnder(reg, reg', Lookup(st.transfers, id, []));
    }
  }

  lemma SameChains(reg: Registry, st: Store, after: Store)
    requires SameMaterials(st, after) && MaterialChains(reg, st)
    ensures MaterialChains(reg, after)
  {
    forall id | id in after.materials ensures GoodChain(reg, after, id) { assert GoodChain(reg, st, id); }
  }

  lemma {:induction false} MaterialsClimb(admin: Address, calls: seq<Call>)
    requires Along(Genesis(admin), calls, KeepsRoles)
    ensures var s := Run(Genesis(admin), calls); MaterialChains(s.reg, s.store)
  {
    if calls != [] {
      var s, c := Run(Genesis(admin), calls[..|calls| - 1]), calls[|calls| - 1];
      MaterialsClimb(admin, calls[..|calls| - 1]);
      RunIsSound(admin, calls[..|calls| - 1]);
      if c.op.OnMaterial? { StepKeepsMaterialChains(s, c.now, c.op.material); }
      else { OthersKeepMaterials(s, c); SameChains(s.reg, s.store, Step(s, c).store); }
      StepKeepsRoles(s, c);
      ChainsUnder(s.reg, Step(s, c).reg, Step(s, c).store);
    }
  }

  /** If roles never change, every accepted distribution of every run pays out exactly what it takes from the
      budget if and only if its reward fits 64 bits. */
  lemma FixedRolesPayExactly(admin: Address, calls: seq<Call>, m: nat, id: nat, a: Address, multiplier: nat)
    requires Along(Genesis(admin), calls, KeepsRoles)
    requires DistributeRewards(Run(Genesis(admin), calls), m, id, a, multiplier, true, true).Ok?
    ensures var s := Run(Genesis(admin), calls);
      && m in s.store.materials && id in s.funds.incentives
      && var r := DistributeRewards(s, m, id, a, multiplier, true, true).value;
      && id in r.0.funds.incentives
      && (Payout(r.1) == s.funds.incentives[id].remaining - r.0.funds.incentives[id].remaining
          <==> Owed(s, m, id, multiplier) <= U64_MAX)
  {
    RunIsSound(admin, calls);
    MaterialsClimb(admin, calls);
    FixedRolesPayTheCharge(Run(Genesis(admin), calls), m, id, a, multiplier);
  }
}
