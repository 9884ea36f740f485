/** Whole runs of the contract: every call of every area, one after the other, from initialisation. */
module Runs {
  import opened Prelude
  import opened Model
  import opened Custody
  import opened Rewards
  import opened Incentives
  import C = Carbon
  import opened Governance
  import P = Participants
  import Q = Quality

  datatype Op =
    | OnPeople(people: P.PeopleOp)
    | OnWaste(waste: WasteOp)
    | OnMaterial(material: MaterialOp)
    | OnIncentive(incentive: IncentiveOp)
    | OnCarbon(carbon: C.CarbonOp)
    | OnAdmin(admin: AdminOp)
    | OnQuality(quality: Q.QualityOp)

  /** One call and the ledger time it runs at. */
  datatype Call = Call(now: nat, op: Op)

  /** A single transfer also thanks both parties. */
  function Thanked(reg: Registry, st: Store, now: nat, op: WasteOp): Registry {
    match op
    case Transfer1(id, from, to, lat, lon) =>
      (match TransferWaste(reg, st, now, id, from, to, lat, lon) case Ok(r) => r.0 case Err(_) => reg)
    case _ => reg
  }

  /** Registering a waste opens its recycler's statistics. */
  function Opened(s: State, now: nat, op: WasteOp): map<Address, Stats> {
    match op
    case Recycle(minWeight, ttl, wt, w, a, lat, lon) =>
      if RecycleWaste(s.reg, s.store, minWeight, ttl, now, wt, w, a, lat, lon).Ok? then Touch(s.stats, a) else s.stats
    case _ => s.stats
  }

  function WasteCall(s: State, now: nat, op: WasteOp): State {
    s.(store := WasteStep(s.reg, s.gov.admins, s.store, now, op),
       reg := Thanked(s.reg, s.store, now, op), stats := Opened(s, now, op))
  }

  function CarbonCall(s: State, op: C.CarbonOp): State {
    var r := C.CarbonStep(s.stats, s.market, op);
    s.(stats := r.0, market := r.1)
  }

  function Step(s: State, c: Call): State {
    match c.op
    case OnPeople(op) => s.(reg := P.PeopleStep(s.gov.admins, s.reg, c.now, op))
    case OnWaste(op) => WasteCall(s, c.now, op)
    case OnMaterial(op) => MaterialStep(s, c.now, op)
    case OnIncentive(op) => IncentiveStep(s, op)
    case OnCarbon(op) => CarbonCall(s, op)
    case OnAdmin(op) => AdminStep(s, c.now, op)
    case OnQuality(op) => Q.QualityStep(s, c.now, op)
  }

  function Run(s: State, calls: seq<Call>): State {
    if calls == [] then s else Step(Run(s, calls[..|calls| - 1]), calls[|calls| - 1])
  }

  /** The contract right after initialisation: one administrator and the default percentages. */
  function Genesis(admin: Address): State {
    State(Registry(map[], []),
          Store(0, map[], map[], map[], map[], map[], 0, map[]),
          map[], Market(0, 0, map[], []),
          Funds(0, RewardConfig(5, 50), 0, map[]),
          Gov([admin], 1, 0, map[]),
          map[], map[], [])
  }

  /** Every call of the run met a condition in the state it found. */
  ghost predicate Along(s: State, calls: seq<Call>, condition: (State, Call) -> bool) {
    calls == []
    || (Along(s, calls[..|calls| - 1], condition) && condition(Run(s, calls[..|calls| - 1]), calls[|calls| - 1]))
  }

  /** What the calls of a run amount to together. */
  ghost function Flow(s: State, calls: seq<Call>, amount: (State, Call) -> nat): nat {
    if calls == [] then 0
    else Flow(s, calls[..|calls| - 1], amount) + amount(Run(s, calls[..|calls| - 1]), calls[|calls| - 1])
  }

  // ---------- what each area leaves alone ----------

  lemma VerifyOneTouches(s: State, id: nat, tokens: nat)
    requires id in s.store.materials && VerifyOne(s, id, tokens).Ok?
    ensures MaterialTouches(s, VerifyOne(s, id, tokens).value)
  {}

  lemma {:induction false} VerifyAllTouches(s: State, ids: seq<nat>)
    requires VerifyAll(s, ids).Ok?
    ensures MaterialTouches(s, VerifyAll(s, ids).value)
  {
    if ids != [] {
      VerifyAllTouches(s, ids[..|ids| - 1]);
      var done, id := VerifyAll(s, ids[..|ids| - 1]).value, ids[|ids| - 1];
      if id in done.store.materials { VerifyOneTouches(done, id, Points(done.store.materials[id]).value); }
    }
  }

  ghost predicate MaterialTouches(s: State, s': State) {
    && s' == s.(reg := s'.reg, store := s'.store, stats := s'.stats, market := s'.market, funds := s'.funds)
    && s'.funds == s.funds.(totalTokens := s'.funds.totalTokens)
    && (s.market.totalCarbon <= U128_MAX ==> s'.market.totalCarbon <= U128_MAX)
  }

  lemma MaterialFrame(s: State, now: nat, op: MaterialOp)
    ensures MaterialTouches(s, MaterialStep(s, now, op))
  {
    match op
    case Verify(id, verifier) =>
      if VerifyMaterial(s, now, id, verifier).Ok? {
        VerifyOneTouches(s, id, Discounted(s.store, id, Points(s.store.materials[id]).value));
      }
    case VerifyMany(ids, verifier) =>
      if VerifyMaterials(s, ids, verifier).Ok? { VerifyAllTouches(s, ids); }
    case _ =>
  }

  ghost predicate IncentiveTouches(s: State, s': State) {
    s' == s.(reg := s'.reg, funds := s'.funds) && s'.funds.config == s.funds.config
  }

  lemma SettleTouches(s: State, m: nat, id: nat, reward: nat, paysOut: bool)
    requires m in s.store.materials && id in s.funds.incentives && Low64(reward) <= s.funds.incentives[id].remaining
    requires Settle(s, m, id, reward, paysOut).Ok?
    ensures IncentiveTouches(s, Settle(s, m, id, reward, paysOut).value.0)
  {}

  lemma IncentiveFrame(s: State, op: IncentiveOp)
    ensures IncentiveTouches(s, IncentiveStep(s, op))
  {
    match op
    case Distribute(m, id, a, multiplier, tokenSet, paysOut) =>
      var reward := CheckDistribution(s, m, id, a, multiplier, tokenSet);
      if reward.Ok? && Settle(s, m, id, reward.value, paysOut).Ok? { SettleTouches(s, m, id, reward.value, paysOut); }
    case _ => BudgetFrame(s, op);
  }

  lemma BudgetFrame(s: State, op: IncentiveOp)
    requires !op.Distribute?
    ensures IncentiveTouches(s, IncentiveStep(s, op))
  {}

  /** An administrator's call, if it reaches the store at all, retires one active waste. */
  ghost predicate AdminTouches(s: State, s': State) {
    && s' == s.(store := s'.store, funds := s'.funds, gov := s'.gov)
    && s'.funds == s.funds.(config := s'.funds.config)
    && (s'.store == s.store
        || exists id :: DeactivateWaste(s.store, id).Ok? && s'.store == DeactivateWaste(s.store, id).value)
  }

  lemma AdminFrame(s: State, now: nat, op: AdminOp)
    ensures AdminTouches(s, AdminStep(s, now, op))
  {
    if op.Executing? && ExecuteProposal(s, now, op.executor, op.id).Ok? {
      var action := CheckExecution(s.gov, now, op.executor, op.id).value.action;
      if action.RetireWaste? { assert DeactivateWaste(s.store, action.id).Ok?; }
    }
  }

  lemma QualityFrame(s: State, now: nat, op: Q.QualityOp)
    ensures var s' := Q.QualityStep(s, now, op);
      s' == s.(store := s'.store, stats := s'.stats, goals := s'.goals, reports := s'.reports,
               contaminated := s'.contaminated)
  {}
}
