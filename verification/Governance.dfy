/** Administrators, the reward percentages, and multi-signature proposals. */
module Governance {
  import opened Prelude
  import opened Model
  import opened Custody

  const PROPOSAL_TTL_SECS: nat := 7 * 24 * 60 * 60

  // ---------- percentages ----------

  predicate Affordable(cfg: RewardConfig) { cfg.collector + cfg.owner <= 100 }

  function SetPercentages(admins: seq<Address>, admin: Address, collector: nat, owner: nat): Answer<RewardConfig> {
    if admin !in admins then Err(Unauthorized)
    else
      :- Need(collector + owner <= 100, InvalidPercentage);
      Ok(RewardConfig(collector, owner))
  }

  // ---------- administrators ----------

  function AddAdmin(gov: Gov, current: Address, added: Address): Answer<Gov> {
    if current !in gov.admins then Err(Unauthorized)
    else
      Ok(if added in gov.admins then gov else gov.(admins := gov.admins + [added]))
  }

  function RemoveAdmin(gov: Gov, current: Address, removed: Address): Answer<Gov> {
    if current !in gov.admins then Err(Unauthorized)
    else
      :- Need(|gov.admins| > 1, LastAdmin);
      var kept := Without(gov.admins, {removed});
      :- Need(|kept| != |gov.admins|, AdminNotFound);
      Ok(gov.(admins := kept))
  }

  function TransferAdmin(gov: Gov, current: Address, admins: seq<Address>): Answer<Gov> {
    if current !in gov.admins then Err(Unauthorized)
    else
      :- Need(admins != [], AdminListEmpty);
      Ok(gov.(admins := admins))
  }

  function SetThreshold(gov: Gov, admin: Address, threshold: nat): Answer<Gov> {
    if admin !in gov.admins then Err(Unauthorized)
    else
      :- Need(1 <= threshold <= |gov.admins|, BadThreshold);
      Ok(gov.(threshold := threshold))
  }

  // ---------- proposals ----------

  function Propose(gov: Gov, now: nat, proposer: Address, action: AdminAction): Answer<(Gov, nat)> {
    if proposer !in gov.admins then Err(Unauthorized)
    else
      :- Need(gov.proposalCount < U64_MAX, Overflow);
      var id: nat := gov.proposalCount + 1;
      var p := Proposal(action, proposer, [proposer], false, now);
      Ok((gov.(proposalCount := id, proposals := gov.proposals[id := p]), id))
  }

  function ApproveProposal(gov: Gov, now: nat, approver: Address, id: nat): Answer<Gov> {
    if approver !in gov.admins then Err(Unauthorized)
    else
      var p :- Find(gov.proposals, id, ProposalNotFound);
      :- Need(!p.executed, ProposalExecuted);
      :- Need(p.createdAt + PROPOSAL_TTL_SECS <= U64_MAX, Overflow);
      :- Need(now <= p.createdAt + PROPOSAL_TTL_SECS, ProposalExpired);
      :- Need(approver !in p.approvers, AlreadyApproved);
      Ok(gov.(proposals := gov.proposals[id := p.(approvers := p.approvers + [approver])]))
  }

  /** What executing an action does; it may still fail. */
  function Apply(s: State, action: AdminAction): Answer<State> {
    match action
    case ReplaceAdmins(admins) =>
      :- Need(admins != [], AdminListEmpty);
      Ok(s.(gov := s.gov.(admins := admins)))
    case ChangePercentages(collector, owner) =>
      :- Need(collector + owner <= 100, InvalidPercentage);
      Ok(s.(funds := s.funds.(config := RewardConfig(collector, owner))))
    case RetireWaste(id) =>
      var st :- DeactivateWaste(s.store, id);
      Ok(s.(store := st))
  }

  /** Everything the contract demands before it applies a proposal. */
  function CheckExecution(gov: Gov, now: nat, executor: Address, id: nat): Answer<Proposal> {
    if executor !in gov.admins then Err(Unauthorized)
    else
      var p :- Find(gov.proposals, id, ProposalNotFound);
      :- Need(!p.executed, ProposalExecuted);
      :- Need(p.createdAt + PROPOSAL_TTL_SECS <= U64_MAX, Overflow);
      :- Need(now <= p.createdAt + PROPOSAL_TTL_SECS, ProposalExpired);
      :- Need(|p.approvers| >= gov.threshold, InsufficientApprovals);
      Ok(p)
  }

  function ExecuteProposal(s: State, now: nat, executor: Address, id: nat): Answer<State> {
    var p :- CheckExecution(s.gov, now, executor, id);
    var done :- Apply(s, p.action);
    Ok(done.(gov := done.gov.(proposals := done.gov.proposals[id := p.(executed := true)])))
  }

  datatype AdminOp =
    | SetBoth(admin: Address, collector: nat, owner: nat)
    | SetCollector(admin: Address, collector: nat)
    | SetOwner(admin: Address, owner: nat)
    | Add(current: Address, added: Address)
    | Remove(current: Address, removed: Address)
    | HandOver(current: Address, admins: seq<Address>)
    | Threshold(admin: Address, threshold: nat)
    | Proposing(proposer: Address, action: AdminAction)
    | Approving(approver: Address, id: nat)
    | Executing(executor: Address, id: nat)

  function AdminStep(s: State, now: nat, op: AdminOp): State {
    match op
    case SetBoth(a, c, o) => Configured(s, SetPercentages(s.gov.admins, a, c, o))
    case SetCollector(a, c) => Configured(s, SetPercentages(s.gov.admins, a, c, s.funds.config.owner))
    case SetOwner(a, o) => Configured(s, SetPercentages(s.gov.admins, a, s.funds.config.collector, o))
    case Executing(a, id) => (match ExecuteProposal(s, now, a, id) case Ok(s') => s' case Err(_) => s)
    case _ => s.(gov := GovStep(s.gov, now, op))
  }

  function Configured(s: State, cfg: Answer<RewardConfig>): State {
    match cfg case Ok(c) => s.(funds := s.funds.(config := c)) case Err(_) => s
  }

  function GovStep(gov: Gov, now: nat, op: AdminOp): Gov {
    match op
    case Add(a, b) => (match AddAdmin(gov, a, b) case Ok(g) => g case Err(_) => gov)
    case Remove(a, b) => (match RemoveAdmin(gov, a, b) case Ok(g) => g case Err(_) => gov)
    case HandOver(a, list) => (match TransferAdmin(gov, a, list) case Ok(g) => g case Err(_) => gov)
    case Threshold(a, n) => (match SetThreshold(gov, a, n) case Ok(g) => g case Err(_) => gov)
    case Proposing(a, action) => (match Propose(gov, now, a, action) case Ok(r) => r.0 case Err(_) => gov)
    case Approving(a, id) => (match ApproveProposal(gov, now, a, id) case Ok(g) => g case Err(_) => gov)
    case _ => gov
  }

  // ---------- what every call keeps ----------

  ghost predicate GovInv(gov: Gov) {
    && gov.threshold >= 1
    && (forall id :: id in gov.proposals ==> 1 <= id <= gov.proposalCount)
    && (forall id :: id in gov.proposals ==> Distinct(gov.proposals[id].approvers))
    && (forall id :: id in gov.proposals && gov.proposals[id].executed ==> gov.proposals[id].approvers != [])
  }

  lemma GovStepKeeps(gov: Gov, now: nat, op: AdminOp)
    requires GovInv(gov)
    ensures GovInv(GovStep(gov, now, op))
  {
    match op
    case Approving(a, id) =>
      if ApproveProposal(gov, now, a, id).Ok? { DistinctSnoc(gov.proposals[id].approvers, a); }
    case _ =>
  }

  lemma StepKeepsGov(s: State, now: nat, op: AdminOp)
    requires GovInv(s.gov)
    ensures GovInv(AdminStep(s, now, op).gov)
  {
    match op
    case Executing(a, id) => if ExecuteProposal(s, now, a, id).Ok? { ExecuteKeepsGov(s, now, a, id); }
    case _ => GovStepKeeps(s.gov, now, op);
  }

  lemma ExecuteKeepsGov(s: State, now: nat, a: Address, id: nat)
    requires GovInv(s.gov) && ExecuteProposal(s, now, a, id).Ok?
    ensures GovInv(ExecuteProposal(s, now, a, id).value.gov)
  {
    var p := s.gov.proposals[id];
    MarkKeepsGov(s.gov, Apply(s, p.action).value.gov.admins, id);
  }

  lemma MarkKeepsGov(gov: Gov, admins: seq<Address>, id: nat)
    requires GovInv(gov) && id in gov.proposals && gov.proposals[id].approvers != []
    ensures GovInv(gov.(admins := admins, proposals := gov.proposals[id := gov.proposals[id].(executed := true)]))
  {}

  lemma StepKeepsConfig(s: State, now: nat, op: AdminOp)
    requires Affordable(s.funds.config)
    ensures Affordable(AdminStep(s, now, op).funds.config)
  {}

  // ---------- what happens to one proposal ----------

  predicate Executes(s: State, now: nat, op: AdminOp, id: nat) {
    op.Executing? && op.id == id && ExecuteProposal(s, now, op.executor, id).Ok?
  }

  /** An accepted execution, spelled out. */
  lemma ExecutedIs(s: State, now: nat, op: AdminOp)
    requires op.Executing?
    ensures var s' := AdminStep(s, now, op);
      if ExecuteProposal(s, now, op.executor, op.id).Ok? then
        && op.id in s.gov.proposals && !s.gov.proposals[op.id].executed
        && s'.gov.proposals == s.gov.proposals[op.id := s.gov.proposals[op.id].(executed := true)]
      else s' == s
  {}

  /** The caller of an accepted proposal or approval of `id`. */
  predicate Signs(s: State, now: nat, op: AdminOp, id: nat, a: Address) {
    || (op.Proposing? && op.proposer == a && id == s.gov.proposalCount + 1 && Propose(s.gov, now, a, op.action).Ok?)
    || (op.Approving? && op.approver == a && op.id == id && ApproveProposal(s.gov, now, a, id).Ok?)
  }

  /** An executed proposal never changes again. */
  lemma ExecutedIsFinal(s: State, now: nat, op: AdminOp, id: nat)
    requires GovInv(s.gov) && id in s.gov.proposals && s.gov.proposals[id].executed
    ensures id in AdminStep(s, now, op).gov.proposals
    ensures AdminStep(s, now, op).gov.proposals[id] == s.gov.proposals[id]
    ensures !Executes(s, now, op, id)
  {
    if op.Executing? { ExecutedIs(s, now, op); }
  }

  /** What the action asks for is so, and nothing else changed but the mark on the proposal. */
  ghost predicate Effected(s: State, s': State, id: nat, action: AdminAction) {
    && id in s.gov.proposals && Marked(s.gov, s'.gov, id)
    && match action
       case ReplaceAdmins(admins) => admins != [] && s'.gov.admins == admins && s' == s.(gov := s'.gov)
       case ChangePercentages(collector, owner) =>
         && collector + owner <= 100 && s'.gov.admins == s.gov.admins
         && s'.funds.config.collector == collector && s'.funds.config.owner == owner
         && s' == s.(gov := s'.gov, funds := s.funds.(config := s'.funds.config))
       case RetireWaste(waste) =>
         && s'.gov.admins == s.gov.admins
         && s' == s.(gov := s'.gov, store := s.store.(wastes := s'.store.wastes))
         && waste in s.store.wastes && s.store.wastes[waste].active
         && s'.store.wastes == s.store.wastes[waste := s.store.wastes[waste].(active := false)]
  }

  /** One more proposal is executed; the others, the threshold and the numbering are as they were. */
  ghost predicate Marked(gov: Gov, gov': Gov, id: nat)
    requires id in gov.proposals
  {
    && gov'.threshold == gov.threshold && gov'.proposalCount == gov.proposalCount
    && gov'.proposals == gov.proposals[id := gov.proposals[id].(executed := true)]
  }

  /** A proposal becomes executed only by an accepted execution: by an administrator, within seven days of its
      creation, with at least `threshold` different approvers; and then what it proposed is so, its record is marked,
      and nothing else has changed. */
  lemma ExecutionIsEarned(s: State, now: nat, op: AdminOp, id: nat)
    requires GovInv(s.gov) && Executes(s, now, op, id)
    ensures id in s.gov.proposals && !s.gov.proposals[id].executed
    ensures var p := s.gov.proposals[id];
      && op.executor in s.gov.admins && now <= p.createdAt + 604_800
      && |p.approvers| >= s.gov.threshold >= 1 && Distinct(p.approvers)
      && Effected(s, AdminStep(s, now, op), id, p.action)
  {}

  /** Nothing but its own execution marks a proposal executed. */
  lemma OnlyExecutionExecutes(s: State, now: nat, op: AdminOp, id: nat)
    requires id in AdminStep(s, now, op).gov.proposals && AdminStep(s, now, op).gov.proposals[id].executed
    requires !(id in s.gov.proposals && s.gov.proposals[id].executed)
    ensures Executes(s, now, op, id)
  {}

  /** Approvers are only added, one at a time, each signing as an administrator; the rest of the record stays. */
  lemma ApproversSign(s: State, now: nat, op: AdminOp, id: nat, a: Address)
    requires GovInv(s.gov)
    requires id in AdminStep(s, now, op).gov.proposals && a in AdminStep(s, now, op).gov.proposals[id].approvers
    requires !(id in s.gov.proposals && a in s.gov.proposals[id].approvers)
    ensures Signs(s, now, op, id, a) && a in s.gov.admins
  {
    if op.Executing? { ExecutedIs(s, now, op); }
  }

  // ---------- removing administrators ----------

  /** Removal leaves an administrator if and only if somebody else is on the list: a list that names one
      address twice passes the length guard and still loses its last administrator. */
  lemma RemovalLeavesSomeone(gov: Gov, current: Address, removed: Address)
    requires RemoveAdmin(gov, current, removed).Ok?
    ensures RemoveAdmin(gov, current, removed).value.admins != [] <==> exists a :: a in gov.admins && a != removed
  {
    var kept := RemoveAdmin(gov, current, removed).value.admins;
    assert forall a :: a in kept <==> a in gov.admins && a !in {removed};
    if kept != [] { assert kept[0] in gov.admins && kept[0] != removed; }
  }
}
