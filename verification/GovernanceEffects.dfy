/** Administration once more: which calls go through, and what each leaves of administrators, percentages and
    proposals. */
module GovernanceEffects {
  import opened Prelude
  import opened Model
  import opened Governance

  /** The action can take effect now. */
  ghost predicate Possible(s: State, action: AdminAction) {
    match action
    case ReplaceAdmins(admins) => admins != []
    case ChangePercentages(collector, owner) => collector + owner <= 100
    case RetireWaste(waste) => waste in s.store.wastes && s.store.wastes[waste].active
  }

  /** An open proposal, not older than seven days. */
  predicate Open(gov: Gov, now: nat, id: nat) {
    && id in gov.proposals && !gov.proposals[id].executed
    && now <= gov.proposals[id].createdAt + 604_800 <= U64_MAX
  }

  ghost predicate Admits(s: State, now: nat, op: AdminOp) {
    match op
    case SetBoth(a, collector, owner) => a in s.gov.admins && collector + owner <= 100
    case SetCollector(a, collector) => a in s.gov.admins && collector + s.funds.config.owner <= 100
    case SetOwner(a, owner) => a in s.gov.admins && s.funds.config.collector + owner <= 100
    case Add(a, added) => a in s.gov.admins
    case Remove(a, removed) => a in s.gov.admins && |s.gov.admins| > 1 && removed in s.gov.admins
    case HandOver(a, admins) => a in s.gov.admins && admins != []
    case Threshold(a, n) => a in s.gov.admins && 1 <= n <= |s.gov.admins|
    case Proposing(a, action) => a in s.gov.admins && s.gov.proposalCount < U64_MAX
    case Approving(a, id) => a in s.gov.admins && Open(s.gov, now, id) && a !in s.gov.proposals[id].approvers
    case Executing(a, id) =>
      && a in s.gov.admins && Open(s.gov, now, id) && |s.gov.proposals[id].approvers| >= s.gov.threshold
      && Possible(s, s.gov.proposals[id].action)
  }

  ghost predicate Percentages(s: State, s': State, collector: nat, owner: nat) {
    && s' == s.(funds := s.funds.(config := s'.funds.config))
    && s'.funds.config.collector == collector && s'.funds.config.owner == owner
  }

  /** Only the list of administrators. */
  ghost predicate Admins(s: State, s': State, admins: seq<Address>) {
    s'.gov.admins == admins && s' == s.(gov := s.gov.(admins := s'.gov.admins))
  }

  ghost predicate Leaves(s: State, now: nat, op: AdminOp, s': State) {
    match op
    case SetBoth(_, collector, owner) => Percentages(s, s', collector, owner)
    case SetCollector(_, collector) => Percentages(s, s', collector, s.funds.config.owner)
    case SetOwner(_, owner) => Percentages(s, s', s.funds.config.collector, owner)
    case Add(_, added) => Admins(s, s', if added in s.gov.admins then s.gov.admins else s.gov.admins + [added])
    case Remove(_, removed) => Admins(s, s', Without(s.gov.admins, {removed}))
    case HandOver(_, admins) => Admins(s, s', admins)
    case Threshold(_, n) => s'.gov.threshold == n && s' == s.(gov := s.gov.(threshold := s'.gov.threshold))
    case Proposing(a, action) =>
      var id := s.gov.proposalCount + 1;
      && s' == s.(gov := s.gov.(proposalCount := id, proposals := s'.gov.proposals))
      && s'.gov.proposals == s.gov.proposals[id := Proposal(action, a, [a], false, now)]
    case Approving(a, id) =>
      && id in s.gov.proposals
      && var p := s.gov.proposals[id];
      && s' == s.(gov := s.gov.(proposals := s'.gov.proposals))
      && s'.gov.proposals == s.gov.proposals[id := p.(approvers := p.approvers + [a])]
    case Executing(_, id) => id in s.gov.proposals && Effected(s, s', id, s.gov.proposals[id].action)
  }

  lemma {:induction false} WithoutShrinksIff<T(!new)>(s: seq<T>, x: T)
    ensures |Without(s, {x})| != |s| <==> x in s
  {
    if s != [] {
      WithoutShrinksIff(s[..|s| - 1], x);
      assert s == s[..|s| - 1] + [s[|s| - 1]];
    }
  }

  lemma ListIs(s: State, now: nat, op: AdminOp)
    requires op.Add? || op.Remove? || op.HandOver? || op.Threshold?
    ensures if Admits(s, now, op) then Leaves(s, now, op, AdminStep(s, now, op)) else AdminStep(s, now, op) == s
  {
    if op.Remove? { WithoutShrinksIff(s.gov.admins, op.removed); }
  }

  lemma SharesAre(s: State, now: nat, op: AdminOp)
    requires op.SetBoth? || op.SetCollector? || op.SetOwner?
    ensures if Admits(s, now, op) then Leaves(s, now, op, AdminStep(s, now, op)) else AdminStep(s, now, op) == s
  {}

  lemma VoteIs(s: State, now: nat, op: AdminOp)
    requires op.Proposing? || op.Approving?
    ensures if Admits(s, now, op) then Leaves(s, now, op, AdminStep(s, now, op)) else AdminStep(s, now, op) == s
  {}

  lemma ExecutionIs(s: State, now: nat, a: Address, id: nat)
    ensures ExecuteProposal(s, now, a, id).Ok? <==> Admits(s, now, Executing(a, id))
    ensures ExecuteProposal(s, now, a, id).Ok? ==>
      Leaves(s, now, Executing(a, id), ExecuteProposal(s, now, a, id).value)
  {}

  /** Every administrator's call goes through exactly when it is admitted, and then leaves exactly this. */
  lemma StepIs(s: State, now: nat, op: AdminOp)
    ensures if Admits(s, now, op) then Leaves(s, now, op, AdminStep(s, now, op)) else AdminStep(s, now, op) == s
  {
    match op
    case Executing(a, id) => ExecutionIs(s, now, a, id);
    case Proposing(_, _) => VoteIs(s, now, op);
    case Approving(_, _) => VoteIs(s, now, op);
    case SetBoth(_, _, _) => SharesAre(s, now, op);
    case SetCollector(_, _) => SharesAre(s, now, op);
    case SetOwner(_, _) => SharesAre(s, now, op);
    case _ => ListIs(s, now, op);
  }

  // ---------- refusals ----------

  /** An error a refused call may answer names a check that failed. */
  ghost predicate Blames(s: State, now: nat, op: AdminOp, e: Error) {
    match op
    case SetBoth(a, collector, owner) => Stranger(s, a, e) || (e == InvalidPercentage && collector + owner > 100)
    case SetCollector(a, collector) =>
      Stranger(s, a, e) || (e == InvalidPercentage && collector + s.funds.config.owner > 100)
    case SetOwner(a, owner) => Stranger(s, a, e) || (e == InvalidPercentage && s.funds.config.collector + owner > 100)
    case Add(a, _) => Stranger(s, a, e)
    case Remove(a, removed) =>
      || Stranger(s, a, e) || (e == LastAdmin && |s.gov.admins| <= 1)
      || (e == AdminNotFound && removed !in s.gov.admins)
    case HandOver(a, admins) => Stranger(s, a, e) || (e == AdminListEmpty && admins == [])
    case Threshold(a, n) => Stranger(s, a, e) || (e == BadThreshold && !(1 <= n <= |s.gov.admins|))
    case Proposing(a, _) => Stranger(s, a, e) || (e == Overflow && s.gov.proposalCount >= U64_MAX)
    case Approving(a, id) =>
      || Stranger(s, a, e) || Shut(s.gov, now, id, e)
      || (e == AlreadyApproved && id in s.gov.proposals && a in s.gov.proposals[id].approvers)
    case Executing(a, id) =>
      || Stranger(s, a, e) || Shut(s.gov, now, id, e)
      || (id in s.gov.proposals
          && ((e == InsufficientApprovals && |s.gov.proposals[id].approvers| < s.gov.threshold)
              || Impossible(s, s.gov.proposals[id].action, e)))
  }

  predicate Stranger(s: State, a: Address, e: Error) { e == Unauthorized && a !in s.gov.admins }

  predicate Shut(gov: Gov, now: nat, id: nat, e: Error) {
    || (e == ProposalNotFound && id !in gov.proposals)
    || (e == ProposalExecuted && id in gov.proposals && gov.proposals[id].executed)
    || (e == ProposalExpired && id in gov.proposals && now > gov.proposals[id].createdAt + 604_800)
    || (e == Overflow && id in gov.proposals && gov.proposals[id].createdAt + 604_800 > U64_MAX)
  }

  predicate Impossible(s: State, action: AdminAction, e: Error) {
    || (e == AdminListEmpty && action.ReplaceAdmins? && action.admins == [])
    || (e == InvalidPercentage && action.ChangePercentages? && action.collector + action.owner > 100)
    || (e == WasteNotFound && action.RetireWaste? && action.id !in s.store.wastes)
    || (e == WasteDeactivated && action.RetireWaste? && action.id in s.store.wastes
        && !s.store.wastes[action.id].active)
  }

  lemma ListRefusalsAre(s: State, now: nat, a: Address, b: Address, admins: seq<Address>, n: nat, m: nat)
    ensures var r := SetPercentages(s.gov.admins, a, n, m); r.Err? ==> Blames(s, now, SetBoth(a, n, m), r.error)
    ensures var r := SetPercentages(s.gov.admins, a, n, s.funds.config.owner);
      r.Err? ==> Blames(s, now, SetCollector(a, n), r.error)
    ensures var r := SetPercentages(s.gov.admins, a, s.funds.config.collector, n);
      r.Err? ==> Blames(s, now, SetOwner(a, n), r.error)
    ensures var r := AddAdmin(s.gov, a, b); r.Err? ==> Blames(s, now, Add(a, b), r.error)
    ensures var r := RemoveAdmin(s.gov, a, b); r.Err? ==> Blames(s, now, Remove(a, b), r.error)
    ensures var r := TransferAdmin(s.gov, a, admins); r.Err? ==> Blames(s, now, HandOver(a, admins), r.error)
    ensures var r := SetThreshold(s.gov, a, n); r.Err? ==> Blames(s, now, Threshold(a, n), r.error)
  {
    WithoutShrinksIff(s.gov.admins, b);
  }

  lemma ProposalRefusalsAre(s: State, now: nat, a: Address, id: nat, action: AdminAction)
    ensures var r := Propose(s.gov, now, a, action); r.Err? ==> Blames(s, now, Proposing(a, action), r.error)
    ensures var r := Propose(s.gov, now, a, action); r.Ok? ==> r.value.1 == s.gov.proposalCount + 1
    ensures var r := ApproveProposal(s.gov, now, a, id); r.Err? ==> Blames(s, now, Approving(a, id), r.error)
  {}

  lemma ExecutionRefusalsAre(s: State, now: nat, a: Address, id: nat)
    ensures var r := ExecuteProposal(s, now, a, id); r.Err? ==> Blames(s, now, Executing(a, id), r.error)
  {}
}
