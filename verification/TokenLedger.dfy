/** The global token counter against the sum of all participants' earnings. */
module TokenLedger {
  import opened Prelude
  import opened Model
  import opened Custody
  import opened Rewards

  function TokensOf(p: Participant): nat { p.tokens }

  ghost function TokenSum(reg: Registry): nat { MapSum(reg.participants, TokensOf) }

  /** Payments change nobody's role, standing or reputation, and remove nobody. */
  ghost predicate SameFaces(reg: Registry, reg': Registry) {
    && reg.index == reg'.index && reg.participants.Keys == reg'.participants.Keys
    && forall a :: a in reg.participants ==>
      && reg.participants[a].role == reg'.participants[a].role
      && reg.participants[a].registered == reg'.participants[a].registered
      && reg.participants[a].reputation == reg'.participants[a].reputation
  }

  /** The counter and the sum of earnings moved by the same amount. */
  ghost predicate Balanced(reg: Registry, total: nat, reg': Registry, total': nat) {
    SameFaces(reg, reg') && TokenSum(reg') + total == TokenSum(reg) + total'
  }

  lemma BalancedTransitive(r0: Registry, t0: nat, r1: Registry, t1: nat, r2: Registry, t2: nat)
    requires Balanced(r0, t0, r1, t1) && Balanced(r1, t1, r2, t2)
    ensures Balanced(r0, t0, r2, t2)
  {}

  lemma WriteTokens(reg: Registry, a: Address, p: Participant)
    requires a in reg.participants
    ensures TokenSum(reg.(participants := reg.participants[a := p])) + reg.participants[a].tokens
            == TokenSum(reg) + p.tokens
  {
    MapSumSet(reg.participants, a, p, TokensOf);
    MapSumAtLeast(reg.participants, a, TokensOf);
  }

  lemma EarnBalances(reg: Registry, total: nat, a: Address, waste: nat, tokens: nat)
    requires Earn(reg, total, a, waste, tokens).Ok?
    ensures Balanced(reg, total, Earn(reg, total, a, waste, tokens).value.0, Earn(reg, total, a, waste, tokens).value.1)
  {
    if a in reg.participants {
      WriteTokens(reg, a, Earn(reg, total, a, waste, tokens).value.0.participants[a]);
    }
  }

  lemma {:induction false} PayCollectorsBalances(reg: Registry, total: nat, h: seq<Transfer>, share: nat)
    requires PayCollectors(reg, total, h, share).Ok?
    ensures var r := PayCollectors(reg, total, h, share).value; Balanced(reg, total, r.0, r.1)
  {
    if h != [] {
      var last := |h| - 1;
      PayCollectorsBalances(reg, total, h[..last], share);
      var done := PayCollectors(reg, total, h[..last], share).value;
      if IsCollector(done.0, h[last].to) {
        var tokens := Low64(Adjusted(done.0.participants[h[last].to], share));
        EarnBalances(done.0, done.1, h[last].to, 0, tokens);
        var paid := Earn(done.0, done.1, h[last].to, 0, tokens).value;
        BalancedTransitive(reg, total, done.0, done.1, paid.0, paid.1);
      }
    }
  }

  lemma PaySubmitterBalances(reg: Registry, total: nat, a: Address, amount: nat)
    requires PaySubmitter(reg, total, a, amount).Ok?
    ensures var r := PaySubmitter(reg, total, a, amount).value; Balanced(reg, total, r.0, r.1)
  {
    if amount != 0 && a in reg.participants {
      WriteTokens(reg, a, PaySubmitter(reg, total, a, amount).value.0.participants[a]);
    }
  }

  lemma RewardTokensBalances(reg: Registry, total: nat, cfg: RewardConfig, h: seq<Transfer>, submitter: Address,
                             reward: nat)
    requires RewardTokens(reg, total, cfg, h, submitter, reward).Ok?
    ensures var r := RewardTokens(reg, total, cfg, h, submitter, reward).value; Balanced(reg, total, r.0, r.1)
  {
    if reward != 0 {
      var share, ownerShare := Share(reward, cfg.collector), Share(reward, cfg.owner);
      PayCollectorsBalances(reg, total, h, share);
      var paid := PayCollectors(reg, total, h, share).value;
      var rest := if reward > paid.2 + ownerShare then reward - (paid.2 + ownerShare) else 0;
      PaySubmitterBalances(paid.0, paid.1, submitter, ownerShare + rest);
      var r := RewardTokens(reg, total, cfg, h, submitter, reward).value;
      BalancedTransitive(reg, total, paid.0, paid.1, r.0, r.1);
    }
  }

  // ---------- whole calls ----------

  ghost predicate StateBalanced(s: State, s': State) {
    Balanced(s.reg, s.funds.totalTokens, s'.reg, s'.funds.totalTokens)
  }

  lemma VerifyOneBalances(s: State, id: nat, tokens: nat)
    requires id in s.store.materials && VerifyOne(s, id, tokens).Ok?
    ensures StateBalanced(s, VerifyOne(s, id, tokens).value)
  {
    RewardTokensBalances(s.reg, s.funds.totalTokens, s.funds.config, TransferHistory(s.store, id),
                         s.store.materials[id].submitter, tokens);
  }

  lemma {:induction false} VerifyAllBalances(s: State, ids: seq<nat>)
    requires VerifyAll(s, ids).Ok?
    ensures StateBalanced(s, VerifyAll(s, ids).value)
  {
    if ids != [] {
      var last := |ids| - 1;
      VerifyAllBalances(s, ids[..last]);
      var done := VerifyAll(s, ids[..last]).value;
      if ids[last] in done.store.materials {
        var points := Points(done.store.materials[ids[last]]).value;
        VerifyOneBalances(done, ids[last], points);
        var r := VerifyOne(done, ids[last], points).value;
        BalancedTransitive(s.reg, s.funds.totalTokens, done.reg, done.funds.totalTokens, r.reg, r.funds.totalTokens);
      }
    }
  }

  lemma RewardKeepsTokens(reg: Registry, a: Address, delta: int, now: nat)
    ensures TokenSum(Reward(reg, a, delta, now)) == TokenSum(reg)
  {
    if a in reg.participants { WriteTokens(reg, a, Reward(reg, a, delta, now).participants[a]); }
  }

  /** The tokens a call lets leave the participants' records without leaving the counter. */
  ghost function Given(s: State, op: MaterialOp): nat {
    match op
    case Give(charitySet, a, amount) => if Donate(s.reg, charitySet, a, amount).Ok? then amount else 0
    case _ => 0
  }

  lemma StepTokens(s: State, now: nat, op: MaterialOp)
    ensures var s' := MaterialStep(s, now, op);
      TokenSum(s'.reg) + s.funds.totalTokens + Given(s, op) == TokenSum(s.reg) + s'.funds.totalTokens
  {
    match op
    case Submit(minWeight, wt, w, a) =>
      if SubmitMaterial(s, minWeight, wt, w, a).Ok? { EarnBalances(s.reg, s.funds.totalTokens, a, w, 0); }
    case HandOn(id, from, to) =>
    case Verify(id, verifier) =>
      if VerifyMaterial(s, now, id, verifier).Ok? { VerifyMaterialTokens(s, now, id, verifier); }
    case VerifyMany(ids, verifier) =>
      if VerifyMaterials(s, ids, verifier).Ok? { VerifyAllBalances(s, ids); }
    case Grant(tokenSet, a, amount) =>
      if RewardRecipient(s.reg, s.funds.totalTokens, tokenSet, a, amount).Ok? {
        WriteTokens(s.reg, a, RewardRecipient(s.reg, s.funds.totalTokens, tokenSet, a, amount).value.0.participants[a]);
      }
    case Give(charitySet, a, amount) =>
      if Donate(s.reg, charitySet, a, amount).Ok? {
        WriteTokens(s.reg, a, Donate(s.reg, charitySet, a, amount).value.participants[a]);
      }
  }

  lemma VerifyMaterialTokens(s: State, now: nat, id: nat, verifier: Address)
    requires VerifyMaterial(s, now, id, verifier).Ok?
    ensures var s' := VerifyMaterial(s, now, id, verifier).value;
      TokenSum(s'.reg) + s.funds.totalTokens == TokenSum(s.reg) + s'.funds.totalTokens
  {
    var tokens := Discounted(s.store, id, Points(s.store.materials[id]).value);
    VerifyOneBalances(s, id, tokens);
    var done := VerifyOne(s, id, tokens).value;
    var once := Reward(done.reg, s.store.materials[id].submitter, REP_VERIFY, now);
    RewardKeepsTokens(done.reg, s.store.materials[id].submitter, REP_VERIFY, now);
    RewardKeepsTokens(once, verifier, REP_VERIFY, now);
  }
}
