/** How much one distribution pays out, and what the budget is charged for it. */
module RewardSplit {
  import opened Prelude
  import opened Model
  import opened Rewards
  import opened Incentives
  import opened Provenance

  function Max(a: nat, b: nat): nat { if a >= b then a else b }

  lemma PayoutSnoc(pays: seq<Payment>, p: Payment)
    ensures Payout(pays + [p]) == Payout(pays) + p.amount
  {
    assert (pays + [p])[..|pays|] == pays;
  }

  lemma {:induction false} CollectorsGet(reg: Registry, h: seq<Transfer>, share: nat)
    ensures Payout(CollectorPayments(reg, h, share)) == |CollectorPayments(reg, h, share)| * share
  {
    if h != [] {
      var last := |h| - 1;
      var init := CollectorPayments(reg, h[..last], share);
      CollectorsGet(reg, h[..last], share);
      if IsRecipient(reg, h[last].to) {
        PayoutSnoc(init, Payment(h[last].to, share));
        assert (|init| + 1) * share == |init| * share + share;
      } else {
        assert CollectorPayments(reg, h, share) == init;
      }
    }
  }

  /** With `k` collector recipients the total paid is the larger of the reward and the sum of the fixed shares. */
  lemma PayoutIs(reg: Registry, h: seq<Transfer>, submitter: Address, reward: nat, cfg: RewardConfig)
    ensures var k := |CollectorPayments(reg, h, Share(reward, cfg.collector))|;
      Payout(Payments(reg, h, submitter, reward, cfg))
      == Max(reward, k * Share(reward, cfg.collector) + Share(reward, cfg.owner))
  {
    var collectors := CollectorPayments(reg, h, Share(reward, cfg.collector));
    var shared := collectors + [Payment(submitter, Share(reward, cfg.owner))];
    CollectorsGet(reg, h, Share(reward, cfg.collector));
    PayoutSnoc(collectors, Payment(submitter, Share(reward, cfg.owner)));
    if reward > Payout(shared) { PayoutSnoc(shared, Payment(submitter, reward - Payout(shared))); }
  }

  lemma SharesFit(reward: nat, k: nat, c: nat, o: nat)
    requires k * c + o <= 100
    ensures k * Share(reward, c) + Share(reward, o) <= reward
  {
    assert 100 * (reward * c / 100) <= reward * c && 100 * (reward * o / 100) <= reward * o;
    assert k * (100 * (reward * c / 100)) <= k * (reward * c);
    assert k * (reward * c) + reward * o == reward * (k * c + o);
    assert reward * (k * c + o) <= reward * 100;
  }

  /** When the percentages leave room for every recipient, exactly the reward is paid. */
  lemma PayoutIsReward(reg: Registry, h: seq<Transfer>, submitter: Address, reward: nat, cfg: RewardConfig)
    requires |CollectorPayments(reg, h, Share(reward, cfg.collector))| * cfg.collector + cfg.owner <= 100
    ensures Payout(Payments(reg, h, submitter, reward, cfg)) == reward
  {
    PayoutIs(reg, h, submitter, reward, cfg);
    SharesFit(reward, |CollectorPayments(reg, h, Share(reward, cfg.collector))|, cfg.collector, cfg.owner);
  }

  /** The reward an incentive owes for a material. */
  function Owed(s: State, m: nat, id: nat, multiplier: nat): nat
    requires m in s.store.materials && id in s.funds.incentives
  {
    TotalReward(s.store, m, s.store.materials[m].weight, s.funds.incentives[id].points, multiplier)
  }

  /** What collectors and owner are due before any remainder. */
  function FixedShares(s: State, m: nat, reward: nat): nat {
    var share := Share(reward, s.funds.config.collector);
    |CollectorPayments(s.reg, TransferHistory(s.store, m), share)| * share + Share(reward, s.funds.config.owner)
  }

  /** An accepted distribution makes exactly the planned payments and charges the reward's low 64 bits. */
  lemma SettlementIs(s: State, m: nat, id: nat, reward: nat)
    requires m in s.store.materials && id in s.funds.incentives && Low64(reward) <= s.funds.incentives[id].remaining
    requires Settle(s, m, id, reward, true).Ok?
    ensures var r := Settle(s, m, id, reward, true).value;
      && id in r.0.funds.incentives
      && s.funds.incentives[id].remaining - r.0.funds.incentives[id].remaining == Low64(reward)
      && Payout(r.1) == Max(reward, FixedShares(s, m, reward))
  {
    PayoutIs(s.reg, TransferHistory(s.store, m), s.store.materials[m].submitter, reward, s.funds.config);
  }

  lemma ChargedIff(reward: nat, fixed: nat)
    ensures Max(reward, fixed) == Low64(reward) <==> reward <= U64_MAX && fixed <= reward
  {}

  lemma CheckedReward(s: State, m: nat, id: nat, a: Address, multiplier: nat)
    requires CheckDistribution(s, m, id, a, multiplier, true).Ok?
    ensures m in s.store.materials && id in s.funds.incentives
    ensures CheckDistribution(s, m, id, a, multiplier, true).value == Owed(s, m, id, multiplier)
    ensures Low64(Owed(s, m, id, multiplier)) <= s.funds.incentives[id].remaining
  {}

  /** What is paid out is what is charged if and only if the reward fits 64 bits and covers the fixed shares. */
  lemma PayoutIsChargeIff(s: State, m: nat, id: nat, a: Address, multiplier: nat)
    requires DistributeRewards(s, m, id, a, multiplier, true, true).Ok?
    ensures m in s.store.materials && id in s.funds.incentives
    ensures var r := DistributeRewards(s, m, id, a, multiplier, true, true).value;
      && id in r.0.funds.incentives
      && (Payout(r.1) == s.funds.incentives[id].remaining - r.0.funds.incentives[id].remaining
          <==> && Owed(s, m, id, multiplier) <= U64_MAX
               && FixedShares(s, m, Owed(s, m, id, multiplier)) <= Owed(s, m, id, multiplier))
  {
    CheckedReward(s, m, id, a, multiplier);
    SettlementIs(s, m, id, Owed(s, m, id, multiplier));
    ChargedIff(Owed(s, m, id, multiplier), FixedShares(s, m, Owed(s, m, id, multiplier)));
  }

  /** On a chain that only climbs, at most one record hands the material to a collector. */
  lemma OneCollectorAtMost(reg: Registry, h: seq<Transfer>, share: nat)
    requires Linked(h) && Climbs(reg, h)
    ensures |CollectorPayments(reg, h, share)| <= 1
  {
    ClimbingChainIsShort(reg, h);
    if |h| == 2 {
      StageAtLeast(reg, h, 1);
      assert h[..1][..0] == [];
      assert CollectorPayments(reg, h[..1], share) == [] || |CollectorPayments(reg, h[..1], share)| == 1;
    }
  }
}
