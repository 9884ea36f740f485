/** What an early exit from one of the contract's loops says about the whole call. */
module Loops {
  import opened Prelude
  import opened Model
  import opened Custody
  import opened Rewards
  import opened Incentives
  import opened TokenLedger
  import opened Budgets

  lemma {:induction false} SumPrefix(s: seq<nat>, i: nat)
    requires i <= |s|
    ensures Sum(s[..i]) <= Sum(s)
  {
    if i == |s| {
      assert s[..i] == s;
    } else {
      SumPrefix(s[..|s| - 1], i);
      assert s[..|s| - 1][..i] == s[..i];
    }
  }

  lemma {:induction false} BatchStops(reg: Registry, wastes: map<nat, Waste>, now: nat, ids: seq<nat>, to: Address,
                                      i: nat)
    requires i <= |ids| && BatchCheck(reg, wastes, now, ids[..i], to).Err?
    ensures BatchCheck(reg, wastes, now, ids, to) == BatchCheck(reg, wastes, now, ids[..i], to)
  {
    if i == |ids| {
      assert ids[..i] == ids;
    } else {
      assert ids[..|ids| - 1][..i] == ids[..i];
      BatchStops(reg, wastes, now, ids[..|ids| - 1], to, i);
    }
  }

  lemma {:induction false} MergeStops(wastes: map<nat, Waste>, owner: Address, ids: seq<nat>, k: nat, n: nat)
    requires k <= n <= |ids| && MergeWeight(wastes, owner, ids, k).Err?
    ensures MergeWeight(wastes, owner, ids, n) == MergeWeight(wastes, owner, ids, k)
  {
    if k < n { MergeStops(wastes, owner, ids, k, n - 1); }
  }

  lemma {:induction false} PayStops(reg: Registry, total: nat, h: seq<Transfer>, share: nat, i: nat)
    requires i <= |h| && PayCollectors(reg, total, h[..i], share).Err?
    ensures PayCollectors(reg, total, h, share) == PayCollectors(reg, total, h[..i], share)
  {
    if i == |h| {
      assert h[..i] == h;
    } else {
      assert h[..|h| - 1][..i] == h[..i];
      PayStops(reg, total, h[..|h| - 1], share, i);
    }
  }

  lemma {:induction false} VerifyStops(s: State, ids: seq<nat>, i: nat)
    requires i <= |ids| && VerifyAll(s, ids[..i]).Err?
    ensures VerifyAll(s, ids) == VerifyAll(s, ids[..i])
  {
    if i == |ids| {
      assert ids[..i] == ids;
    } else {
      assert ids[..|ids| - 1][..i] == ids[..i];
      VerifyStops(s, ids[..|ids| - 1], i);
    }
  }

  lemma {:induction false} EarnOverflows(reg: Registry, total: nat, pays: seq<Payment>)
    requires EarnAll(reg, total, pays).Err?
    ensures EarnAll(reg, total, pays) == Err(Overflow)
  {
    if pays != [] && EarnAll(reg, total, pays[..|pays| - 1]).Err? { EarnOverflows(reg, total, pays[..|pays| - 1]); }
  }

  lemma {:induction false} EarnStops(reg: Registry, total: nat, pays: seq<Payment>, i: nat)
    requires i <= |pays| && EarnAll(reg, total, pays[..i]).Err?
    ensures EarnAll(reg, total, pays) == Err(Overflow)
  {
    if i == |pays| {
      assert pays[..i] == pays;
      EarnOverflows(reg, total, pays);
    } else {
      assert pays[..|pays| - 1][..i] == pays[..i];
      EarnStops(reg, total, pays[..|pays| - 1], i);
    }
  }

  lemma {:induction false} PayoutPrefix(pays: seq<Payment>, i: nat)
    requires i <= |pays|
    ensures Payout(pays[..i]) <= Payout(pays)
  {
    if i == |pays| {
      assert pays[..i] == pays;
    } else {
      assert pays[..|pays| - 1][..i] == pays[..i];
      PayoutPrefix(pays[..|pays| - 1], i);
    }
  }

  lemma {:induction false} CollectorPrefix(reg: Registry, h: seq<Transfer>, share: nat, i: nat)
    requires i <= |h|
    ensures CollectorPayments(reg, h[..i], share) <= CollectorPayments(reg, h, share)
  {
    if i == |h| {
      assert h[..i] == h;
    } else {
      assert h[..|h| - 1][..i] == h[..i];
      CollectorPrefix(reg, h[..|h| - 1], share, i);
    }
  }

  /** Payments already made that cannot be booked, or exceed the integer range, fail the distribution. */
  lemma PaymentsStop(reg: Registry, total: nat, h: seq<Transfer>, submitter: Address, reward: nat, cfg: RewardConfig,
                     done: seq<Payment>)
    requires done <= Payments(reg, h, submitter, reward, cfg)
    requires Payout(done) > I128_MAX || EarnAll(reg, total, done).Err?
    ensures var pays := Payments(reg, h, submitter, reward, cfg);
      Payout(pays) > I128_MAX || EarnAll(reg, total, pays) == Err(Overflow)
  {
    var pays := Payments(reg, h, submitter, reward, cfg);
    assert done == pays[..|done|];
    PayoutPrefix(pays, |done|);
    if EarnAll(reg, total, done).Err? { EarnStops(reg, total, pays, |done|); }
  }

  /** Booking payments changes nobody's role, so recipients stay the same throughout. */
  lemma EarnAllKeepsRecipients(reg: Registry, total: nat, pays: seq<Payment>, a: Address)
    requires EarnAll(reg, total, pays).Ok?
    ensures IsRecipient(EarnAll(reg, total, pays).value.0, a) == IsRecipient(reg, a)
  {
    EarnAllBalances(reg, total, pays);
  }

  /** A verification writes five entries and nothing else. */
  lemma VerifyOneWrites(s: State, id: nat, tokens: nat)
    requires id in s.store.materials && VerifyOne(s, id, tokens).Ok?
    ensures var t := VerifyOne(s, id, tokens).value;
      t == State(Registry(t.reg.participants, s.reg.index), s.store.(materials := t.store.materials), t.stats,
                 s.market.(totalCarbon := t.market.totalCarbon), s.funds.(totalTokens := t.funds.totalTokens),
                 s.gov, s.goals, s.reports, s.contaminated)
  {
    VerifyOneBalances(s, id, tokens);
  }
}
