/** Who is paid what: the tokens of a verification, a claim and a distribution, address by address. */
module RewardEffects {
  import opened Prelude
  import opened Model
  import opened Rewards
  import opened Incentives
  import opened Provenance
  import opened RewardSplit

  /** How many records of a history hand the material to `a`. */
  function HandedTo(h: seq<Transfer>, a: Address): nat {
    if h == [] then 0 else HandedTo(h[..|h| - 1], a) + if h[|h| - 1].to == a then 1 else 0
  }

  datatype Grade = Grade(certification: Certification, tier: Tier)

  function GradeOf(p: Participant): Grade { Grade(p.certification, p.tier) }

  /** Every booking grades anew, by the weight processed. */
  function Regraded(p: Participant): Grade { Grade(CertificationFor(p.processed), TierFor(p.processed)) }

  /** The grade a participant has after `n` bookings. */
  function GradeAfter(p: Participant, n: nat): Grade { if n == 0 then GradeOf(p) else Regraded(p) }

  /** A share times both multipliers, in percent of percent. */
  function Scaled(share: nat, g: Grade): nat {
    share * g.certification.Multiplier() * g.tier.Multiplier() / 10_000
  }

  predicate Collects(reg: Registry, a: Address) { a in reg.participants && reg.participants[a].role == Collector }

  // ---------- collectors ----------

  /** What `n` records earn a collector: the first at the grade it has, the others at its grade by weight. */
  function CollectorGain(p: Participant, share: nat, n: nat): nat {
    if n == 0 then 0
    else CollectorGain(p, share, n - 1) + Scaled(share, GradeAfter(p, n - 1)) % 0x1_0000_0000_0000_0000
  }

  /** What the history's collectors are due together. */
  function Distributed(reg: Registry, h: seq<Transfer>, share: nat): nat {
    if h == [] then 0
    else
      var init, a := h[..|h| - 1], h[|h| - 1].to;
      Distributed(reg, init, share)
      + if Collects(reg, a) then Scaled(share, GradeAfter(reg.participants[a], HandedTo(init, a))) else 0
  }

  function Times(reg: Registry, h: seq<Transfer>, a: Address): nat { if Collects(reg, a) then HandedTo(h, a) else 0 }

  /** The record of a participant after `n` bookings of `tokens` together. */
  ghost predicate Booked(p: Participant, p': Participant, n: nat, tokens: nat) {
    && p' == p.(tokens := p.tokens + tokens, certification := p'.certification, tier := p'.tier)
    && GradeOf(p') == GradeAfter(p, n)
  }

  ghost predicate CollectorsPaid(reg: Registry, h: seq<Transfer>, share: nat, reg': Registry) {
    && reg'.index == reg.index && reg'.participants.Keys == reg.participants.Keys
    && forall a :: a in reg.participants ==>
      Booked(reg.participants[a], reg'.participants[a], Times(reg, h, a),
             CollectorGain(reg.participants[a], share, Times(reg, h, a)))
  }

  lemma {:induction false} CollectorsAre(reg: Registry, total: nat, h: seq<Transfer>, share: nat)
    requires PayCollectors(reg, total, h, share).Ok?
    ensures var r := PayCollectors(reg, total, h, share).value;
      CollectorsPaid(reg, h, share, r.0) && r.2 == Distributed(reg, h, share)
  {
    if h != [] {
      var init, a := h[..|h| - 1], h[|h| - 1].to;
      CollectorsAre(reg, total, init, share);
      var done := PayCollectors(reg, total, init, share).value;
      CollectorIs(reg, done.0, init, share, a);
      NextCollected(reg, done.0, done.1, PayCollectors(reg, total, h, share).value.0, h, share);
    }
  }

  /** A collector on the way: still one, at the grade its bookings gave it. */
  lemma CollectorIs(reg: Registry, before: Registry, h: seq<Transfer>, share: nat, a: Address)
    requires CollectorsPaid(reg, h, share, before)
    ensures IsCollector(before, a) <==> Collects(reg, a)
    ensures Collects(reg, a) ==>
      Adjusted(before.participants[a], share) == Scaled(share, GradeAfter(reg.participants[a], HandedTo(h, a)))
  {
    if a in reg.participants {
      assert Booked(reg.participants[a], before.participants[a], Times(reg, h, a),
                    CollectorGain(reg.participants[a], share, Times(reg, h, a)));
    }
  }

  lemma NextCollected(reg: Registry, before: Registry, total: nat, after: Registry, h: seq<Transfer>, share: nat)
    requires h != [] && CollectorsPaid(reg, h[..|h| - 1], share, before)
    requires var a := h[|h| - 1].to;
      if IsCollector(before, a) then
        var paid := Earn(before, total, a, 0, Low64(Adjusted(before.participants[a], share)));
        paid.Ok? && paid.value.0 == after
      else after == before
    ensures CollectorsPaid(reg, h, share, after)
  {
    var init, a := h[..|h| - 1], h[|h| - 1].to;
    CollectorIs(reg, before, init, share, a);
    forall b | b in reg.participants
      ensures Booked(reg.participants[b], after.participants[b], Times(reg, h, b),
                     CollectorGain(reg.participants[b], share, Times(reg, h, b)))
    {
      assert Booked(reg.participants[b], before.participants[b], Times(reg, init, b),
                    CollectorGain(reg.participants[b], share, Times(reg, init, b)));
    }
  }

  // ---------- verification ----------

  function Larger(a: int, b: int): int { if a >= b then a else b }

  /** What is left to the submitter: its share, or all that the collectors leave, whichever is more. */
  function SubmitterAmount(reg: Registry, h: seq<Transfer>, cfg: RewardConfig, reward: nat): nat {
    Larger(reward * cfg.owner / 100, reward - Distributed(reg, h, reward * cfg.collector / 100))
  }

  /** How often a reward is booked on the record of `a` before the submitter's part, which does not grade. */
  function Bookings(reg: Registry, h: seq<Transfer>, reward: nat, a: Address): nat {
    if reward == 0 then 0 else Times(reg, h, a)
  }

  /** What a verification's reward brings to `a`. */
  function RewardGain(reg: Registry, cfg: RewardConfig, h: seq<Transfer>, submitter: Address, reward: nat,
                      a: Address): nat
    requires a in reg.participants
  {
    var p, n := reg.participants[a], Times(reg, h, a);
    CollectorGain(p, reward * cfg.collector / 100, n)
    + if a == submitter then Scaled(SubmitterAmount(reg, h, cfg, reward), GradeAfter(p, n)) else 0
  }

  lemma {:induction false} NothingEarned(reg: Registry, h: seq<Transfer>, p: Participant, n: nat)
    ensures CollectorGain(p, 0, n) == 0 && Distributed(reg, h, 0) == 0
    decreases n + |h|
  {
    if n > 0 { NothingEarned(reg, h, p, n - 1); }
    if h != [] { NothingEarned(reg, h[..|h| - 1], p, n); }
  }

  lemma SubmitterIs(reg: Registry, total: nat, a: Address, amount: nat)
    requires PaySubmitter(reg, total, a, amount).Ok?
    ensures var r := PaySubmitter(reg, total, a, amount).value;
      && r.0.index == reg.index && r.0.participants.Keys == reg.participants.Keys
      && forall b :: b in reg.participants ==>
        r.0.participants[b] == reg.participants[b].(tokens := reg.participants[b].tokens
                                                   + if b == a then Scaled(amount, GradeOf(reg.participants[b])) else 0)
  {}

  /** Everybody's tokens after a reward along a history: nobody else's record grows, and no record shrinks. */
  lemma RewardTokensAre(reg: Registry, total: nat, cfg: RewardConfig, h: seq<Transfer>, submitter: Address,
                        reward: nat)
    requires RewardTokens(reg, total, cfg, h, submitter, reward).Ok?
    ensures var r := RewardTokens(reg, total, cfg, h, submitter, reward).value;
      && r.0.index == reg.index && r.0.participants.Keys == reg.participants.Keys
      && forall a :: a in reg.participants ==>
        Booked(reg.participants[a], r.0.participants[a], Bookings(reg, h, reward, a),
               RewardGain(reg, cfg, h, submitter, reward, a))
  {
    var r := RewardTokens(reg, total, cfg, h, submitter, reward).value;
    var share := reward * cfg.collector / 100;
    if reward != 0 {
      CollectorsAre(reg, total, h, share);
      var paid := PayCollectors(reg, total, h, share).value;
      SubmitterIs(paid.0, paid.1, submitter, SubmitterAmount(reg, h, cfg, reward));
    }
    forall a | a in reg.participants
      ensures Booked(reg.participants[a], r.0.participants[a], Bookings(reg, h, reward, a),
                     RewardGain(reg, cfg, h, submitter, reward, a))
    {
      if reward == 0 {
        NothingEarned(reg, h, reg.participants[a], Times(reg, h, a));
      } else {
        assert Booked(reg.participants[a], PayCollectors(reg, total, h, share).value.0.participants[a],
                      Times(reg, h, a), CollectorGain(reg.participants[a], share, Times(reg, h, a)));
      }
    }
  }

  // ---------- distributions ----------

  predicate Receives(reg: Registry, a: Address) {
    a in reg.participants && (reg.participants[a].role == Recycler || reg.participants[a].role == Collector)
  }

  /** How many records hand the material to somebody who is paid for it. */
  function PaidRecords(reg: Registry, h: seq<Transfer>): nat {
    if h == [] then 0 else PaidRecords(reg, h[..|h| - 1]) + if Receives(reg, h[|h| - 1].to) then 1 else 0
  }

  /** What a distribution leaves for the submitter beyond the fixed shares. */
  function Remainder(reg: Registry, h: seq<Transfer>, reward: nat, cfg: RewardConfig): nat {
    Larger(0, reward - PaidRecords(reg, h) * (reward * cfg.collector / 100) - reward * cfg.owner / 100)
  }

  function PaidTo(pays: seq<Payment>, a: Address): nat {
    if pays == [] then 0
    else PaidTo(pays[..|pays| - 1], a) + if pays[|pays| - 1].to == a then pays[|pays| - 1].amount else 0
  }

  lemma PaidToSnoc(pays: seq<Payment>, p: Payment, a: Address)
    ensures PaidTo(pays + [p], a) == PaidTo(pays, a) + if p.to == a then p.amount else 0
  {
    assert (pays + [p])[..|pays|] == pays;
  }

  lemma {:induction false} CollectorPaymentsSum(reg: Registry, h: seq<Transfer>, share: nat)
    ensures var pays := CollectorPayments(reg, h, share);
      |pays| == PaidRecords(reg, h) && Payout(pays) == |pays| * share
  {
    CollectorsGet(reg, h, share);
    if h != [] { CollectorPaymentsSum(reg, h[..|h| - 1], share); }
  }

  lemma OneMore(n: nat, share: nat)
    ensures (n + 1) * share == n * share + share
  {}

  lemma {:induction false} CollectorPaymentsTo(reg: Registry, h: seq<Transfer>, share: nat, a: Address)
    ensures PaidTo(CollectorPayments(reg, h, share), a) == if Receives(reg, a) then HandedTo(h, a) * share else 0
  {
    if h != [] {
      var init, to := h[..|h| - 1], h[|h| - 1].to;
      var before := CollectorPayments(reg, init, share);
      CollectorPaymentsTo(reg, init, share, a);
      if Receives(reg, to) {
        PaidToSnoc(before, Payment(to, share), a);
        OneMore(HandedTo(init, a), share);
      } else {
        assert CollectorPayments(reg, h, share) == before;
      }
    }
  }

  /** Who receives what: a collector or recycler its share for each record handing it the material, the submitter the
      owner's share and the remainder besides. */
  lemma PaymentsAre(reg: Registry, h: seq<Transfer>, submitter: Address, reward: nat, cfg: RewardConfig, a: Address)
    ensures PaidTo(Payments(reg, h, submitter, reward, cfg), a)
            == (if Receives(reg, a) then HandedTo(h, a) * (reward * cfg.collector / 100) else 0)
               + (if a == submitter then reward * cfg.owner / 100 + Remainder(reg, h, reward, cfg) else 0)
  {
    var collectors := CollectorPayments(reg, h, reward * cfg.collector / 100);
    var shared := collectors + [Payment(submitter, reward * cfg.owner / 100)];
    CollectorPaymentsSum(reg, h, reward * cfg.collector / 100);
    CollectorPaymentsTo(reg, h, reward * cfg.collector / 100, a);
    PaidToSnoc(collectors, Payment(submitter, reward * cfg.owner / 100), a);
    PayoutSnoc(collectors, Payment(submitter, reward * cfg.owner / 100));
    if reward > Payout(shared) { PaidToSnoc(shared, Payment(submitter, reward - Payout(shared)), a); }
  }

  /** How many payments go to `a`. */
  function PaymentsTo(pays: seq<Payment>, a: Address): nat {
    if pays == [] then 0 else PaymentsTo(pays[..|pays| - 1], a) + if pays[|pays| - 1].to == a then 1 else 0
  }

  lemma PaymentsToSnoc(pays: seq<Payment>, p: Payment, a: Address)
    ensures PaymentsTo(pays + [p], a) == PaymentsTo(pays, a) + if p.to == a then 1 else 0
  {
    assert (pays + [p])[..|pays|] == pays;
  }

  lemma {:induction false} CollectorPaymentsCount(reg: Registry, h: seq<Transfer>, share: nat, a: Address)
    ensures PaymentsTo(CollectorPayments(reg, h, share), a) == if Receives(reg, a) then HandedTo(h, a) else 0
  {
    if h != [] {
      var init, to := h[..|h| - 1], h[|h| - 1].to;
      CollectorPaymentsCount(reg, init, share, a);
      if Receives(reg, to) {
        PaymentsToSnoc(CollectorPayments(reg, init, share), Payment(to, share), a);
      } else {
        assert CollectorPayments(reg, h, share) == CollectorPayments(reg, init, share);
      }
    }
  }

  /** In how many payments: one for each record, one for the owner's share, one for a remainder if there is any. */
  lemma PaymentsCount(reg: Registry, h: seq<Transfer>, submitter: Address, reward: nat, cfg: RewardConfig, a: Address)
    ensures PaymentsTo(Payments(reg, h, submitter, reward, cfg), a)
            == (if Receives(reg, a) then HandedTo(h, a) else 0)
               + (if a != submitter then 0 else if Remainder(reg, h, reward, cfg) > 0 then 2 else 1)
  {
    var collectors := CollectorPayments(reg, h, reward * cfg.collector / 100);
    var shared := collectors + [Payment(submitter, reward * cfg.owner / 100)];
    CollectorPaymentsSum(reg, h, reward * cfg.collector / 100);
    CollectorPaymentsCount(reg, h, reward * cfg.collector / 100, a);
    PaymentsToSnoc(collectors, Payment(submitter, reward * cfg.owner / 100), a);
    PayoutSnoc(collectors, Payment(submitter, reward * cfg.owner / 100));
    if reward > Payout(shared) { PaymentsToSnoc(shared, Payment(submitter, reward - Payout(shared)), a); }
  }

  /** What the statistics book for `a`: each payment's low 64 bits. */
  function BookedTo(pays: seq<Payment>, a: Address): nat {
    if pays == [] then 0
    else
      var last := pays[|pays| - 1];
      BookedTo(pays[..|pays| - 1], a) + if last.to == a then last.amount % 0x1_0000_0000_0000_0000 else 0
  }

  lemma {:induction false} EarnAllAre(reg: Registry, total: nat, pays: seq<Payment>)
    requires EarnAll(reg, total, pays).Ok?
    ensures var r := EarnAll(reg, total, pays).value;
      && r.0.index == reg.index && r.0.participants.Keys == reg.participants.Keys
      && forall a :: a in reg.participants ==>
        Booked(reg.participants[a], r.0.participants[a], PaymentsTo(pays, a), BookedTo(pays, a))
  {
    if pays != [] {
      var init := pays[..|pays| - 1];
      EarnAllAre(reg, total, init);
      var done, r := EarnAll(reg, total, init).value, EarnAll(reg, total, pays).value;
      forall a | a in reg.participants
        ensures Booked(reg.participants[a], r.0.participants[a], PaymentsTo(pays, a), BookedTo(pays, a))
      {
        assert Booked(reg.participants[a], done.0.participants[a], PaymentsTo(init, a), BookedTo(init, a));
      }
    }
  }

  /** What the payments book for known participants together. */
  function BookedToKnown(reg: Registry, pays: seq<Payment>): nat {
    if pays == [] then 0
    else
      var last := pays[|pays| - 1];
      BookedToKnown(reg, pays[..|pays| - 1])
      + if last.to in reg.participants then last.amount % 0x1_0000_0000_0000_0000 else 0
  }

  predicate Pays(pays: seq<Payment>, a: Address) { exists i :: 0 <= i < |pays| && pays[i].to == a }

  /** The payments are booked exactly when nothing they add up leaves 128 bits. */
  ghost predicate PaymentsFit(reg: Registry, total: nat, pays: seq<Payment>) {
    && (forall a :: a in reg.participants && Pays(pays, a) ==>
          && reg.participants[a].processed <= U128_MAX
          && reg.participants[a].tokens + BookedTo(pays, a) <= U128_MAX
          && total + BookedToKnown(reg, pays) <= U128_MAX)
  }

  lemma PaysSnoc(pays: seq<Payment>, p: Payment, a: Address)
    ensures Pays(pays + [p], a) <==> Pays(pays, a) || p.to == a
    ensures BookedTo(pays + [p], a) == BookedTo(pays, a) + if p.to == a then Low64(p.amount) else 0
  {
    assert (pays + [p])[|pays|] == p && (pays + [p])[..|pays|] == pays;
    if i :| 0 <= i < |pays| && pays[i].to == a { assert (pays + [p])[i].to == a; }
  }

  lemma PaymentsFitSnoc(reg: Registry, total: nat, pays: seq<Payment>, p: Payment)
    ensures PaymentsFit(reg, total, pays + [p])
            <==> && PaymentsFit(reg, total, pays)
                 && (p.to in reg.participants ==>
                       && reg.participants[p.to].processed <= U128_MAX
                       && reg.participants[p.to].tokens + BookedTo(pays, p.to) + Low64(p.amount) <= U128_MAX
                       && total + BookedToKnown(reg, pays) + Low64(p.amount) <= U128_MAX)
  {
    assert (pays + [p])[..|pays|] == pays;
    forall a | a in reg.participants
      ensures Pays(pays + [p], a) <==> Pays(pays, a) || p.to == a
      ensures BookedTo(pays + [p], a) == BookedTo(pays, a) + if p.to == a then Low64(p.amount) else 0
    {
      PaysSnoc(pays, p, a);
    }
  }

  lemma {:induction false} EarnAllFitsIff(reg: Registry, total: nat, pays: seq<Payment>)
    ensures EarnAll(reg, total, pays).Ok? <==> PaymentsFit(reg, total, pays)
    ensures EarnAll(reg, total, pays).Ok? ==>
      && EarnAll(reg, total, pays).value.1 == total + BookedToKnown(reg, pays)
      && forall a :: a in reg.participants ==>
        && a in EarnAll(reg, total, pays).value.0.participants
        && EarnAll(reg, total, pays).value.0.participants[a].processed == reg.participants[a].processed
  {
    if pays != [] {
      var init, last := pays[..|pays| - 1], pays[|pays| - 1];
      assert pays == init + [last];
      EarnAllFitsIff(reg, total, init);
      PaymentsFitSnoc(reg, total, init, last);
      if EarnAll(reg, total, init).Ok? {
        EarnAllAre(reg, total, init);
        if last.to in reg.participants {
          assert Booked(reg.participants[last.to], EarnAll(reg, total, init).value.0.participants[last.to],
                        PaymentsTo(init, last.to), BookedTo(init, last.to));
        }
      }
    }
  }

  /** Payments that fit 64 bits are booked in full. */
  lemma {:induction false} SmallIsBooked(pays: seq<Payment>, a: Address)
    requires forall i :: 0 <= i < |pays| ==> pays[i].amount <= U64_MAX
    ensures BookedTo(pays, a) == PaidTo(pays, a)
  {
    if pays != [] { SmallIsBooked(pays[..|pays| - 1], a); }
  }

  // ---------- when a reward can be booked at all ----------

  /** What the history's collectors are booked together. */
  function PaidOut(reg: Registry, h: seq<Transfer>, share: nat): nat {
    if h == [] then 0
    else
      var init, a := h[..|h| - 1], h[|h| - 1].to;
      PaidOut(reg, init, share)
      + if Collects(reg, a) then
          Scaled(share, GradeAfter(reg.participants[a], HandedTo(init, a))) % 0x1_0000_0000_0000_0000
        else 0
  }

  ghost predicate RecordFits(reg: Registry, h: seq<Transfer>, share: nat, a: Address)
    requires a in reg.participants
  {
    var p, n := reg.participants[a], Times(reg, h, a);
    n == 0 || (p.processed <= U128_MAX && p.tokens + CollectorGain(p, share, n) <= U128_MAX)
  }

  /** Nothing the collectors' part of a reward adds up leaves 128 bits. */
  ghost predicate CollectorsFit(reg: Registry, total: nat, h: seq<Transfer>, share: nat) {
    && Distributed(reg, h, share) <= U128_MAX
    && (PaidRecordsTo(reg, h) > 0 ==> total + PaidOut(reg, h, share) <= U128_MAX)
    && forall a :: a in reg.participants ==> RecordFits(reg, h, share, a)
  }

  /** How many records hand the material to a collector. */
  function PaidRecordsTo(reg: Registry, h: seq<Transfer>): nat {
    if h == [] then 0 else PaidRecordsTo(reg, h[..|h| - 1]) + if Collects(reg, h[|h| - 1].to) then 1 else 0
  }

  /** The next record's payment. */
  function NextDue(reg: Registry, h: seq<Transfer>, share: nat): nat
    requires h != [] && h[|h| - 1].to in reg.participants
  {
    var a := h[|h| - 1].to;
    Scaled(share, GradeAfter(reg.participants[a], HandedTo(h[..|h| - 1], a)))
  }

  ghost predicate NextFits(reg: Registry, total: nat, h: seq<Transfer>, share: nat)
    requires h != []
  {
    var init, a := h[..|h| - 1], h[|h| - 1].to;
    Collects(reg, a) ==>
      var p, due := reg.participants[a], NextDue(reg, h, share);
      && Distributed(reg, init, share) + due <= U128_MAX
      && total + PaidOut(reg, init, share) + Low64(due) <= U128_MAX
      && p.processed <= U128_MAX
      && p.tokens + CollectorGain(p, share, HandedTo(init, a)) + Low64(due) <= U128_MAX
  }

  lemma OthersFitSame(reg: Registry, h: seq<Transfer>, share: nat, b: Address)
    requires h != [] && b in reg.participants && b != h[|h| - 1].to
    ensures RecordFits(reg, h, share, b) <==> RecordFits(reg, h[..|h| - 1], share, b)
  {}

  lemma FitsNextIff(reg: Registry, total: nat, h: seq<Transfer>, share: nat)
    requires h != []
    ensures CollectorsFit(reg, total, h, share)
            <==> CollectorsFit(reg, total, h[..|h| - 1], share) && NextFits(reg, total, h, share)
  {
    var init, a := h[..|h| - 1], h[|h| - 1].to;
    forall b | b in reg.participants && b != a
      ensures RecordFits(reg, h, share, b) <==> RecordFits(reg, init, share, b)
    {
      OthersFitSame(reg, h, share, b);
    }
    if a in reg.participants { LastFitsIff(reg, h, share); }
    if CollectorsFit(reg, total, h, share) {
      if a in reg.participants { assert RecordFits(reg, h, share, a); }
      forall b | b in reg.participants ensures RecordFits(reg, init, share, b) {
        assert RecordFits(reg, h, share, b);
      }
    } else if CollectorsFit(reg, total, init, share) && NextFits(reg, total, h, share) {
      forall b | b in reg.participants ensures RecordFits(reg, h, share, b) {
        assert RecordFits(reg, init, share, b);
      }
    }
  }

  lemma LastFitsIff(reg: Registry, h: seq<Transfer>, share: nat)
    requires h != [] && h[|h| - 1].to in reg.participants
    ensures var a := h[|h| - 1].to;
      var p := reg.participants[a];
      RecordFits(reg, h, share, a)
      <==> && RecordFits(reg, h[..|h| - 1], share, a)
           && (Collects(reg, a) ==>
                 && p.processed <= U128_MAX
                 && p.tokens + CollectorGain(p, share, HandedTo(h[..|h| - 1], a)) + Low64(NextDue(reg, h, share))
                    <= U128_MAX)
  {}

  /** One turn of the collectors' loop. */
  lemma PayNext(reg: Registry, total: nat, h: seq<Transfer>, share: nat)
    requires h != [] && PayCollectors(reg, total, h[..|h| - 1], share).Ok?
    ensures var done, a := PayCollectors(reg, total, h[..|h| - 1], share).value, h[|h| - 1].to;
      if Collects(done.0, a) then
        var p := done.0.participants[a];
        var due := Scaled(share, GradeOf(p));
        && (PayCollectors(reg, total, h, share).Ok?
            <==> && done.2 + due <= U128_MAX && done.1 + Low64(due) <= U128_MAX
                 && p.processed <= U128_MAX && p.tokens + Low64(due) <= U128_MAX)
        && (PayCollectors(reg, total, h, share).Ok? ==>
              PayCollectors(reg, total, h, share).value.1 == done.1 + Low64(due))
      else PayCollectors(reg, total, h, share) == Ok(done)
  {}

  lemma {:induction false} CollectorsFitIff(reg: Registry, total: nat, h: seq<Transfer>, share: nat)
    ensures PayCollectors(reg, total, h, share).Ok? <==> CollectorsFit(reg, total, h, share)
    ensures PayCollectors(reg, total, h, share).Ok? ==>
      PayCollectors(reg, total, h, share).value.1 == total + PaidOut(reg, h, share)
  {
    if h != [] {
      var init, a := h[..|h| - 1], h[|h| - 1].to;
      CollectorsFitIff(reg, total, init, share);
      FitsNextIff(reg, total, h, share);
      if PayCollectors(reg, total, init, share).Ok? {
        CollectorsAre(reg, total, init, share);
        PayNext(reg, total, h, share);
        NextIsKnown(reg, total, h, share);
      }
    }
  }

  /** The record the loop reads is the one `NextFits` speaks of. */
  lemma NextIsKnown(reg: Registry, total: nat, h: seq<Transfer>, share: nat)
    requires h != [] && PayCollectors(reg, total, h[..|h| - 1], share).Ok?
    requires CollectorsPaid(reg, h[..|h| - 1], share, PayCollectors(reg, total, h[..|h| - 1], share).value.0)
    ensures var reg', a := PayCollectors(reg, total, h[..|h| - 1], share).value.0, h[|h| - 1].to;
      && (Collects(reg', a) <==> Collects(reg, a))
      && (Collects(reg, a) ==>
            && Scaled(share, GradeOf(reg'.participants[a])) == NextDue(reg, h, share)
            && reg'.participants[a].processed == reg.participants[a].processed
            && reg'.participants[a].tokens
               == reg.participants[a].tokens
                  + CollectorGain(reg.participants[a], share, HandedTo(h[..|h| - 1], a)))
  {
    var reg', init, a := PayCollectors(reg, total, h[..|h| - 1], share).value.0, h[..|h| - 1], h[|h| - 1].to;
    if a in reg.participants {
      assert Booked(reg.participants[a], reg'.participants[a], Times(reg, init, a),
                    CollectorGain(reg.participants[a], share, Times(reg, init, a)));
    }
  }

  /** A reward is booked exactly when both products, the collectors' part, and the submitter's part fit 128 bits. */
  ghost predicate RewardFits(reg: Registry, total: nat, cfg: RewardConfig, h: seq<Transfer>, submitter: Address,
                             reward: nat) {
    var share := reward * cfg.collector / 100;
    || reward == 0
    || (&& reward * cfg.collector <= U128_MAX && reward * cfg.owner <= U128_MAX
        && CollectorsFit(reg, total, h, share)
        && Distributed(reg, h, share) + reward * cfg.owner / 100 <= U128_MAX
        && (submitter in reg.participants && SubmitterAmount(reg, h, cfg, reward) > 0 ==>
              var p, n := reg.participants[submitter], Times(reg, h, submitter);
              var gain := Scaled(SubmitterAmount(reg, h, cfg, reward), GradeAfter(p, n));
              && p.tokens + CollectorGain(p, share, n) + gain <= U128_MAX
              && total + PaidOut(reg, h, share) + gain <= U128_MAX))
  }

  lemma RewardFitsIff(reg: Registry, total: nat, cfg: RewardConfig, h: seq<Transfer>, submitter: Address, reward: nat)
    ensures RewardTokens(reg, total, cfg, h, submitter, reward).Ok?
            <==> RewardFits(reg, total, cfg, h, submitter, reward)
  {
    if reward != 0 && Divisible(reward, cfg, U128_MAX) {
      var share := reward * cfg.collector / 100;
      CollectorsFitIff(reg, total, h, share);
      if PayCollectors(reg, total, h, share).Ok? {
        CollectorsAre(reg, total, h, share);
        if submitter in reg.participants {
          assert Booked(reg.participants[submitter],
                        PayCollectors(reg, total, h, share).value.0.participants[submitter],
                        Times(reg, h, submitter),
                        CollectorGain(reg.participants[submitter], share, Times(reg, h, submitter)));
        }
      }
    }
  }
}
