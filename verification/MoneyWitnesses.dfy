/** Runs from initialisation after which rewards, charges and credits part company. */
module MoneyWitnesses {
  import opened Prelude
  import opened Model
  import opened Custody
  import opened Rewards
  import opened Incentives
  import opened RewardSplit
  import opened Materials
  import opened Governance
  import P = Participants
  import opened Runs
  import opened Witnesses

  // ---------- a reward beyond 64 bits ----------

  const TWO_TO_63: nat := 0x8000_0000_0000_0000
  const TWO_TO_64: nat := 0x1_0000_0000_0000_0000

  /** Two kilograms of paper are submitted and verified, and a manufacturer sets up a programme of 2^63 points a
      kilogram with a budget of one token. */
  function Lavish(r: Address, m: Address): seq<Call> {
    [Joining(r, Recycler), Joining(m, Manufacturer), Call(0, OnMaterial(Submit(0, Paper, 2000, r))),
     Call(0, OnMaterial(Verify(1, r))), Call(0, OnIncentive(Create(m, Paper, TWO_TO_63, 1)))]
  }

  /** The recycler's record after the submission and after its verification. */
  function Submitter(tokens: nat, reputation: int): Participant {
    Participant(Recycler, true, 2000, tokens, reputation, 0, Expert, Bronze)
  }

  function Pair(p: Participant, r: Address, m: Address): Registry {
    Registry(map[r := p, m := P.NewParticipant(Manufacturer, 0)], [r, m])
  }

  function PaperStore(r: Address, verified: bool): Store {
    Store(1, map[1 := Material(Paper, 2000, r, verified)], map[], map[], map[], map[], 0, map[])
  }

  function SubmittedState(admin: Address, r: Address, m: Address): State {
    Genesis(admin).(reg := Pair(Submitter(0, 0), r, m), store := PaperStore(r, false), stats := map[r := NO_STATS])
  }

  function VerifiedState(admin: Address, r: Address, m: Address): State {
    Genesis(admin).(reg := Pair(Submitter(30, 20), r, m), store := PaperStore(r, true),
                    stats := map[r := Stats(3600, 0)],
                    market := Market(3600, 0, map[], []), funds := Funds(30, RewardConfig(5, 50), 0, map[]))
  }

  function LavishState(admin: Address, r: Address, m: Address): State {
    VerifiedState(admin, r, m).(funds := Funds(30, RewardConfig(5, 50), 1,
                                               map[1 := Incentive(m, Paper, TWO_TO_63, 1, 1, true)]))
  }

  lemma SubmittedIs(admin: Address, r: Address, m: Address)
    requires r != m
    ensures Run(Genesis(admin), Lavish(r, m)[..3]) == SubmittedState(admin, r, m)
  {
    var calls, s0 := Lavish(r, m), Genesis(admin);
    var one := Registry(map[r := P.NewParticipant(Recycler, 0)], [r]);
    var both := Pair(P.NewParticipant(Recycler, 0), r, m);
    RunOn(s0, calls, 0, s0);
    JoinStep(s0, r, Recycler, one);
    RunOn(s0, calls, 1, s0.(reg := one));
    JoinStep(s0.(reg := one), m, Manufacturer, both);
    RunOn(s0, calls, 2, s0.(reg := both));
    SubmittedStep(admin, r, m);
  }

  lemma SubmittedStep(admin: Address, r: Address, m: Address)
    requires r != m
    ensures Step(Genesis(admin).(reg := Pair(P.NewParticipant(Recycler, 0), r, m)),
                 Call(0, OnMaterial(Submit(0, Paper, 2000, r))))
            == SubmittedState(admin, r, m)
  {
    PairUpdate(P.NewParticipant(Recycler, 0), Submitter(0, 0), r, m);
  }

  lemma PaperPoints()
    ensures Points(Material(Paper, 2000, Address(""), false)) == Ok(20)
    ensures Share(20, 5) == 1 && Share(20, 50) == 10 && Adjusted(Submitter(0, 0), 20) == 30
  {}

  lemma PairUpdate(p: Participant, q: Participant, r: Address, m: Address)
    requires r != m
    ensures Pair(p, r, m).(participants := Pair(p, r, m).participants[r := q]) == Pair(q, r, m)
  {}

  lemma PaperReward(r: Address, m: Address, tokens: nat, reputation: int)
    requires r != m && tokens <= 30
    ensures RewardTokens(Pair(Submitter(tokens, reputation), r, m), tokens, RewardConfig(5, 50), [], r, 20)
            == Ok((Pair(Submitter(tokens + 30, reputation), r, m), tokens + 30))
  {
    PaperPoints();
    PairUpdate(Submitter(tokens, reputation), Submitter(tokens + 30, reputation), r, m);
  }

  lemma PaperThanks(r: Address, m: Address)
    requires r != m
    ensures Reward(Reward(Pair(Submitter(30, 0), r, m), r, REP_VERIFY, 0), r, REP_VERIFY, 0)
            == Pair(Submitter(30, 20), r, m)
  {
    PairUpdate(Submitter(30, 0), Submitter(30, 10), r, m);
    PairUpdate(Submitter(30, 10), Submitter(30, 20), r, m);
  }

  lemma VerifiedIs(admin: Address, r: Address, m: Address)
    requires r != m
    ensures VerifyMaterial(SubmittedState(admin, r, m), 0, 1, r) == Ok(VerifiedState(admin, r, m))
  {
    var s := SubmittedState(admin, r, m);
    var paper := Material(Paper, 2000, r, true);
    assert s.store.materials[1 := paper] == map[1 := paper];
    assert s.stats[r := Stats(3600, 0)] == map[r := Stats(3600, 0)];
    PaperReward(r, m, 0, 0);
    PaperThanks(r, m);
    assert VerificationTokens(s, 1, r) == Ok(20);
    assert VerifyOne(s, 1, 20) == Ok(VerifiedState(admin, r, m).(reg := Pair(Submitter(30, 0), r, m)));
  }

  lemma VerifiedStep(admin: Address, r: Address, m: Address)
    requires r != m
    ensures Step(SubmittedState(admin, r, m), Call(0, OnMaterial(Verify(1, r)))) == VerifiedState(admin, r, m)
  {
    VerifiedIs(admin, r, m);
  }

  lemma VerifiedRun(admin: Address, r: Address, m: Address)
    requires r != m
    ensures Run(Genesis(admin), Lavish(r, m)[..4]) == VerifiedState(admin, r, m)
  {
    SubmittedIs(admin, r, m);
    VerifiedStep(admin, r, m);
    RunOn(Genesis(admin), Lavish(r, m), 3, SubmittedState(admin, r, m));
  }

  lemma CreatingStep(s: State, m: Address, points: nat, total: nat)
    requires Registered(s.reg, m) && s.reg.participants[m].role == Manufacturer
    requires s.funds.incentiveCount == 0 && s.funds.incentives == map[]
    ensures Step(s, Call(0, OnIncentive(Create(m, Paper, points, total))))
            == s.(funds := s.funds.(incentiveCount := 1,
                                    incentives := map[1 := Incentive(m, Paper, points, total, total, true)]))
  {}

  lemma LavishIs(admin: Address, r: Address, m: Address)
    requires r != m
    ensures Run(Genesis(admin), Lavish(r, m)) == LavishState(admin, r, m)
  {
    VerifiedRun(admin, r, m);
    RunEnds(Genesis(admin), Lavish(r, m), VerifiedState(admin, r, m));
    CreatingStep(VerifiedState(admin, r, m), m, TWO_TO_63, 1);
  }

  lemma LavishReward(admin: Address, r: Address, m: Address)
    ensures CheckDistribution(LavishState(admin, r, m), 1, 1, m, 100, true) == Ok(TWO_TO_64) && Low64(TWO_TO_64) == 0
  {
    assert BaseReward(2000, TWO_TO_63, 100) == TWO_TO_64 * 100;
  }

  lemma LavishPayments(reg: Registry, r: Address)
    ensures var half := Payment(r, TWO_TO_63);
      && Payments(reg, [], r, TWO_TO_64, RewardConfig(5, 50)) == [half, half]
      && Payout([half, half]) == TWO_TO_64
  {
    var half := Payment(r, TWO_TO_63);
    assert [half][..0] == [];
    assert Payout([half]) == TWO_TO_63;
    PayoutSnoc([half], half);
    assert [half] + [half] == [half, half];
  }

  lemma LavishEarnings(r: Address, m: Address)
    requires r != m
    ensures var half := Payment(r, TWO_TO_63);
      EarnAll(Pair(Submitter(30, 20), r, m), 30, [half, half])
      == Ok((Pair(Submitter(30 + TWO_TO_64, 20), r, m), 30 + TWO_TO_64))
  {
    var half := Payment(r, TWO_TO_63);
    var p0, p1, p2 := Submitter(30, 20), Submitter(30 + TWO_TO_63, 20), Submitter(30 + TWO_TO_64, 20);
    assert [half, half][..1] == [half] && [half][..0] == [];
    PairUpdate(p0, p1, r, m);
    PairUpdate(p1, p2, r, m);
    assert Low64(TWO_TO_63) == TWO_TO_63;
    assert Earn(Pair(p0, r, m), 30, r, 0, TWO_TO_63) == Ok((Pair(p1, r, m), 30 + TWO_TO_63));
    assert Earn(Pair(p1, r, m), 30 + TWO_TO_63, r, 0, TWO_TO_63) == Ok((Pair(p2, r, m), 30 + TWO_TO_64));
    assert EarnAll(Pair(p0, r, m), 30, [half]) == Ok((Pair(p1, r, m), 30 + TWO_TO_63));
  }

  /** In that run's state a distribution of 2^64 tokens is accepted on a budget of one and charges nothing. */
  lemma RewardCanBeFree(admin: Address, r: Address, m: Address)
    requires r != m
    ensures var s := Run(Genesis(admin), Lavish(r, m));
      && DistributeRewards(s, 1, 1, m, 100, true, true).Ok?
      && var done := DistributeRewards(s, 1, 1, m, 100, true, true).value;
      && Payout(done.1) == TWO_TO_64
      && 1 in done.0.funds.incentives && done.0.funds.incentives[1].remaining == 1
  {
    LavishIs(admin, r, m);
    LavishReward(admin, r, m);
    LavishPayments(LavishState(admin, r, m).reg, r);
    LavishEarnings(r, m);
  }

  // ---------- a material verified twice ----------

  lemma VerifiedAgain(admin: Address, r: Address, m: Address)
    requires r != m
    ensures VerifyMaterial(VerifiedState(admin, r, m), 0, 1, r).Ok?
    ensures var s := VerifyMaterial(VerifiedState(admin, r, m), 0, 1, r).value;
      s.market.totalCarbon == 7200 && s.store.materials == map[1 := Material(Paper, 2000, r, true)]
  {
    var s, paper := VerifiedState(admin, r, m), Material(Paper, 2000, r, true);
    assert s.store.materials[1 := paper] == map[1 := paper];
    PaperReward(r, m, 30, 20);
    assert VerificationTokens(s, 1, r) == Ok(20);
  }

  /** The same two kilograms are verified once more and mint their credits once more. */
  lemma MaterialCanMintTwice(admin: Address, r: Address, m: Address)
    requires r != m
    ensures var s := Run(Genesis(admin), Lavish(r, m)[..4] + [Call(0, OnMaterial(Verify(1, r)))]);
      s.market.totalCarbon == 7200 && VerifiedCredits(s.store.materials) == 3600
  {
    VerifiedRun(admin, r, m);
    RunOneMore(Genesis(admin), Lavish(r, m)[..4], Call(0, OnMaterial(Verify(1, r))));
    VerifiedAgain(admin, r, m);
    var materials: map<nat, Material> := map[1 := Material(Paper, 2000, r, true)];
    MapSumRemove(materials, 1, CreditsEarned);
    assert materials - {1} == map[];
  }

  // ---------- shares beyond the reward ----------

  /** Collectors and owner are to get half of a reward each. The recycler hands the verified paper to the manufacturer,
      the two become collector and recycler, and the paper goes back. */
  function Generous(admin: Address, r: Address, m: Address): seq<Call> {
    Lavish(r, m)[..4]
    + [Call(0, OnAdmin(SetBoth(admin, 50, 50))), Call(0, OnIncentive(Create(m, Paper, 50, 100))),
       Call(0, OnMaterial(HandOn(1, r, m))), Call(0, OnPeople(P.ChangeRole(m, Recycler))),
       Call(0, OnPeople(P.ChangeRole(r, Collector))), Call(0, OnMaterial(HandOn(1, m, r)))]
  }

  function Round(r: Address, m: Address): seq<Transfer> {
    [Transfer(1, r, m, 0, 0, 0, VersionOne), Transfer(1, m, r, 0, 0, 0, VersionOne)]
  }

  function HandedOn(holder: Address, h: seq<Transfer>): Store {
    PaperStore(holder, true).(transfers := map[1 := h])
  }

  /** The manufacturer has become a recycler, the recycler has the role given. */
  function Turned(r: Address, m: Address, role: Role): Registry {
    Registry(map[r := Submitter(30, 20).(role := role), m := P.NewParticipant(Recycler, 0)], [r, m])
  }

  function HalfAndHalf(m: Address): Funds {
    Funds(30, RewardConfig(50, 50), 1, map[1 := Incentive(m, Paper, 50, 100, 100, true)])
  }

  function GenerousState(admin: Address, r: Address, m: Address): State {
    VerifiedState(admin, r, m).(reg := Turned(r, m, Collector), store := HandedOn(r, Round(r, m)),
                                funds := HalfAndHalf(m))
  }

  lemma SharesStep(s: State, admin: Address)
    requires admin in s.gov.admins
    ensures Step(s, Call(0, OnAdmin(SetBoth(admin, 50, 50)))) == s.(funds := s.funds.(config := RewardConfig(50, 50)))
  {}

  lemma ProgrammeIs(admin: Address, r: Address, m: Address)
    requires r != m
    ensures Run(Genesis(admin), Generous(admin, r, m)[..6]) == VerifiedState(admin, r, m).(funds := HalfAndHalf(m))
  {
    var calls, s := Generous(admin, r, m), VerifiedState(admin, r, m);
    var shared := s.(funds := s.funds.(config := RewardConfig(50, 50)));
    assert calls[..4] == Lavish(r, m)[..4];
    VerifiedRun(admin, r, m);
    RunOn(Genesis(admin), calls, 4, s);
    SharesStep(s, admin);
    RunOn(Genesis(admin), calls, 5, shared);
    CreatingStep(shared, m, 50, 100);
  }

  lemma FirstHandOn(reg: Registry, r: Address, m: Address)
    requires ValidRoute(reg, r, m) && r != m
    ensures TransferMaterial(reg, PaperStore(r, true), 0, 1, r, m) == Ok(HandedOn(m, Round(r, m)[..1]))
  {
    var t := Round(r, m)[0];
    assert [] + [t] == Round(r, m)[..1];
    assert PaperStore(r, true).materials[1 := Material(Paper, 2000, m, true)] == PaperStore(m, true).materials;
  }

  lemma SecondHandOn(reg: Registry, r: Address, m: Address)
    requires ValidRoute(reg, m, r) && r != m
    ensures TransferMaterial(reg, HandedOn(m, Round(r, m)[..1]), 0, 1, m, r) == Ok(HandedOn(r, Round(r, m)))
  {
    var st, h := HandedOn(m, Round(r, m)[..1]), Round(r, m);
    assert h[..1] + [h[1]] == h && st.transfers[1 := h] == map[1 := h];
    assert st.materials[1 := Material(Paper, 2000, r, true)] == PaperStore(r, true).materials;
  }

  lemma RoleStep(s: State, a: Address, role: Role)
    requires Registered(s.reg, a)
    ensures Step(s, Call(0, OnPeople(P.ChangeRole(a, role))))
            == s.(reg := s.reg.(participants := s.reg.participants[a := s.reg.participants[a].(role := role)]))
  {}

  lemma RolesTurn(r: Address, m: Address)
    requires r != m
    ensures var p, q := Pair(Submitter(30, 20), r, m).participants, Turned(r, m, Recycler).participants;
      && p[m := p[m].(role := Recycler)] == Turned(r, m, Recycler).participants
      && q[r := q[r].(role := Collector)] == Turned(r, m, Collector).participants
  {}

  lemma HandOnStep(s: State, id: nat, from: Address, to: Address, after: Store)
    requires TransferMaterial(s.reg, s.store, 0, id, from, to) == Ok(after)
    ensures Step(s, Call(0, OnMaterial(HandOn(id, from, to)))) == s.(store := after)
  {}

  lemma HandedRun(admin: Address, r: Address, m: Address)
    requires r != m
    ensures Run(Genesis(admin), Generous(admin, r, m)[..7])
            == VerifiedState(admin, r, m).(store := HandedOn(m, Round(r, m)[..1]), funds := HalfAndHalf(m))
  {
    var s := VerifiedState(admin, r, m).(funds := HalfAndHalf(m));
    ProgrammeIs(admin, r, m);
    FirstHandOn(s.reg, r, m);
    RunOn(Genesis(admin), Generous(admin, r, m), 6, s);
    HandOnStep(s, 1, r, m, HandedOn(m, Round(r, m)[..1]));
  }

  lemma TurnedRun(admin: Address, r: Address, m: Address)
    requires r != m
    ensures Run(Genesis(admin), Generous(admin, r, m)[..8])
            == GenerousState(admin, r, m).(reg := Turned(r, m, Recycler), store := HandedOn(m, Round(r, m)[..1]))
  {
    var s := VerifiedState(admin, r, m).(store := HandedOn(m, Round(r, m)[..1]), funds := HalfAndHalf(m));
    HandedRun(admin, r, m);
    RolesTurn(r, m);
    RunOn(Genesis(admin), Generous(admin, r, m), 7, s);
    RoleStep(s, m, Recycler);
  }

  lemma SwappedRun(admin: Address, r: Address, m: Address)
    requires r != m
    ensures Run(Genesis(admin), Generous(admin, r, m)[..9])
            == GenerousState(admin, r, m).(store := HandedOn(m, Round(r, m)[..1]))
  {
    var s := GenerousState(admin, r, m).(reg := Turned(r, m, Recycler), store := HandedOn(m, Round(r, m)[..1]));
    TurnedRun(admin, r, m);
    RolesTurn(r, m);
    RunOn(Genesis(admin), Generous(admin, r, m), 8, s);
    RoleStep(s, r, Collector);
  }

  lemma GenerousIs(admin: Address, r: Address, m: Address)
    requires r != m
    ensures Run(Genesis(admin), Generous(admin, r, m)) == GenerousState(admin, r, m)
  {
    var s := GenerousState(admin, r, m).(store := HandedOn(m, Round(r, m)[..1]));
    SwappedRun(admin, r, m);
    SecondHandOn(Turned(r, m, Collector), r, m);
    RunEnds(Genesis(admin), Generous(admin, r, m), s);
    HandOnStep(s, 1, m, r, HandedOn(r, Round(r, m)));
  }

  lemma HalvesThrice(r: Address, m: Address)
    requires r != m
    ensures Payments(Turned(r, m, Collector), Round(r, m), r, 100, RewardConfig(50, 50))
            == [Payment(m, 50), Payment(r, 50), Payment(r, 50)]
    ensures Payout([Payment(m, 50), Payment(r, 50), Payment(r, 50)]) == 150
  {
    var h, one := Round(r, m), [Payment(m, 50)];
    assert h[..1][..0] == [];
    assert CollectorPayments(Turned(r, m, Collector), h[..1], 50) == one;
    var two := one + [Payment(r, 50)];
    assert CollectorPayments(Turned(r, m, Collector), h, 50) == two;
    assert one[..0] == [] && Payout(one) == 50;
    PayoutSnoc(one, Payment(r, 50));
    PayoutSnoc(two, Payment(r, 50));
    assert two + [Payment(r, 50)] == [Payment(m, 50), Payment(r, 50), Payment(r, 50)];
  }

  lemma SmallPaymentFits(reg: Registry, total: nat, a: Address, amount: nat, limit: nat)
    requires amount <= limit <= U64_MAX && total + amount <= U64_MAX
    requires forall b :: b in reg.participants ==>
      reg.participants[b].tokens + amount <= limit && reg.participants[b].processed <= U64_MAX
    ensures Earn(reg, total, a, 0, Low64(amount)).Ok?
    ensures var r := Earn(reg, total, a, 0, Low64(amount)).value;
      && r.1 <= total + amount
      && forall b :: b in r.0.participants ==>
        && b in reg.participants && r.0.participants[b].processed == reg.participants[b].processed
        && r.0.participants[b].tokens <= reg.participants[b].tokens + amount
  {
    assert Low64(amount) == amount;
  }

  /** Small payments to known participants are always booked. */
  lemma {:induction false} SmallPaymentsFit(reg: Registry, total: nat, pays: seq<Payment>)
    requires total + Payout(pays) <= U64_MAX
    requires forall a :: a in reg.participants ==> reg.participants[a].tokens + Payout(pays) <= U64_MAX
    requires forall a :: a in reg.participants ==> reg.participants[a].processed <= U64_MAX
    ensures EarnAll(reg, total, pays).Ok?
    ensures var r := EarnAll(reg, total, pays).value;
      && r.1 <= total + Payout(pays)
      && forall a :: a in r.0.participants ==>
        && a in reg.participants && r.0.participants[a].processed == reg.participants[a].processed
        && r.0.participants[a].tokens <= reg.participants[a].tokens + Payout(pays)
  {
    if pays != [] {
      var init, last := pays[..|pays| - 1], pays[|pays| - 1];
      SmallPaymentsFit(reg, total, init);
      var done := EarnAll(reg, total, init).value;
      SmallPaymentFits(done.0, done.1, last.to, last.amount, U64_MAX);
    }
  }

  lemma GenerousCheck(admin: Address, r: Address, m: Address)
    ensures CheckDistribution(GenerousState(admin, r, m), 1, 1, m, 100, true) == Ok(100)
  {
    assert BaseReward(2000, 50, 100) == 10_000;
  }

  lemma GenerousPays(admin: Address, r: Address, m: Address)
    requires r != m
    ensures var s := GenerousState(admin, r, m);
      && DistributeRewards(s, 1, 1, m, 100, true, true).Ok?
      && var done := DistributeRewards(s, 1, 1, m, 100, true, true).value;
      && Payout(done.1) == 150 && 1 in s.funds.incentives && 1 in done.0.funds.incentives
      && s.funds.incentives[1].remaining - done.0.funds.incentives[1].remaining == 100
  {
    GenerousCheck(admin, r, m);
    HalvesThrice(r, m);
    SmallPaymentsFit(Turned(r, m, Collector), 30, [Payment(m, 50), Payment(r, 50), Payment(r, 50)]);
    SettlementIs(GenerousState(admin, r, m), 1, 1, 100);
  }

  /** In that run's state a distribution of 100 tokens pays out 150 and charges 100. */
  lemma RolesCanOverpay(admin: Address, r: Address, m: Address)
    requires r != m
    ensures var s := Run(Genesis(admin), Generous(admin, r, m));
      && DistributeRewards(s, 1, 1, m, 100, true, true).Ok?
      && var done := DistributeRewards(s, 1, 1, m, 100, true, true).value;
      && Payout(done.1) == 150 && 1 in s.funds.incentives && 1 in done.0.funds.incentives
      && s.funds.incentives[1].remaining - done.0.funds.incentives[1].remaining == 100
  {
    GenerousIs(admin, r, m);
    GenerousPays(admin, r, m);
  }
}
