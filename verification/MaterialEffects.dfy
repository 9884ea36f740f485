/** Version 1 materials, grants and donations once more: which calls go through, and what each leaves of every material,
    record and account. */
module MaterialEffects {
  import opened Prelude
  import opened Model
  import opened Custody
  import opened CustodyIndex
  import opened Rewards
  import CE = CustodyEffects
  import opened MarketEffects
  import opened RewardEffects
  import opened Materials

  /** Ten points a kilogram, times the type's rate; whole kilograms only. */
  function TokensFor(m: Material): nat { m.weight / 1000 * m.wasteType.PointRate() * 10 }

  /** Grams of CO2 saved, by the type's rate a kilogram. */
  function CreditsFor(m: Material): nat { m.weight * m.wasteType.CarbonRate() / 1000 }

  predicate Verifier(reg: Registry, a: Address) {
    a in reg.participants && reg.participants[a].registered && reg.participants[a].role == Recycler
  }

  /** Whether one verification with this reward fits the integers it adds to. */
  ghost predicate Verifiable(s: State, id: nat, tokens: nat)
    requires id in s.store.materials
  {
    var m := s.store.materials[id];
    && CarbonAt(s.stats, m.submitter) + CreditsFor(m) <= U128_MAX
    && s.market.totalCarbon + CreditsFor(m) <= U128_MAX
    && RewardFits(s.reg, s.funds.totalTokens, s.funds.config, Chain(s.store, id), m.submitter, tokens)
  }

  function Chain(st: Store, id: nat): seq<Transfer> { if id in st.transfers then st.transfers[id] else [] }

  // ---------- one verification ----------

  ghost predicate OnlyCarbon(stats: map<Address, Stats>, after: map<Address, Stats>, a: Address, credits: nat) {
    forall b ::
      && CarbonAt(after, b) == CarbonAt(stats, b) + (if b == a then credits else 0)
      && RecycledAt(after, b) == RecycledAt(stats, b) && (b in after <==> b in stats || b == a)
  }

  /** The material is marked, its submitter's account and the global counter get its credits, and everybody's tokens
      rise by what the reward brings them. */
  ghost predicate Verified(s: State, s': State, id: nat, tokens: nat) {
    && id in s.store.materials
    && var m := s.store.materials[id];
    && s' == s.(reg := s'.reg, store := s.store.(materials := s.store.materials[id := m.(verified := true)]),
                stats := s'.stats, market := s.market.(totalCarbon := s.market.totalCarbon + CreditsFor(m)),
                funds := s.funds.(totalTokens := s'.funds.totalTokens))
    && OnlyCarbon(s.stats, s'.stats, m.submitter, CreditsFor(m))
    && s'.reg.index == s.reg.index && s'.reg.participants.Keys == s.reg.participants.Keys
    && forall a :: a in s.reg.participants ==>
      Booked(s.reg.participants[a], s'.reg.participants[a], Bookings(s.reg, Chain(s.store, id), tokens, a),
             RewardGain(s.reg, s.funds.config, Chain(s.store, id), m.submitter, tokens, a))
  }

  lemma VerifyOneIs(s: State, id: nat, tokens: nat)
    requires IdsInv(s.store) && id in s.store.materials
    ensures VerifyOne(s, id, tokens).Ok? <==> Verifiable(s, id, tokens)
    ensures VerifyOne(s, id, tokens).Ok? ==> Verified(s, VerifyOne(s, id, tokens).value, id, tokens)
  {
    var m := s.store.materials[id];
    MaterialHistory(s.store, id);
    RewardFitsIff(s.reg, s.funds.totalTokens, s.funds.config, Chain(s.store, id), m.submitter, tokens);
    if VerifyOne(s, id, tokens).Ok? {
      RewardTokensAre(s.reg, s.funds.totalTokens, s.funds.config, Chain(s.store, id), m.submitter, tokens);
    }
  }

  // ---------- reputation ----------

  /** Ten more for the submitter and ten for the verifier, within the bounds, and both were active just now. */
  function Thanks(p: Participant, times: nat, delta: int, now: nat): Participant {
    if times == 0 then p
    else
      var q := Thanks(p, times - 1, delta, now);
      var score := q.reputation + delta;
      q.(reputation := if score < -1_000 then -1_000 else if score > 10_000 then 10_000 else score, lastActive := now)
  }

  lemma RewardIs(reg: Registry, a: Address, delta: int, now: nat)
    ensures var reg' := Reward(reg, a, delta, now);
      && reg'.index == reg.index && reg'.participants.Keys == reg.participants.Keys
      && forall b :: b in reg.participants ==>
        reg'.participants[b] == Thanks(reg.participants[b], if b == a then 1 else 0, delta, now)
  {
    if a in reg.participants { assert Thanks(reg.participants[a], 0, delta, now) == reg.participants[a]; }
  }

  function Both(a: Address, b: Address, c: Address): nat { (if c == a then 1 else 0) + if c == b then 1 else 0 }

  lemma TwiceIs(reg: Registry, a: Address, b: Address, delta: int, now: nat)
    ensures var reg' := Reward(Reward(reg, a, delta, now), b, delta, now);
      && reg'.index == reg.index && reg'.participants.Keys == reg.participants.Keys
      && forall c :: c in reg.participants ==>
        reg'.participants[c] == Thanks(reg.participants[c], Both(a, b, c), delta, now)
  {
    var once := Reward(reg, a, delta, now);
    RewardIs(reg, a, delta, now);
    RewardIs(once, b, delta, now);
    forall c | c in reg.participants
      ensures Reward(once, b, delta, now).participants[c] == Thanks(reg.participants[c], Both(a, b, c), delta, now)
    {
      assert Thanks(reg.participants[c], 0, delta, now) == reg.participants[c];
      if c == a && c == b { assert Thanks(reg.participants[c], 1, delta, now) == once.participants[c]; }
    }
  }

  // ---------- which calls go through ----------

  ghost predicate Admits(s: State, op: MaterialOp) {
    match op
    case Submit(minWeight, wt, w, a) =>
      && Registered(s.reg, a) && 0 < w <= 1_000_000_000 && minWeight <= w && s.store.count < U64_MAX
      && s.reg.participants[a].processed + w <= U128_MAX && s.reg.participants[a].tokens <= U128_MAX
      && s.funds.totalTokens <= U128_MAX
    case HandOn(id, from, to) =>
      id in s.store.materials && s.store.materials[id].submitter == from && CE.Climbing(s.reg, from, to)
    case Verify(id, verifier) =>
      && Verifier(s.reg, verifier) && id in s.store.materials
      && TokensFor(s.store.materials[id]) <= U64_MAX && Verifiable(s, id, TokensFor(s.store.materials[id]))
    case VerifyMany(ids, verifier) => Verifier(s.reg, verifier) && VerifyAll(s, ids).Ok?
    case Grant(tokenSet, a, amount) =>
      && amount > 0 && Registered(s.reg, a) && tokenSet
      && s.reg.participants[a].tokens + amount <= U128_MAX && s.funds.totalTokens + amount <= U128_MAX
    case Give(charitySet, a, amount) =>
      0 < amount && Registered(s.reg, a) && amount <= s.reg.participants[a].tokens && charitySet
  }

  // ---------- what they leave ----------

  /** One record changed, to this. */
  ghost predicate OnlyRecord(reg: Registry, reg': Registry, a: Address, p: Participant) {
    && reg'.index == reg.index && a in reg.participants
    && reg'.participants.Keys == reg.participants.Keys && reg'.participants[a] == p
    && forall b :: b in reg.participants && b != a ==> reg'.participants[b] == reg.participants[b]
  }

  ghost predicate Leaves(s: State, now: nat, op: MaterialOp, s': State) {
    match op
    case Submit(minWeight, wt, w, a) =>
      && a in s.reg.participants
      && var p, id := s.reg.participants[a], s.store.count + 1;
      && s' == s.(reg := s'.reg, store := s'.store, stats := s'.stats)
      && s'.store == s.store.(count := id, materials := s.store.materials[id := Material(wt, w, a, false)])
      && OnlyRecord(s.reg, s'.reg, a,
                    p.(processed := p.processed + w, certification := CertificationFor(p.processed + w),
                       tier := TierFor(p.processed + w)))
      && OnlyCarbon(s.stats, s'.stats, a, 0)
    case HandOn(id, from, to) =>
      && id in s.store.materials
      && s' == s.(store := s.store.(materials := s.store.materials[id := s.store.materials[id].(submitter := to)],
                                    transfers := s.store.transfers[id := Chain(s'.store, id)]))
      && |Chain(s'.store, id)| == |Chain(s.store, id)| + 1
      && Chain(s'.store, id)[..|Chain(s.store, id)|] == Chain(s.store, id)
      && CE.RecordIs(Chain(s'.store, id)[|Chain(s.store, id)|], id, from, to, now, 0, 0, VersionOne)
    case Verify(id, verifier) =>
      && id in s.store.materials
      && exists reg :: Verified(s, s'.(reg := reg), id, TokensFor(s.store.materials[id]))
                       && Thanked(reg, s'.reg, s.store.materials[id].submitter, verifier, now)
    case VerifyMany(ids, verifier) => VerifyAll(s, ids) == Ok(s')
    case Grant(_, a, amount) =>
      && a in s.reg.participants && amount >= 0
      && s' == s.(reg := s'.reg, funds := s.funds.(totalTokens := s.funds.totalTokens + amount))
      && OnlyRecord(s.reg, s'.reg, a, s.reg.participants[a].(tokens := s.reg.participants[a].tokens + amount))
    case Give(_, a, amount) =>
      && a in s.reg.participants && 0 <= amount <= s.reg.participants[a].tokens
      && s' == s.(reg := s'.reg)
      && OnlyRecord(s.reg, s'.reg, a, s.reg.participants[a].(tokens := s.reg.participants[a].tokens - amount))
  }

  /** A verification thanks its submitter and its verifier. */
  ghost predicate Thanked(reg: Registry, reg': Registry, submitter: Address, verifier: Address, now: nat) {
    && reg'.index == reg.index && reg'.participants.Keys == reg.participants.Keys
    && forall a :: a in reg.participants ==>
      reg'.participants[a] == Thanks(reg.participants[a], Both(submitter, verifier, a), 10, now)
  }

  lemma PointsAre(m: Material)
    ensures Points(m).Ok? <==> TokensFor(m) <= U64_MAX
    ensures Points(m).Ok? ==> Points(m).value == TokensFor(m)
  {}

  lemma VerifyIs(s: State, now: nat, id: nat, verifier: Address)
    requires IdsInv(s.store)
    ensures VerifyMaterial(s, now, id, verifier).Ok? <==> Admits(s, Verify(id, verifier))
    ensures VerifyMaterial(s, now, id, verifier).Ok? ==>
      Leaves(s, now, Verify(id, verifier), VerifyMaterial(s, now, id, verifier).value)
  {
    if id in s.store.materials {
      var m := s.store.materials[id];
      PointsAre(m);
      VerifyOneIs(s, id, TokensFor(m));
      if VerifyMaterial(s, now, id, verifier).Ok? {
        var done := VerifyOne(s, id, TokensFor(m)).value;
        TwiceIs(done.reg, m.submitter, verifier, 10, now);
        assert VerifyMaterial(s, now, id, verifier).value.(reg := done.reg) == done;
        assert Verified(s, VerifyMaterial(s, now, id, verifier).value.(reg := done.reg), id, TokensFor(m));
      }
    }
  }

  lemma SubmitIs(s: State, minWeight: nat, wt: WasteType, w: nat, a: Address)
    ensures var r, op := SubmitMaterial(s, minWeight, wt, w, a), Submit(minWeight, wt, w, a);
      && (r.Ok? <==> Admits(s, op))
      && (r.Ok? ==> Leaves(s, 0, op, r.value.0) && r.value.1 == s.store.count + 1)
  {}

  lemma HandOnIs(s: State, now: nat, id: nat, from: Address, to: Address)
    ensures var r, op := TransferMaterial(s.reg, s.store, now, id, from, to), HandOn(id, from, to);
      && (r.Ok? <==> Admits(s, op))
      && (r.Ok? ==> Leaves(s, now, op, s.(store := r.value)))
  {
    CE.RoutesClimb(s.reg, from, to);
  }

  lemma GrantIs(s: State, now: nat, tokenSet: bool, a: Address, amount: int)
    ensures var s', op := MaterialStep(s, now, Grant(tokenSet, a, amount)), Grant(tokenSet, a, amount);
      && (RewardRecipient(s.reg, s.funds.totalTokens, tokenSet, a, amount).Ok? <==> Admits(s, op))
      && if Admits(s, op) then Leaves(s, now, op, s') else s' == s
  {}

  lemma GiveIs(s: State, now: nat, charitySet: bool, a: Address, amount: int)
    ensures var s', op := MaterialStep(s, now, Give(charitySet, a, amount)), Give(charitySet, a, amount);
      && (Donate(s.reg, charitySet, a, amount).Ok? <==> Admits(s, op))
      && if Admits(s, op) then Leaves(s, now, op, s') else s' == s
  {}

  /** Every call on materials goes through exactly when it is admitted, and then leaves exactly this. */
  lemma StepIs(s: State, now: nat, op: MaterialOp)
    requires IdsInv(s.store)
    ensures if Admits(s, op) then Leaves(s, now, op, MaterialStep(s, now, op)) else MaterialStep(s, now, op) == s
  {
    match op
    case Submit(minWeight, wt, w, a) => SubmitIs(s, minWeight, wt, w, a);
    case HandOn(id, from, to) => HandOnIs(s, now, id, from, to);
    case Verify(id, verifier) => VerifyIs(s, now, id, verifier);
    case VerifyMany(ids, verifier) =>
    case Grant(tokenSet, a, amount) => GrantIs(s, now, tokenSet, a, amount);
    case Give(charitySet, a, amount) => GiveIs(s, now, charitySet, a, amount);
  }

  // ---------- batches of verifications ----------

  /** A batch is its ids one after the other. */
  lemma {:induction false} BatchSplits(s: State, ids: seq<nat>, more: seq<nat>)
    ensures VerifyAll(s, ids + more)
            == if VerifyAll(s, ids).Ok? then VerifyAll(VerifyAll(s, ids).value, more) else VerifyAll(s, ids)
  {
    if more == [] {
      assert ids + more == ids;
    } else {
      var init := more[..|more| - 1];
      assert (ids + more)[..|ids + more| - 1] == ids + init;
      BatchSplits(s, ids, init);
    }
  }

  /** A batch of one id is a verification that thanks nobody; an unknown id is passed over. */
  lemma BatchOfOne(s: State, id: nat)
    requires IdsInv(s.store)
    ensures VerifyAll(s, [id]).Ok?
            <==> id !in s.store.materials
                 || (TokensFor(s.store.materials[id]) <= U64_MAX && Verifiable(s, id, TokensFor(s.store.materials[id])))
    ensures VerifyAll(s, [id]).Ok? ==>
      if id in s.store.materials then
        Verified(s, VerifyAll(s, [id]).value, id, TokensFor(s.store.materials[id]))
      else VerifyAll(s, [id]).value == s
  {
    assert [id][..0] == [];
    assert VerifyAll(s, []) == Ok(s);
    if id in s.store.materials {
      PointsAre(s.store.materials[id]);
      VerifyOneIs(s, id, TokensFor(s.store.materials[id]));
    }
  }

  // ---------- the tables ----------

  /** A kilogram of each type: points, grams of CO2 saved. */
  lemma RatesAre(m: Material)
    requires m.weight == 1000
    ensures match m.wasteType
            case Paper => TokensFor(m) == 10 && CreditsFor(m) == 1800
            case PetPlastic => TokensFor(m) == 30 && CreditsFor(m) == 2500
            case Plastic => TokensFor(m) == 20 && CreditsFor(m) == 2500
            case Metal => TokensFor(m) == 50 && CreditsFor(m) == 3200
            case Glass => TokensFor(m) == 20 && CreditsFor(m) == 800
            case Organic => TokensFor(m) == 10 && CreditsFor(m) == 500
            case Electronic => TokensFor(m) == 60 && CreditsFor(m) == 4000
  {}

  /** A share of ten thousand at the grade a processed weight earns: certificates from 11, 51 and 201 on, tiers from
      100,000, 500,000 and 2,000,000 on. */
  lemma GradesAre(p: Participant)
    ensures var n := p.processed;
      Scaled(10_000, Regraded(p))
      == if n <= 10 then 10_000
         else if n <= 50 then 11_000
         else if n <= 200 then 12_500
         else if n < 100_000 then 15_000
         else if n < 500_000 then 16_500
         else if n < 2_000_000 then 18_750
         else 22_500
  {}

  // ---------- refusals ----------

  /** An error a refused call may answer names a check that failed; `Overflow` is left to what is not admitted. */
  predicate Blames(s: State, op: MaterialOp, e: Error) {
    match op
    case Submit(minWeight, wt, w, a) =>
      || (e == NotRegistered && !Registered(s.reg, a)) || e == Overflow
      || (e == InvalidWeight && (w == 0 || w > 1_000_000_000 || w < minWeight))
    case HandOn(id, from, to) =>
      || (e == NotRegistered && (!Registered(s.reg, from) || !Registered(s.reg, to)))
      || (e == MaterialNotFound && id !in s.store.materials)
      || (e == NotWasteOwner && id in s.store.materials && s.store.materials[id].submitter != from)
      || (e == SelfTransfer && from == to) || (e == InvalidTransferRoute && !CE.Climbing(s.reg, from, to))
    case Verify(id, verifier) =>
      || (e == MaterialNotFound && id !in s.store.materials) || NoVerifier(s.reg, verifier, e) || e == Overflow
    case VerifyMany(_, verifier) => NoVerifier(s.reg, verifier, e) || e == Overflow
    case Grant(tokenSet, a, amount) =>
      || (e == InvalidAmount && amount <= 0) || (e == NotRegistered && !Registered(s.reg, a))
      || (e == TokenAddressNotSet && !tokenSet) || e == Overflow
    case Give(charitySet, a, amount) =>
      || (e == InvalidAmount && amount <= 0) || (e == NotRegistered && !Registered(s.reg, a))
      || (e == InsufficientBalance && Registered(s.reg, a) && s.reg.participants[a].tokens < amount)
      || (e == CharityNotSet && !charitySet)
  }

  predicate NoVerifier(reg: Registry, a: Address, e: Error) {
    (e == NotRegistered && !Registered(reg, a)) || (e == Unauthorized && !Verifier(reg, a))
  }

  lemma {:induction false} CollectorsOverflow(reg: Registry, total: nat, h: seq<Transfer>, share: nat)
    ensures var r := PayCollectors(reg, total, h, share); r.Err? ==> r.error == Overflow
  {
    if h != [] { CollectorsOverflow(reg, total, h[..|h| - 1], share); }
  }

  lemma VerifyOneOverflows(s: State, id: nat, tokens: nat)
    requires id in s.store.materials
    ensures VerifyOne(s, id, tokens).Err? ==> VerifyOne(s, id, tokens).error == Overflow
  {
    CollectorsOverflow(s.reg, s.funds.totalTokens, TransferHistory(s.store, id),
                       Share(tokens, s.funds.config.collector));
  }

  lemma {:induction false} VerifyAllOverflows(s: State, ids: seq<nat>)
    ensures VerifyAll(s, ids).Err? ==> VerifyAll(s, ids).error == Overflow
  {
    if ids != [] {
      VerifyAllOverflows(s, ids[..|ids| - 1]);
      var before, id := VerifyAll(s, ids[..|ids| - 1]), ids[|ids| - 1];
      if before.Ok? && id in before.value.store.materials && Points(before.value.store.materials[id]).Ok? {
        VerifyOneOverflows(before.value, id, Points(before.value.store.materials[id]).value);
      }
    }
  }

  lemma SubmitRefusalsAre(s: State, now: nat, id: nat, a: Address, b: Address, w: nat, minWeight: nat, wt: WasteType)
    ensures var r := SubmitMaterial(s, minWeight, wt, w, a);
      r.Err? ==> Blames(s, Submit(minWeight, wt, w, a), r.error)
    ensures var r := TransferMaterial(s.reg, s.store, now, id, a, b); r.Err? ==> Blames(s, HandOn(id, a, b), r.error)
  {
    CE.RoutesClimb(s.reg, a, b);
  }

  lemma VerifyRefusalsAre(s: State, now: nat, id: nat, ids: seq<nat>, a: Address)
    ensures var r := VerifyMaterial(s, now, id, a); r.Err? ==> Blames(s, Verify(id, a), r.error)
    ensures var r := VerifyMaterials(s, ids, a); r.Err? ==> Blames(s, VerifyMany(ids, a), r.error)
  {
    VerifyAllOverflows(s, ids);
    if VerificationTokens(s, id, a).Ok? { VerifyOneOverflows(s, id, VerificationTokens(s, id, a).value); }
  }

  lemma GiftRefusalsAre(s: State, ready: bool, a: Address, amount: int)
    ensures var r := RewardRecipient(s.reg, s.funds.totalTokens, ready, a, amount);
      r.Err? ==> Blames(s, Grant(ready, a, amount), r.error)
    ensures var r := Donate(s.reg, ready, a, amount); r.Err? ==> Blames(s, Give(ready, a, amount), r.error)
  {}
}
