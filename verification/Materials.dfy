/** Version 1 materials: their ids, their transfer chains, their contamination discount and the carbon they mint. */
module Materials {
  import opened Prelude
  import opened Model
  import opened CustodyIndex
  import opened Provenance
  import opened Rewards
  import opened Incentives
  import opened RewardSplit
  import opened Carbon

  // ---------- what the calls leave of the store ----------

  /** Verification only marks materials. */
  ghost predicate MarksVerified(st: Store, after: Store) {
    && after == st.(materials := after.materials) && after.materials.Keys == st.materials.Keys
    && forall id :: id in st.materials ==>
      after.materials[id] == st.materials[id].(verified := after.materials[id].verified)
  }

  lemma VerifyOneMarks(s: State, id: nat, tokens: nat)
    requires id in s.store.materials && VerifyOne(s, id, tokens).Ok?
    ensures MarksVerified(s.store, VerifyOne(s, id, tokens).value.store)
  {}

  lemma {:induction false} VerifyAllMarks(s: State, ids: seq<nat>)
    requires VerifyAll(s, ids).Ok?
    ensures MarksVerified(s.store, VerifyAll(s, ids).value.store)
  {
    if ids != [] {
      VerifyAllMarks(s, ids[..|ids| - 1]);
      var done, id := VerifyAll(s, ids[..|ids| - 1]).value, ids[|ids| - 1];
      if id in done.store.materials { VerifyOneMarks(done, id, Points(done.store.materials[id]).value); }
    }
  }

  lemma VerifyMarks(s: State, now: nat, op: MaterialOp)
    requires op.Verify? || op.VerifyMany?
    ensures MarksVerified(s.store, MaterialStep(s, now, op).store)
  {
    match op
    case Verify(id, verifier) =>
      if VerifyMaterial(s, now, id, verifier).Ok? {
        VerifyOneMarks(s, id, Discounted(s.store, id, Points(s.store.materials[id]).value));
      }
    case VerifyMany(ids, verifier) =>
      if VerifyMaterials(s, ids, verifier).Ok? { VerifyAllMarks(s, ids); }
  }

  /** Materials never touch the version 2 side. */
  lemma StepKeepsWastes(s: State, now: nat, op: MaterialOp)
    ensures var st := MaterialStep(s, now, op).store;
      st.wastes == s.store.wastes && st.lists == s.store.lists && st.history == s.store.history
      && st.pending == s.store.pending && st.pendingCount == s.store.pendingCount
  {
    if op.Verify? || op.VerifyMany? { VerifyMarks(s, now, op); }
  }

  lemma MaterialKeepsIds(s: State, now: nat, op: MaterialOp)
    requires IdsInv(s.store)
    ensures IdsInv(MaterialStep(s, now, op).store)
  {
    if op.Verify? || op.VerifyMany? { VerifyMarks(s, now, op); }
  }

  // ---------- chains ----------

  /** Each material's transfers end at its present holder, link up, and climb the roles. */
  ghost predicate MaterialChains(reg: Registry, st: Store) {
    forall id :: id in st.materials ==> GoodChain(reg, st, id)
  }

  ghost predicate GoodChain(reg: Registry, st: Store, id: nat)
    requires id in st.materials
  {
    var h := Lookup(st.transfers, id, []);
    EndsAt(h, st.materials[id].submitter) && Linked(h) && Climbs(reg, h)
  }

  lemma HandOnKeepsChains(reg: Registry, st: Store, now: nat, id: nat, from: Address, to: Address)
    requires MaterialChains(reg, st) && TransferMaterial(reg, st, now, id, from, to).Ok?
    ensures MaterialChains(reg, TransferMaterial(reg, st, now, id, from, to).value)
  {
    var t := Transfer(id, from, to, now, 0, 0, VersionOne);
    assert GoodChain(reg, st, id) && Climb(reg, t);
    LinkedConcat(Lookup(st.transfers, id, []), [t]);
  }

  lemma StepKeepsMaterialChains(s: State, now: nat, op: MaterialOp)
    requires IdsInv(s.store) && MaterialChains(s.reg, s.store)
    ensures MaterialChains(s.reg, MaterialStep(s, now, op).store)
  {
    match op
    case HandOn(id, from, to) =>
      if TransferMaterial(s.reg, s.store, now, id, from, to).Ok? {
        HandOnKeepsChains(s.reg, s.store, now, id, from, to);
      }
    case Submit(_, _, _, _) => assert s.store.count + 1 !in s.store.materials;
    case Verify(_, _) => VerifyMarks(s, now, op);
    case VerifyMany(_, _) => VerifyMarks(s, now, op);
    case _ =>
  }

  /** The reward paths read a material's own transfers. */
  lemma MaterialHistory(st: Store, id: nat)
    requires IdsInv(st) && id in st.materials
    ensures TransferHistory(st, id) == Lookup(st.transfers, id, [])
  {}

  /** The contamination discount never reaches a material: it looks its id up among the version 2 wastes. */
  lemma DiscountNeverReaches(st: Store, id: nat, points: nat)
    requires IdsInv(st) && id in st.materials
    ensures Discounted(st, id, points) == points
  {}

  lemma FixedSharesFit(s: State, m: nat, reward: nat)
    requires IdsInv(s.store) && MaterialChains(s.reg, s.store) && m in s.store.materials
    requires s.funds.config.collector + s.funds.config.owner <= 100
    ensures FixedShares(s, m, reward) <= reward
  {
    var share := Share(reward, s.funds.config.collector);
    MaterialHistory(s.store, m);
    assert GoodChain(s.reg, s.store, m);
    var k := |CollectorPayments(s.reg, TransferHistory(s.store, m), share)|;
    OneCollectorAtMost(s.reg, TransferHistory(s.store, m), share);
    if k == 1 {
      SharesFit(reward, 1, s.funds.config.collector, s.funds.config.owner);
    } else {
      SharesFit(reward, 0, s.funds.config.collector, s.funds.config.owner);
    }
  }

  /** With the roles the chains were made under, a distribution pays out exactly what it charges if and only if
      the reward fits 64 bits. */
  lemma FixedRolesPayTheCharge(s: State, m: nat, id: nat, a: Address, multiplier: nat)
    requires IdsInv(s.store) && MaterialChains(s.reg, s.store) && s.funds.config.collector + s.funds.config.owner <= 100
    requires DistributeRewards(s, m, id, a, multiplier, true, true).Ok?
    ensures m in s.store.materials && id in s.funds.incentives
    ensures var r := DistributeRewards(s, m, id, a, multiplier, true, true).value;
      && id in r.0.funds.incentives
      && (Payout(r.1) == s.funds.incentives[id].remaining - r.0.funds.incentives[id].remaining
          <==> Owed(s, m, id, multiplier) <= U64_MAX)
  {
    PayoutIsChargeIff(s, m, id, a, multiplier);
    FixedSharesFit(s, m, Owed(s, m, id, multiplier));
  }

  // ---------- minting ----------

  /** Total carbon and supply moved by the same amount, the listings not at all. */
  ghost predicate Minted(s: State, s': State) {
    && s'.market == s.market.(totalCarbon := s'.market.totalCarbon)
    && s'.market.totalCarbon + Supply(s.stats, s.market) == s.market.totalCarbon + Supply(s'.stats, s'.market)
  }

  lemma MintedTransitive(a: State, b: State, c: State)
    requires Minted(a, b) && Minted(b, c)
    ensures Minted(a, c)
  {}

  lemma VerifyOneMints(s: State, id: nat, tokens: nat)
    requires id in s.store.materials && VerifyOne(s, id, tokens).Ok?
    ensures Minted(s, VerifyOne(s, id, tokens).value)
  {
    var m := s.store.materials[id];
    var had := Lookup(s.stats, m.submitter, NO_STATS);
    WriteCarbon(s.stats, m.submitter, had.(carbon := had.carbon + Credits(m.(verified := true))));
  }

  lemma {:induction false} VerifyAllMints(s: State, ids: seq<nat>)
    requires VerifyAll(s, ids).Ok?
    ensures Minted(s, VerifyAll(s, ids).value)
  {
    if ids != [] {
      VerifyAllMints(s, ids[..|ids| - 1]);
      var done, id := VerifyAll(s, ids[..|ids| - 1]).value, ids[|ids| - 1];
      if id in done.store.materials {
        VerifyOneMints(done, id, Points(done.store.materials[id]).value);
        MintedTransitive(s, done, VerifyAll(s, ids).value);
      }
    }
  }

  lemma StepMints(s: State, now: nat, op: MaterialOp)
    ensures Minted(s, MaterialStep(s, now, op))
  {
    match op
    case Submit(minWeight, wt, w, a) => TouchKeepsCarbon(s.stats, a);
    case Verify(id, verifier) =>
      if VerifyMaterial(s, now, id, verifier).Ok? {
        VerifyOneMints(s, id, Discounted(s.store, id, Points(s.store.materials[id]).value));
      }
    case VerifyMany(ids, verifier) =>
      if VerifyMaterials(s, ids, verifier).Ok? { VerifyAllMints(s, ids); }
    case _ =>
  }

  // ---------- what a verification mints ----------

  /** The credits of a material that has been verified. */
  function CreditsEarned(m: Material): nat { if m.verified then Credits(m) else 0 }

  ghost function VerifiedCredits(materials: map<nat, Material>): nat { MapSum(materials, CreditsEarned) }

  /** What a batch of verifications mints for materials that were verified already. */
  function MintedAgainBy(s: State, ids: seq<nat>): nat
    requires VerifyAll(s, ids).Ok?
  {
    if ids == [] then 0
    else
      var init, id := ids[..|ids| - 1], ids[|ids| - 1];
      var materials := VerifyAll(s, init).value.store.materials;
      MintedAgainBy(s, init) + if id in materials then CreditsEarned(materials[id]) else 0
  }

  /** Neither entry point asks whether a material was verified before. */
  function MintedAgain(s: State, now: nat, op: MaterialOp): nat {
    match op
    case Verify(id, verifier) =>
      if VerifyMaterial(s, now, id, verifier).Ok? then CreditsEarned(s.store.materials[id]) else 0
    case VerifyMany(ids, verifier) => if VerifyMaterials(s, ids, verifier).Ok? then MintedAgainBy(s, ids) else 0
    case _ => 0
  }

  /** Total carbon rose by what the verified materials are worth more, and by `again`. */
  ghost predicate MintedFor(s: State, s': State, again: nat) {
    s'.market.totalCarbon + VerifiedCredits(s.store.materials)
    == s.market.totalCarbon + VerifiedCredits(s'.store.materials) + again
  }

  lemma VerifyOneMintsFor(s: State, id: nat, tokens: nat)
    requires id in s.store.materials && VerifyOne(s, id, tokens).Ok?
    ensures MintedFor(s, VerifyOne(s, id, tokens).value, CreditsEarned(s.store.materials[id]))
  {
    MapSumSet(s.store.materials, id, s.store.materials[id].(verified := true), CreditsEarned);
    MapSumAtLeast(s.store.materials, id, CreditsEarned);
  }

  lemma {:induction false} VerifyAllMintsFor(s: State, ids: seq<nat>)
    requires VerifyAll(s, ids).Ok?
    ensures MintedFor(s, VerifyAll(s, ids).value, MintedAgainBy(s, ids))
  {
    if ids != [] {
      VerifyAllMintsFor(s, ids[..|ids| - 1]);
      var done, id := VerifyAll(s, ids[..|ids| - 1]).value, ids[|ids| - 1];
      if id in done.store.materials { VerifyOneMintsFor(done, id, Points(done.store.materials[id]).value); }
    }
  }

  lemma StoredMintsNothing(materials: map<nat, Material>, id: nat, m: Material)
    requires CreditsEarned(m) == if id in materials then CreditsEarned(materials[id]) else 0
    ensures VerifiedCredits(materials[id := m]) == VerifiedCredits(materials)
  {
    MapSumSet(materials, id, m, CreditsEarned);
  }

  /** A verification mints the material's credits, whether they were minted before or not; nothing else mints. */
  lemma StepMintsFor(s: State, now: nat, op: MaterialOp)
    requires IdsInv(s.store)
    ensures MintedFor(s, MaterialStep(s, now, op), MintedAgain(s, now, op))
  {
    match op
    case Submit(minWeight, wt, w, a) =>
      assert s.store.count + 1 !in s.store.materials;
      StoredMintsNothing(s.store.materials, s.store.count + 1, Material(wt, w, a, false));
    case HandOn(id, from, to) =>
      if id in s.store.materials {
        StoredMintsNothing(s.store.materials, id, s.store.materials[id].(submitter := to));
      }
    case Verify(id, verifier) =>
      if VerifyMaterial(s, now, id, verifier).Ok? {
        VerifyOneMintsFor(s, id, Discounted(s.store, id, Points(s.store.materials[id]).value));
      }
    case VerifyMany(ids, verifier) => if VerifyMaterials(s, ids, verifier).Ok? { VerifyAllMintsFor(s, ids); }
    case _ =>
  }
}
