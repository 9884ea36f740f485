/** `batch_transfer_waste` against its simple form: one `transfer_waste_v2` per id, left to right. */
module BatchRefinement {
  import opened Prelude
  import opened Model
  import opened Custody

  /** One transfer per id, each signed by whoever owns the waste at that moment. */
  function OneByOne(reg: Registry, st: Store, now: nat, ids: seq<nat>, to: Address, lat: int, lon: int)
    : Answer<(Registry, Store)>
  {
    if ids == [] then Ok((reg, st))
    else
      var last := |ids| - 1;
      var done :- OneByOne(reg, st, now, ids[..last], to, lat, lon);
      var w :- Find(done.1.wastes, ids[last], WasteNotFound);
      var moved :- TransferWaste(done.0, done.1, now, ids[last], w.owner, to, lat, lon);
      Ok((moved.0, moved.1))
  }

  /** Same participants with the same roles and standing; reputation and activity may differ. */
  ghost predicate SameStanding(reg: Registry, reg': Registry) {
    && reg.participants.Keys == reg'.participants.Keys
    && forall a :: a in reg.participants ==>
      && reg.participants[a].role == reg'.participants[a].role
      && reg.participants[a].registered == reg'.participants[a].registered
  }

  /** What a single transfer checks and a batch does not. */
  predicate Unblocked(w: Waste, to: Address, now: nat) {
    !w.frozen && !w.ReservedAgainst(to, now)
  }

  lemma RewardKeepsStanding(reg: Registry, a: Address, delta: int, now: nat)
    ensures SameStanding(reg, Reward(reg, a, delta, now))
  {}

  lemma StandingIsTransitive(r0: Registry, r1: Registry, r2: Registry)
    requires SameStanding(r0, r1) && SameStanding(r1, r2)
    ensures SameStanding(r0, r2)
  {}

  /** A single transfer of an untouched waste succeeds exactly when the batch check does and nothing blocks it. */
  lemma OneItem(reg: Registry, reg': Registry, wastes: map<nat, Waste>, st: Store, now: nat, id: nat, to: Address,
                lat: int, lon: int)
    requires SameStanding(reg, reg') && id in wastes && id in st.wastes && st.wastes[id] == wastes[id]
    ensures TransferWaste(reg', st, now, id, wastes[id].owner, to, lat, lon).Ok?
            <==> BatchItemCheck(reg, wastes, now, id, to).Ok? && Unblocked(wastes[id], to, now)
  {}

  lemma OneItemResult(reg: Registry, st: Store, now: nat, id: nat, from: Address, to: Address, lat: int, lon: int)
    requires TransferWaste(reg, st, now, id, from, to, lat, lon).Ok?
    ensures SameStanding(reg, TransferWaste(reg, st, now, id, from, to, lat, lon).value.0)
    ensures TransferWaste(reg, st, now, id, from, to, lat, lon).value.1
            == Move(st, id, st.wastes[id], from, to, Transfer(id, from, to, now, lat, lon, Transferred))
  {
    var once := Reward(reg, from, REP_TRANSFER, now);
    RewardKeepsStanding(reg, from, REP_TRANSFER, now);
    RewardKeepsStanding(once, to, REP_TRANSFER, now);
    StandingIsTransitive(reg, once, Reward(once, to, REP_TRANSFER, now));
  }

  lemma {:induction false} BatchMoveFrame(st: Store, now: nat, ids: seq<nat>, to: Address, lat: int, lon: int, id: nat)
    requires forall i :: i in ids ==> i in st.wastes
    ensures var done := BatchMove(st, st.wastes, now, ids, to, lat, lon).wastes;
      && (id in done <==> id in st.wastes)
      && (id in done ==> done[id] == if id in ids then st.wastes[id].(owner := to) else st.wastes[id])
  {
    if ids != [] {
      BatchMoveFrame(st, now, ids[..|ids| - 1], to, lat, lon, id);
      assert ids == ids[..|ids| - 1] + [ids[|ids| - 1]];
    }
  }

  ghost predicate Transferable(reg: Registry, wastes: map<nat, Waste>, now: nat, ids: seq<nat>, to: Address) {
    && Distinct(ids)
    && forall id :: id in ids ==>
      BatchItemCheck(reg, wastes, now, id, to).Ok? && Unblocked(wastes[id], to, now)
  }

  lemma TransferableSnoc(reg: Registry, wastes: map<nat, Waste>, now: nat, ids: seq<nat>, to: Address)
    requires ids != []
    ensures var last := ids[|ids| - 1];
      Transferable(reg, wastes, now, ids, to)
      <==> && Transferable(reg, wastes, now, ids[..|ids| - 1], to) && last !in ids[..|ids| - 1]
           && BatchItemCheck(reg, wastes, now, last, to).Ok? && Unblocked(wastes[last], to, now)
  {
    var init := ids[..|ids| - 1];
    assert ids == init + [ids[|ids| - 1]];
    DistinctSnoc(init, ids[|ids| - 1]);
  }

  /** After some items are done, the next one behaves as the batch foresaw. */
  lemma OneMore(reg: Registry, st: Store, reg': Registry, now: nat, init: seq<nat>, id: nat, to: Address, lat: int,
                lon: int)
    requires (forall i :: i in init ==> i in st.wastes) && SameStanding(reg, reg') && id in st.wastes
    ensures var done := BatchMove(st, st.wastes, now, init, to, lat, lon);
      && id in done.wastes
      && var r := TransferWaste(reg', done, now, id, done.wastes[id].owner, to, lat, lon);
      && (r.Ok? <==> && id !in init && BatchItemCheck(reg, st.wastes, now, id, to).Ok?
                     && Unblocked(st.wastes[id], to, now))
      && (r.Ok? ==>
            && r.value.1 == Move(done, id, st.wastes[id], st.wastes[id].owner, to,
                                 BatchRecord(st.wastes, now, id, to, lat, lon))
            && SameStanding(reg, r.value.0))
  {
    BatchMoveFrame(st, now, init, to, lat, lon, id);
    var done := BatchMove(st, st.wastes, now, init, to, lat, lon);
    if id !in init {
      OneItem(reg, reg', st.wastes, done, now, id, to, lat, lon);
      if TransferWaste(reg', done, now, id, st.wastes[id].owner, to, lat, lon).Ok? {
        OneItemResult(reg', done, now, id, st.wastes[id].owner, to, lat, lon);
        StandingIsTransitive(reg, reg', TransferWaste(reg', done, now, id, st.wastes[id].owner, to, lat, lon).value.0);
      }
    }
  }

  lemma NextOne(reg: Registry, st: Store, now: nat, ids: seq<nat>, to: Address, lat: int, lon: int)
    requires ids != [] && OneByOne(reg, st, now, ids[..|ids| - 1], to, lat, lon).Ok?
    requires var init, done := ids[..|ids| - 1], OneByOne(reg, st, now, ids[..|ids| - 1], to, lat, lon).value;
      && (forall id :: id in init ==> id in st.wastes)
      && done.1 == BatchMove(st, st.wastes, now, init, to, lat, lon) && SameStanding(reg, done.0)
    ensures var init, id := ids[..|ids| - 1], ids[|ids| - 1];
      && (OneByOne(reg, st, now, ids, to, lat, lon).Ok?
          <==> id !in init && BatchItemCheck(reg, st.wastes, now, id, to).Ok? && Unblocked(st.wastes[id], to, now))
      && (OneByOne(reg, st, now, ids, to, lat, lon).Ok? ==>
            && id in st.wastes
            && OneByOne(reg, st, now, ids, to, lat, lon).value.1
               == Move(BatchMove(st, st.wastes, now, init, to, lat, lon), id, st.wastes[id], st.wastes[id].owner, to,
                       BatchRecord(st.wastes, now, id, to, lat, lon))
            && SameStanding(reg, OneByOne(reg, st, now, ids, to, lat, lon).value.0))
  {
    var init, id := ids[..|ids| - 1], ids[|ids| - 1];
    BatchMoveFrame(st, now, init, to, lat, lon, id);
    if id in st.wastes {
      OneMore(reg, st, OneByOne(reg, st, now, init, to, lat, lon).value.0, now, init, id, to, lat, lon);
    }
  }

  lemma {:induction false} OneByOneIs(reg: Registry, st: Store, now: nat, ids: seq<nat>, to: Address, lat: int,
                                      lon: int)
    ensures OneByOne(reg, st, now, ids, to, lat, lon).Ok? <==> Transferable(reg, st.wastes, now, ids, to)
    ensures OneByOne(reg, st, now, ids, to, lat, lon).Ok? ==>
      var done := OneByOne(reg, st, now, ids, to, lat, lon).value;
      && (forall id :: id in ids ==> id in st.wastes)
      && done.1 == BatchMove(st, st.wastes, now, ids, to, lat, lon)
      && SameStanding(reg, done.0)
  {
    if ids != [] {
      var last := |ids| - 1;
      var id, init := ids[last], ids[..last];
      OneByOneIs(reg, st, now, init, to, lat, lon);
      TransferableSnoc(reg, st.wastes, now, ids, to);
      assert ids == init + [id];
      if OneByOne(reg, st, now, init, to, lat, lon).Ok? { NextOne(reg, st, now, ids, to, lat, lon); }
    }
  }

  /** For any non-empty list: the single transfers go through if and only if the batch does, no id repeats
      and nothing is frozen or reserved for somebody else; the stores are then equal in every part. */
  lemma {:induction false} BatchRefinesSingles(reg: Registry, st: Store, now: nat, ids: seq<nat>, to: Address,
                                               lat: int, lon: int)
    requires ids != []
    ensures OneByOne(reg, st, now, ids, to, lat, lon).Ok?
            <==> && BatchTransfer(reg, st, now, ids, to, lat, lon).Ok? && Distinct(ids)
                 && forall id :: id in ids && id in st.wastes ==> Unblocked(st.wastes[id], to, now)
    ensures OneByOne(reg, st, now, ids, to, lat, lon).Ok? ==>
      && OneByOne(reg, st, now, ids, to, lat, lon).value.1 == BatchTransfer(reg, st, now, ids, to, lat, lon).value.0
      && SameStanding(reg, OneByOne(reg, st, now, ids, to, lat, lon).value.0)
  {
    OneByOneIs(reg, st, now, ids, to, lat, lon);
    BatchCheckPassed(reg, st.wastes, now, ids, to);
    assert ids[0] in ids;
    if Transferable(reg, st.wastes, now, ids, to) {
      assert BatchItemCheck(reg, st.wastes, now, ids[0], to).Ok?;
    }
  }
}
