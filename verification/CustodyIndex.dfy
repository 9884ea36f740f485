/** The id ranges and the per-participant id lists stay right along every run. */
module CustodyIndex {
  import opened Prelude
  import opened Model
  import opened Custody

  /** Ids of both versions are disjoint and lie in 1..=count; side tables mention issued ids only. */
  ghost predicate IdsInv(st: Store) {
    && (forall id :: id in st.wastes ==> 1 <= id <= st.count)
    && (forall id :: id in st.materials ==> 1 <= id <= st.count && id !in st.wastes)
    && st.history.Keys <= st.wastes.Keys
    && st.transfers.Keys <= st.materials.Keys
    && (forall n :: n in st.pending ==> 1 <= n <= st.pendingCount && st.pending[n].from != st.pending[n].to)
  }

  /** No list repeats an id, a listed id is a waste of that owner, an active waste is listed by its owner. */
  ghost predicate ListsInv(lists: map<Address, seq<nat>>, wastes: map<nat, Waste>) {
    && (forall a :: a in lists ==> Distinct(lists[a]))
    && (forall a, id :: a in lists && id in lists[a] ==> id in wastes && wastes[id].owner == a)
    && (forall id :: id in wastes && wastes[id].active ==> wastes[id].owner in lists && id in lists[wastes[id].owner])
  }

  ghost predicate CustodyInv(st: Store) { IdsInv(st) && ListsInv(st.lists, st.wastes) }

  /** In a good store an active waste is listed once, by its owner, and by nobody else. */
  lemma ListedOnce(st: Store, id: nat, a: Address)
    requires CustodyInv(st) && id in st.wastes && st.wastes[id].active
    ensures multiset(OwnedBy(st, a))[id] == if a == st.wastes[id].owner then 1 else 0
  {
    DistinctCount(OwnedBy(st, a), id);
  }

  lemma {:induction false} DistinctCount<T>(s: seq<T>, x: T)
    requires Distinct(s)
    ensures multiset(s)[x] == if x in s then 1 else 0
  {
    if s != [] {
      var last := |s| - 1;
      assert s == s[..last] + [s[last]];
      DistinctSnoc(s[..last], s[last]);
      DistinctCount(s[..last], x);
    }
  }

  // ---------- building blocks: the lists alone ----------

  lemma PushKeeps(lists: map<Address, seq<nat>>, wastes: map<nat, Waste>, id: nat, w: Waste)
    requires ListsInv(lists, wastes) && id !in wastes
    ensures ListsInv(lists[w.owner := Lookup(lists, w.owner, []) + [id]], wastes[id := w])
  {
    var mine := Lookup(lists, w.owner, []);
    assert Distinct(mine) && id !in mine;
    DistinctSnoc(mine, id);
  }

  lemma DropKeeps(lists: map<Address, seq<nat>>, wastes: map<nat, Waste>, owner: Address, kept: seq<nat>,
                  retired: map<nat, Waste>, ids: set<nat>)
    requires ListsInv(lists, wastes) && Distinct(kept)
    requires forall id :: id in kept <==> id in Lookup(lists, owner, []) && id !in ids
    requires forall id :: id in ids && id in wastes ==> wastes[id].owner == owner
    requires retired.Keys == wastes.Keys
    requires forall id :: id in wastes ==> retired[id].owner == wastes[id].owner
                                           && retired[id].active == (wastes[id].active && id !in ids)
    ensures ListsInv(lists[owner := kept], retired)
  {}

  lemma HandOverKeeps(lists: map<Address, seq<nat>>, wastes: map<nat, Waste>, id: nat, w: Waste, to: Address,
                      left: map<Address, seq<nat>>)
    requires ListsInv(lists, wastes) && id in wastes && wastes[id].owner == w.owner != to
    requires left == lists[w.owner := Without(Lookup(lists, w.owner, []), {id})]
    ensures ListsInv(left[to := Lookup(left, to, []) + [id]], wastes[id := w.(owner := to)])
  {
    var theirs := Lookup(left, to, []);
    assert theirs == Lookup(lists, to, []);
    assert Distinct(theirs) && id !in theirs;
    DistinctSnoc(theirs, id);
  }

  // ---------- building blocks: the store ----------

  lemma AddWasteKeeps(st: Store, w: Waste)
    requires CustodyInv(st)
    ensures CustodyInv(AddWaste(st, w))
  {
    AddWasteIds(st, w);
    AddWasteLists(st, w);
  }

  lemma AddWasteIds(st: Store, w: Waste)
    requires IdsInv(st)
    ensures IdsInv(AddWaste(st, w))
  {}

  lemma AddWasteLists(st: Store, w: Waste)
    requires CustodyInv(st)
    ensures ListsInv(AddWaste(st, w).lists, AddWaste(st, w).wastes)
  {
    PushKeeps(st.lists, st.wastes, st.count + 1, w);
  }

  lemma MoveIds(st: Store, id: nat, w: Waste, from: Address, to: Address, t: Transfer)
    requires IdsInv(st) && id in st.wastes
    ensures IdsInv(Move(st, id, w, from, to, t))
  {}

  lemma MoveLists(st: Store, id: nat, w: Waste, to: Address, t: Transfer)
    requires CustodyInv(st) && id in st.wastes && st.wastes[id].owner == w.owner != to
    ensures ListsInv(Move(st, id, w, w.owner, to, t).lists, Move(st, id, w, w.owner, to, t).wastes)
  {
    HandOverKeeps(st.lists, st.wastes, id, w, to, st.lists[w.owner := Without(OwnedBy(st, w.owner), {id})]);
  }

  lemma MoveKeeps(st: Store, id: nat, w: Waste, to: Address, t: Transfer)
    requires CustodyInv(st) && id in st.wastes && st.wastes[id].owner == w.owner != to
    ensures CustodyInv(Move(st, id, w, w.owner, to, t))
  {
    MoveIds(st, id, w, w.owner, to, t);
    MoveLists(st, id, w, to, t);
  }

  /** Rewriting wastes without touching owners, and without waking one up, keeps the lists right. */
  lemma RewriteKeeps(st: Store, wastes: map<nat, Waste>)
    requires CustodyInv(st) && wastes.Keys == st.wastes.Keys
    requires forall id :: id in wastes ==>
      wastes[id].owner == st.wastes[id].owner && (wastes[id].active ==> st.wastes[id].active)
    ensures CustodyInv(st.(wastes := wastes))
  {}

  lemma {:induction false} BatchMoveKeeps(st: Store, now: nat, ids: seq<nat>, to: Address, lat: int, lon: int)
    requires CustodyInv(st) && Distinct(ids)
    requires forall id :: id in ids ==> id in st.wastes && st.wastes[id].owner != to
    ensures var done := BatchMove(st, st.wastes, now, ids, to, lat, lon);
      CustodyInv(done) && done.count == st.count && done.materials == st.materials
      && (forall id :: id in st.wastes && id !in ids ==> id in done.wastes && done.wastes[id] == st.wastes[id])
  {
    if ids != [] {
      var last := |ids| - 1;
      var id := ids[last];
      assert ids == ids[..last] + [id];
      DistinctSnoc(ids[..last], id);
      BatchMoveKeeps(st, now, ids[..last], to, lat, lon);
      var done := BatchMove(st, st.wastes, now, ids[..last], to, lat, lon);
      MoveKeeps(done, id, st.wastes[id], to, BatchRecord(st.wastes, now, id, to, lat, lon));
    }
  }

  lemma {:induction false} ChildrenKeep(st: Store, parent: Waste, weights: seq<nat>, h: seq<Transfer>)
    requires CustodyInv(st)
    ensures CustodyInv(Children(st, parent, weights, h))
  {
    if weights != [] {
      var last := |weights| - 1;
      ChildrenKeep(st, parent, weights[..last], h);
      BirthKeeps(Children(st, parent, weights[..last], h),
        NewWaste(parent.wasteType, weights[last], parent.owner, parent.latitude, parent.longitude, 0), h);
    }
  }

  /** Children take the next ids and leave every older waste as it was. */
  lemma {:induction false} ChildrenFrame(st: Store, parent: Waste, weights: seq<nat>, h: seq<Transfer>)
    requires forall id :: id in st.wastes ==> 1 <= id <= st.count
    ensures var done := Children(st, parent, weights, h);
      && done.count == st.count + |weights|
      && (forall id :: id in done.wastes ==> 1 <= id <= done.count)
      && (forall id :: id in st.wastes ==> id in done.wastes && done.wastes[id] == st.wastes[id])
  {
    if weights != [] { ChildrenFrame(st, parent, weights[..|weights| - 1], h); }
  }

  lemma BirthKeeps(st: Store, w: Waste, h: seq<Transfer>)
    requires CustodyInv(st)
    ensures CustodyInv(SetHistory(AddWaste(st, w), st.count + 1, h))
  {
    AddWasteKeeps(st, w);
    BirthIds(st, w, h);
  }

  lemma BirthIds(st: Store, w: Waste, h: seq<Transfer>)
    requires IdsInv(st)
    ensures IdsInv(SetHistory(AddWaste(st, w), st.count + 1, h))
  {}

  lemma ConsumeKeeps(st: Store, owner: Address, ids: set<nat>)
    requires CustodyInv(st)
    requires forall id :: id in ids && id in st.wastes ==> st.wastes[id].owner == owner
    ensures CustodyInv(Consume(st, owner, ids))
  {
    var mine := OwnedBy(st, owner);
    assert Distinct(mine) && forall id :: id in mine ==> id in st.wastes && st.wastes[id].owner == owner;
    DropKeeps(st.lists, st.wastes, owner, Without(mine, ids), Retire(st.wastes, ids), ids);
  }

  lemma SplitShape(st: Store, id: nat, owner: Address, weights: seq<nat>)
    requires SplitWaste(st, id, owner, weights).Ok?
    ensures id in st.wastes && st.wastes[id].owner == owner
    ensures SplitWaste(st, id, owner, weights).value.0
            == Consume(Children(st, st.wastes[id], weights, HistoryOf(st, id)), owner, {id})
  {
    var parent := Find(st.wastes, id, WasteNotFound);
    assert parent.Ok? && parent.value.owner == owner;
  }

  lemma SplitKeeps(st: Store, id: nat, owner: Address, weights: seq<nat>)
    requires CustodyInv(st) && SplitWaste(st, id, owner, weights).Ok?
    ensures CustodyInv(SplitWaste(st, id, owner, weights).value.0)
  {
    SplitShape(st, id, owner, weights);
    ChildrenKeep(st, st.wastes[id], weights, HistoryOf(st, id));
    ChildrenFrame(st, st.wastes[id], weights, HistoryOf(st, id));
    ConsumeKeeps(Children(st, st.wastes[id], weights, HistoryOf(st, id)), owner, {id});
  }

  lemma MergeShape(st: Store, ids: seq<nat>, owner: Address)
    requires MergeWastes(st, ids, owner).Ok?
    ensures |ids| >= 2
    ensures forall id :: id in ids ==> id in st.wastes && st.wastes[id].owner == owner && st.wastes[id].active
    ensures MergeWeight(st.wastes, owner, ids, |ids|).Ok?
    ensures MergeWastes(st, ids, owner).value.0
            == Consume(Merged(st, ids, owner, MergeWeight(st.wastes, owner, ids, |ids|).value), owner, Elements(ids))
  {
    MergeWeightPassed(st.wastes, owner, ids, |ids|);
  }

  lemma MergeKeeps(st: Store, ids: seq<nat>, owner: Address)
    requires CustodyInv(st) && MergeWastes(st, ids, owner).Ok?
    ensures CustodyInv(MergeWastes(st, ids, owner).value.0)
  {
    MergeShape(st, ids, owner);
    var weight := MergeWeight(st.wastes, owner, ids, |ids|).value;
    var first := st.wastes[ids[0]];
    BirthKeeps(st, NewWaste(first.wasteType, weight, owner, first.latitude, first.longitude, 0),
               JoinedHistory(st, ids));
    ConsumeKeeps(Merged(st, ids, owner, weight), owner, Elements(ids));
  }

  // ---------- every call ----------

  /** What an accepted call must find to keep the lists right; a refused call changes nothing. */
  ghost predicate KeepsLists(reg: Registry, admins: seq<Address>, st: Store, now: nat, op: WasteOp) {
    match op
    case TransferMany(ids, to, lat, lon) => BatchTransfer(reg, st, now, ids, to, lat, lon).Ok? ==> Distinct(ids)
    case Override(admin, id, from, to, lat, lon) =>
      OverrideTransfer(admins, st, now, admin, id, from, to, lat, lon).Ok? ==> id !in OwnedBy(st, from)
    case Approve(n, recipient) =>
      ApproveTransfer(st, now, n, recipient).Ok? ==> st.wastes[st.pending[n].wasteId].owner == st.pending[n].from
    case _ => true
  }

  lemma StepKeepsIds(reg: Registry, admins: seq<Address>, st: Store, now: nat, op: WasteOp)
    requires IdsInv(st)
    ensures IdsInv(WasteStep(reg, admins, st, now, op))
  {
    if Mints(op) { MintKeepsIds(reg, st, now, op); }
    else if Moves(op) { MoveKeepsIds(reg, admins, st, now, op); }
    else { EditKeepsIds(reg, admins, st, now, op); }
  }

  lemma MintKeepsIds(reg: Registry, st: Store, now: nat, op: WasteOp)
    requires IdsInv(st) && Mints(op)
    ensures IdsInv(MintStep(reg, st, now, op))
  {
    match op
    case Recycle(minWeight, ttl, wt, w, a, lat, lon) =>
      if RecycleWaste(reg, st, minWeight, ttl, now, wt, w, a, lat, lon).Ok? {
        AddWasteIds(st, NewWaste(wt, w, a, lat, lon, if ttl > 0 then now + ttl else 0));
      }
    case Bulk(wt, c, m, lat, lon, note) =>
      if TransferCollected(reg, st, now, wt, c, m, lat, lon, note).Ok? {
        var id := st.count + 1;
        AddWasteIds(st, NewWaste(wt, 0, m, lat, lon, 0));
        RecordIds(AddWaste(st, NewWaste(wt, 0, m, lat, lon, 0)), id, Transfer(id, c, m, now, lat, lon, Memo(note)));
      }
    case Split(id, owner, weights) => if SplitWaste(st, id, owner, weights).Ok? { SplitIds(st, id, owner, weights); }
    case Merge(ids, owner) => if MergeWastes(st, ids, owner).Ok? { MergeIds(st, ids, owner); }
  }

  lemma SplitIds(st: Store, id: nat, owner: Address, weights: seq<nat>)
    requires IdsInv(st) && SplitWaste(st, id, owner, weights).Ok?
    ensures IdsInv(SplitWaste(st, id, owner, weights).value.0)
  {
    SplitShape(st, id, owner, weights);
    ChildrenKeepIds(st, st.wastes[id], weights, HistoryOf(st, id));
    ConsumeIds(Children(st, st.wastes[id], weights, HistoryOf(st, id)), owner, {id});
  }

  lemma MergeIds(st: Store, ids: seq<nat>, owner: Address)
    requires IdsInv(st) && MergeWastes(st, ids, owner).Ok?
    ensures IdsInv(MergeWastes(st, ids, owner).value.0)
  {
    MergeShape(st, ids, owner);
    var weight := MergeWeight(st.wastes, owner, ids, |ids|).value;
    var first := st.wastes[ids[0]];
    BirthIds(st, NewWaste(first.wasteType, weight, owner, first.latitude, first.longitude, 0), JoinedHistory(st, ids));
    ConsumeIds(Merged(st, ids, owner, weight), owner, Elements(ids));
  }

  lemma RecordIds(st: Store, id: nat, t: Transfer)
    requires IdsInv(st) && id in st.wastes
    ensures IdsInv(Record(st, id, t))
  {}

  lemma ConsumeIds(st: Store, owner: Address, ids: set<nat>)
    requires IdsInv(st)
    ensures IdsInv(Consume(st, owner, ids))
  {}

  lemma MoveKeepsIds(reg: Registry, admins: seq<Address>, st: Store, now: nat, op: WasteOp)
    requires IdsInv(st) && Moves(op)
    ensures IdsInv(MoveStep(reg, admins, st, now, op))
  {
    match op
    case Transfer1(id, from, to, lat, lon) =>
      if TransferWaste(reg, st, now, id, from, to, lat, lon).Ok? {
        MoveIds(st, id, st.wastes[id], from, to, Transfer(id, from, to, now, lat, lon, Transferred));
      }
    case TransferMany(ids, to, lat, lon) =>
      if BatchTransfer(reg, st, now, ids, to, lat, lon).Ok? {
        BatchCheckPassed(reg, st.wastes, now, ids, to);
        BatchMoveKeepsIds(st, now, ids, to, lat, lon);
      }
    case Override(admin, id, from, to, lat, lon) =>
      if OverrideTransfer(admins, st, now, admin, id, from, to, lat, lon).Ok? {
        OverrideKeepsIds(admins, st, now, admin, id, from, to, lat, lon);
      }
    case Approve(n, recipient) =>
      if ApproveTransfer(st, now, n, recipient).Ok? { ApproveKeepsIds(st, now, n, recipient); }
  }

  lemma OverrideKeepsIds(admins: seq<Address>, st: Store, now: nat, admin: Address,
                         id: nat, from: Address, to: Address, lat: int, lon: int)
    requires IdsInv(st) && OverrideTransfer(admins, st, now, admin, id, from, to, lat, lon).Ok?
    ensures IdsInv(OverrideTransfer(admins, st, now, admin, id, from, to, lat, lon).value.0)
  {}

  lemma ApproveKeepsIds(st: Store, now: nat, n: nat, recipient: Address)
    requires IdsInv(st) && ApproveTransfer(st, now, n, recipient).Ok?
    ensures IdsInv(ApproveTransfer(st, now, n, recipient).value)
  {}

  lemma EditKeepsIds(reg: Registry, admins: seq<Address>, st: Store, now: nat, op: WasteOp)
    requires IdsInv(st) && !Mints(op) && !Moves(op)
    ensures IdsInv(EditStep(reg, admins, st, now, op))
  {
    EditThins(reg, admins, st, now, op);
  }

  lemma {:induction false} BatchMoveKeepsIds(st: Store, now: nat, ids: seq<nat>, to: Address, lat: int, lon: int)
    requires IdsInv(st) && forall id :: id in ids ==> id in st.wastes
    ensures var done := BatchMove(st, st.wastes, now, ids, to, lat, lon);
      IdsInv(done) && done.count == st.count && done.wastes.Keys == st.wastes.Keys
  {
    if ids != [] { BatchMoveKeepsIds(st, now, ids[..|ids| - 1], to, lat, lon); }
  }

  lemma {:induction false} ChildrenKeepIds(st: Store, parent: Waste, weights: seq<nat>, h: seq<Transfer>)
    requires IdsInv(st)
    ensures var done := Children(st, parent, weights, h);
      IdsInv(done) && done.count == st.count + |weights|
  {
    if weights != [] { ChildrenKeepIds(st, parent, weights[..|weights| - 1], h); }
  }

  lemma MintKeepsCustody(reg: Registry, st: Store, now: nat, op: WasteOp)
    requires CustodyInv(st) && Mints(op)
    ensures CustodyInv(MintStep(reg, st, now, op))
  {
    match op
    case Recycle(minWeight, ttl, wt, w, a, lat, lon) =>
      if RecycleWaste(reg, st, minWeight, ttl, now, wt, w, a, lat, lon).Ok? {
        RecycleKeeps(reg, st, minWeight, ttl, now, wt, w, a, lat, lon);
      }
    case Bulk(wt, c, m, lat, lon, note) =>
      if TransferCollected(reg, st, now, wt, c, m, lat, lon, note).Ok? {
        BulkKeeps(reg, st, now, wt, c, m, lat, lon, note);
      }
    case Split(id, owner, weights) =>
      if SplitWaste(st, id, owner, weights).Ok? { SplitKeeps(st, id, owner, weights); }
    case Merge(ids, owner) =>
      if MergeWastes(st, ids, owner).Ok? { MergeKeeps(st, ids, owner); }
  }

  lemma RecycleKeeps(reg: Registry, st: Store, minWeight: nat, ttl: nat, now: nat, wt: WasteType, w: nat, a: Address,
                     lat: int, lon: int)
    requires CustodyInv(st) && RecycleWaste(reg, st, minWeight, ttl, now, wt, w, a, lat, lon).Ok?
    ensures CustodyInv(RecycleWaste(reg, st, minWeight, ttl, now, wt, w, a, lat, lon).value.0)
  {
    AddWasteKeeps(st, NewWaste(wt, w, a, lat, lon, if ttl > 0 then now + ttl else 0));
  }

  lemma BulkKeeps(reg: Registry, st: Store, now: nat, wt: WasteType, c: Address, m: Address, lat: int, lon: int,
                  note: string)
    requires CustodyInv(st) && TransferCollected(reg, st, now, wt, c, m, lat, lon, note).Ok?
    ensures CustodyInv(TransferCollected(reg, st, now, wt, c, m, lat, lon, note).value.0)
  {
    var added := AddWaste(st, NewWaste(wt, 0, m, lat, lon, 0));
    AddWasteKeeps(st, NewWaste(wt, 0, m, lat, lon, 0));
    RecordIds(added, st.count + 1, Transfer(st.count + 1, c, m, now, lat, lon, Memo(note)));
  }

  lemma TransferKeeps(reg: Registry, st: Store, now: nat, id: nat, from: Address, to: Address, lat: int, lon: int)
    requires CustodyInv(st) && TransferWaste(reg, st, now, id, from, to, lat, lon).Ok?
    ensures CustodyInv(TransferWaste(reg, st, now, id, from, to, lat, lon).value.1)
  {
    MoveKeeps(st, id, st.wastes[id], to, Transfer(id, from, to, now, lat, lon, Transferred));
  }

  lemma BatchKeeps(reg: Registry, st: Store, now: nat, ids: seq<nat>, to: Address, lat: int, lon: int)
    requires CustodyInv(st) && Distinct(ids) && BatchTransfer(reg, st, now, ids, to, lat, lon).Ok?
    ensures CustodyInv(BatchTransfer(reg, st, now, ids, to, lat, lon).value.0)
  {
    BatchCheckPassed(reg, st.wastes, now, ids, to);
    BatchMoveKeeps(st, now, ids, to, lat, lon);
  }

  lemma ApproveKeeps(st: Store, now: nat, n: nat, recipient: Address)
    requires CustodyInv(st) && ApproveTransfer(st, now, n, recipient).Ok?
    requires st.wastes[st.pending[n].wasteId].owner == st.pending[n].from
    ensures CustodyInv(ApproveTransfer(st, now, n, recipient).value)
  {
    var p := st.pending[n];
    MoveKeeps(st.(pending := st.pending[n := p.(status := Accepted)]), p.wasteId, st.wastes[p.wasteId], p.to,
              Transfer(p.wasteId, p.from, p.to, now, p.latitude, p.longitude, Approved));
  }

  lemma EditKeepsCustody(reg: Registry, admins: seq<Address>, st: Store, now: nat, op: WasteOp)
    requires CustodyInv(st) && !Mints(op) && !Moves(op)
    ensures CustodyInv(EditStep(reg, admins, st, now, op))
  {
    EditThins(reg, admins, st, now, op);
    EditKeepsIds(reg, admins, st, now, op);
    RewriteKeeps(st, EditStep(reg, admins, st, now, op).wastes);
  }

  /** Reservations and deactivations rewrite single wastes and leave lists and owners alone. */
  ghost predicate Thins(st: Store, after: Store) {
    && after.lists == st.lists && after.wastes.Keys == st.wastes.Keys && after.history == st.history
    && after.count == st.count && after.materials == st.materials && after.transfers == st.transfers
    && (forall n :: n in after.pending ==>
        || (n in st.pending && after.pending[n] == st.pending[n])
        || (n == after.pendingCount == st.pendingCount + 1 && after.pending[n].from != after.pending[n].to))
    && st.pendingCount <= after.pendingCount
    && (forall id :: id in st.wastes ==>
        && after.wastes[id].owner == st.wastes[id].owner && after.wastes[id].weight == st.wastes[id].weight
        && after.wastes[id].stages == st.wastes[id].stages
        && (after.wastes[id].active ==> st.wastes[id].active))
  }

  lemma EditThins(reg: Registry, admins: seq<Address>, st: Store, now: nat, op: WasteOp)
    requires !Mints(op) && !Moves(op)
    ensures Thins(st, EditStep(reg, admins, st, now, op))
  {
    match op
    case Initiate(id, from, to, lat, lon) =>
      if InitiateTransfer(reg, st, now, id, from, to, lat, lon).Ok? {
        InitiateThins(reg, st, now, id, from, to, lat, lon);
      }
    case Deactivate(id, admin) =>
      if AdminDeactivate(admins, st, id, admin).Ok? { ThinOne(st, id, st.wastes[id].(active := false)); }
    case DeactivateMany(ids, admin) => ThinMany(st, Elements(ids));
    case Cleanup(admin) => ThinMany(st, ExpiredIds(st, now));
    case _ => ReservationThins(reg, admins, st, now, op);
  }

  /** A reservation or its end rewrites the reservation fields of one waste at most. */
  lemma ReservationIs(reg: Registry, admins: seq<Address>, st: Store, now: nat, op: WasteOp)
    requires op.Reserve? || op.Cancel?
    ensures var after := EditStep(reg, admins, st, now, op);
      || after == st
      || (op.id in st.wastes && op.id in after.wastes
          && var w := after.wastes[op.id];
          && after == st.(wastes := st.wastes[op.id := w])
          && w == st.wastes[op.id].(reservedBy := w.reservedBy, reservedUntil := w.reservedUntil))
  {}

  lemma ReservationThins(reg: Registry, admins: seq<Address>, st: Store, now: nat, op: WasteOp)
    requires op.Reserve? || op.Cancel?
    ensures Thins(st, EditStep(reg, admins, st, now, op))
  {
    ReservationIs(reg, admins, st, now, op);
    var after := EditStep(reg, admins, st, now, op);
    if after != st { ThinOne(st, op.id, after.wastes[op.id]); }
  }

  lemma ThinOne(st: Store, id: nat, w: Waste)
    requires id in st.wastes && w.owner == st.wastes[id].owner && w.weight == st.wastes[id].weight
    requires w.stages == st.wastes[id].stages && (w.active ==> st.wastes[id].active)
    ensures Thins(st, st.(wastes := st.wastes[id := w]))
  {}

  lemma ThinMany(st: Store, ids: set<nat>)
    ensures Thins(st, st.(wastes := Retire(st.wastes, ids)))
  {}

  lemma InitiateThins(reg: Registry, st: Store, now: nat, id: nat, from: Address, to: Address, lat: int, lon: int)
    requires InitiateTransfer(reg, st, now, id, from, to, lat, lon).Ok?
    ensures Thins(st, InitiateTransfer(reg, st, now, id, from, to, lat, lon).value.0)
  {}

  // ---------- the calls that can break the lists, and exactly when ----------

  lemma MoveAppends(st: Store, id: nat, w: Waste, from: Address, to: Address, t: Transfer)
    requires from != to
    ensures OwnedBy(Move(st, id, w, from, to, t), to) == OwnedBy(st, to) + [id]
  {}

  lemma AppendSnoc<T>(s: seq<T>, t: seq<T>)
    requires t != []
    ensures s + t == s + t[..|t| - 1] + [t[|t| - 1]]
  {}

  lemma {:induction false} BatchAppends(st: Store, now: nat, ids: seq<nat>, to: Address, lat: int, lon: int)
    requires forall id :: id in ids ==> id in st.wastes && st.wastes[id].owner != to
    ensures OwnedBy(BatchMove(st, st.wastes, now, ids, to, lat, lon), to) == OwnedBy(st, to) + ids
  {
    if ids != [] {
      var id, init := ids[|ids| - 1], ids[..|ids| - 1];
      BatchAppends(st, now, init, to, lat, lon);
      MoveAppends(BatchMove(st, st.wastes, now, init, to, lat, lon), id, st.wastes[id], st.wastes[id].owner, to,
                  BatchRecord(st.wastes, now, id, to, lat, lon));
      AppendSnoc(OwnedBy(st, to), ids);
    }
  }

  lemma RepeatBreaks(st: Store, a: Address)
    requires !Distinct(OwnedBy(st, a))
    ensures !CustodyInv(st)
  {}

  lemma RepeatStays(before: seq<nat>, ids: seq<nat>)
    requires !Distinct(ids)
    ensures !Distinct(before + ids)
  {
    var i, j :| 0 <= i < j < |ids| && ids[i] == ids[j];
    assert (before + ids)[|before| + i] == (before + ids)[|before| + j];
  }

  /** An accepted batch keeps the lists right if and only if it repeats no id. */
  lemma BatchKeepsIff(reg: Registry, st: Store, now: nat, ids: seq<nat>, to: Address, lat: int, lon: int)
    requires CustodyInv(st) && BatchTransfer(reg, st, now, ids, to, lat, lon).Ok?
    ensures CustodyInv(BatchTransfer(reg, st, now, ids, to, lat, lon).value.0) <==> Distinct(ids)
  {
    if Distinct(ids) {
      BatchKeeps(reg, st, now, ids, to, lat, lon);
    } else {
      BatchCheckPassed(reg, st.wastes, now, ids, to);
      BatchAppends(st, now, ids, to, lat, lon);
      RepeatStays(OwnedBy(st, to), ids);
      RepeatBreaks(BatchMove(st, st.wastes, now, ids, to, lat, lon), to);
    }
  }

  /** An override leaves the lists right if and only if the waste was on no list, which no active waste is. */
  lemma OverrideKeepsIff(admins: seq<Address>, st: Store, now: nat, admin: Address,
                         id: nat, from: Address, to: Address, lat: int, lon: int)
    requires CustodyInv(st) && OverrideTransfer(admins, st, now, admin, id, from, to, lat, lon).Ok?
    ensures CustodyInv(OverrideTransfer(admins, st, now, admin, id, from, to, lat, lon).value.0)
            <==> id !in OwnedBy(st, from)
  {
    OverrideKeepsIds(admins, st, now, admin, id, from, to, lat, lon);
    var after := OverrideTransfer(admins, st, now, admin, id, from, to, lat, lon).value.0;
    if id in OwnedBy(st, from) {
      assert id in after.lists[from] && after.wastes[id].owner == to;
    }
  }

  /** Accepting a pending transfer keeps the lists right if and only if its sender still owns the waste. */
  lemma ApproveKeepsIff(st: Store, now: nat, n: nat, recipient: Address)
    requires CustodyInv(st) && ApproveTransfer(st, now, n, recipient).Ok?
    ensures CustodyInv(ApproveTransfer(st, now, n, recipient).value)
            <==> st.wastes[st.pending[n].wasteId].owner == st.pending[n].from
  {
    var p := st.pending[n];
    var id, holder := p.wasteId, st.wastes[p.wasteId].owner;
    var after := ApproveTransfer(st, now, n, recipient).value;
    if holder == p.from {
      ApproveKeeps(st, now, n, recipient);
    } else if holder == p.to {
      assert after.lists[p.to] == st.lists[p.to] + [id];
      DistinctSnoc(st.lists[p.to], id);
    } else {
      assert id in after.lists[holder] && after.wastes[id].owner == p.to;
    }
  }

  lemma MoveKeepsCustodyIff(reg: Registry, admins: seq<Address>, st: Store, now: nat, op: WasteOp)
    requires CustodyInv(st) && Moves(op)
    ensures CustodyInv(MoveStep(reg, admins, st, now, op)) <==> KeepsLists(reg, admins, st, now, op)
  {
    match op
    case Transfer1(id, from, to, lat, lon) =>
      if TransferWaste(reg, st, now, id, from, to, lat, lon).Ok? {
        TransferKeeps(reg, st, now, id, from, to, lat, lon);
      }
    case TransferMany(ids, to, lat, lon) =>
      if BatchTransfer(reg, st, now, ids, to, lat, lon).Ok? { BatchKeepsIff(reg, st, now, ids, to, lat, lon); }
    case Override(admin, id, from, to, lat, lon) =>
      if OverrideTransfer(admins, st, now, admin, id, from, to, lat, lon).Ok? {
        OverrideKeepsIff(admins, st, now, admin, id, from, to, lat, lon);
      }
    case Approve(n, recipient) =>
      if ApproveTransfer(st, now, n, recipient).Ok? { ApproveKeepsIff(st, now, n, recipient); }
  }

  /** A custody call keeps lists, owners and ids right if and only if it was refused or meets its condition. */
  lemma StepKeepsCustodyIff(reg: Registry, admins: seq<Address>, st: Store, now: nat, op: WasteOp)
    requires CustodyInv(st)
    ensures CustodyInv(WasteStep(reg, admins, st, now, op)) <==> KeepsLists(reg, admins, st, now, op)
  {
    if Mints(op) { MintKeepsCustody(reg, st, now, op); }
    else if Moves(op) { MoveKeepsCustodyIff(reg, admins, st, now, op); }
    else { EditKeepsCustody(reg, admins, st, now, op); }
  }
}
