/** Version 2 waste custody: what each entry point does to the waste store. */
module Custody {
  import opened Prelude
  import opened Model

  const TRANSFER_EXPIRY_SECS: nat := 24 * 60 * 60
  const REP_TRANSFER: int := 5
  const REP_MIN: int := -1_000
  const REP_MAX: int := 10_000

  function Clamp(score: int): int {
    if score < REP_MIN then REP_MIN else if score > REP_MAX then REP_MAX else score
  }

  /** `apply_reputation`: clamp the score and restart the decay timer; unknown addresses are skipped. */
  function Reward(reg: Registry, a: Address, delta: int, now: nat): Registry {
    if a in reg.participants then
      var p := reg.participants[a];
      reg.(participants := reg.participants[a := p.(reputation := Clamp(p.reputation + delta), lastActive := now)])
    else reg
  }

  /** Store a waste under the next id and append the id to its owner's list. */
  function AddWaste(st: Store, w: Waste): Store {
    var id: nat := st.count + 1;
    st.(count := id, wastes := st.wastes[id := w], lists := st.lists[w.owner := OwnedBy(st, w.owner) + [id]])
  }

  function SetHistory(st: Store, id: nat, h: seq<Transfer>): Store {
    st.(history := st.history[id := h])
  }

  function Record(st: Store, id: nat, t: Transfer): Store {
    SetHistory(st, id, HistoryOf(st, id) + [t])
  }

  /** Hand waste `id` (read earlier as `w`) over: owner field, both lists and the history. */
  function Move(st: Store, id: nat, w: Waste, from: Address, to: Address, t: Transfer): Store {
    var lists := st.lists[from := Without(OwnedBy(st, from), {id})];
    Record(st.(wastes := st.wastes[id := w.(owner := to)],
               lists := lists[to := Lookup(lists, to, []) + [id]]),
           id, t)
  }

  function Retire(wastes: map<nat, Waste>, ids: set<nat>): map<nat, Waste> {
    map id | id in wastes :: if id in ids then wastes[id].(active := false) else wastes[id]
  }

  /** Retire some of an owner's wastes and drop their ids from the owner's list. */
  function Consume(st: Store, owner: Address, ids: set<nat>): Store {
    st.(wastes := Retire(st.wastes, ids), lists := st.lists[owner := Without(OwnedBy(st, owner), ids)])
  }

  // ---------- registration ----------

  function RecycleWaste(reg: Registry, st: Store, minWeight: nat, ttl: nat, now: nat,
                        wasteType: WasteType, weight: nat, recycler: Address, lat: int, lon: int)
    : Answer<(Store, nat)>
  {
    if !Registered(reg, recycler) then Err(NotRegistered)
    else
      :- Need(0 < weight <= MAX_WASTE_WEIGHT && minWeight <= weight, InvalidWeight);
      :- Need(st.count < U64_MAX && now + ttl <= U64_MAX, Overflow);
      var w := NewWaste(wasteType, weight, recycler, lat, lon, if ttl > 0 then now + ttl else 0);
      Ok((AddWaste(st, w), st.count + 1))
  }

  /** A bulk hand-over: a fresh, weightless waste owned by the manufacturer. */
  function TransferCollected(reg: Registry, st: Store, now: nat, wasteType: WasteType,
                             collector: Address, manufacturer: Address, lat: int, lon: int, note: string)
    : Answer<(Store, nat)>
  {
    if collector == manufacturer then Err(SelfTransfer)
    else
      :- Need(Registered(reg, collector) && Registered(reg, manufacturer), NotRegistered);
      :- Need(reg.participants[collector].role == Collector, InvalidTransferRoute);
      :- Need(reg.participants[manufacturer].role == Manufacturer, InvalidTransferRoute);
      :- Need(st.count < U64_MAX, Overflow);
      var id: nat := st.count + 1;
      var t := Transfer(id, collector, manufacturer, now, lat, lon, Memo(note));
      Ok((Record(AddWaste(st, NewWaste(wasteType, 0, manufacturer, lat, lon, 0)), id, t), id))
  }

  // ---------- transfers ----------

  function TransferWaste(reg: Registry, st: Store, now: nat, id: nat, from: Address, to: Address, lat: int, lon: int)
    : Answer<(Registry, Store, Transfer)>
  {
    if from == to then Err(SelfTransfer)
    else
      var w :- Find(st.wastes, id, WasteNotFound);
      :- Need(w.owner == from, NotWasteOwner);
      :- Need(Registered(reg, from) && Registered(reg, to), NotRegistered);
      :- Need(w.active, WasteDeactivated);
      :- Need(!w.frozen, WasteFrozen);
      :- Need(!w.Expired(now), WasteExpired);
      :- Need(ValidRoute(reg, from, to), InvalidTransferRoute);
      :- Need(!w.ReservedAgainst(to, now), WasteReservedByOther);
      var t := Transfer(id, from, to, now, lat, lon, Transferred);
      Ok((Reward(Reward(reg, from, REP_TRANSFER, now), to, REP_TRANSFER, now), Move(st, id, w, from, to, t), t))
  }

  /** What a batch checks of one item; unlike a single transfer it looks at neither freeze nor reservation. */
  function BatchItemCheck(reg: Registry, wastes: map<nat, Waste>, now: nat, id: nat, to: Address): Answer<Waste> {
    var w :- Find(wastes, id, WasteNotFound);
    :- Need(w.active, WasteDeactivated);
    :- Need(!w.Expired(now), WasteExpired);
    :- Need(w.owner != to, SelfTransfer);
    :- Need(Registered(reg, w.owner), NotRegistered);
    :- Need(ValidRoute(reg, w.owner, to), InvalidTransferRoute);
    Ok(w)
  }

  /** The first failure in list order, if any. */
  function BatchCheck(reg: Registry, wastes: map<nat, Waste>, now: nat, ids: seq<nat>, to: Address): Answer<()> {
    if ids == [] then Ok(())
    else
      var last := |ids| - 1;
      var _ :- BatchCheck(reg, wastes, now, ids[..last], to);
      var _ :- BatchItemCheck(reg, wastes, now, ids[last], to);
      Ok(())
  }

  function BatchRecord(wastes: map<nat, Waste>, now: nat, id: nat, to: Address, lat: int, lon: int): Transfer
    requires id in wastes
  {
    Transfer(id, wastes[id].owner, to, now, lat, lon, Transferred)
  }

  /** The moves of a checked batch; each uses the waste as it was read while checking. */
  function BatchMove(st: Store, read: map<nat, Waste>, now: nat, ids: seq<nat>, to: Address, lat: int, lon: int): Store
    requires forall id :: id in ids ==> id in read
  {
    if ids == [] then st
    else
      var last := |ids| - 1;
      var id := ids[last];
      Move(BatchMove(st, read, now, ids[..last], to, lat, lon), id, read[id], read[id].owner, to,
           BatchRecord(read, now, id, to, lat, lon))
  }

  lemma {:induction false} BatchCheckPassed(reg: Registry, wastes: map<nat, Waste>, now: nat, ids: seq<nat>,
                                            to: Address)
    ensures BatchCheck(reg, wastes, now, ids, to).Ok?
            <==> forall id :: id in ids ==> BatchItemCheck(reg, wastes, now, id, to).Ok?
  {
    if ids != [] {
      var last := |ids| - 1;
      BatchCheckPassed(reg, wastes, now, ids[..last], to);
      assert ids == ids[..last] + [ids[last]];
    }
  }

  function BatchTransfer(reg: Registry, st: Store, now: nat, ids: seq<nat>, to: Address, lat: int, lon: int)
    : Answer<(Store, seq<Transfer>)>
  {
    if !Registered(reg, to) then Err(NotRegistered)
    else
      var _ :- BatchCheck(reg, st.wastes, now, ids, to);
      BatchCheckPassed(reg, st.wastes, now, ids, to);
      assert forall id :: id in ids ==> BatchItemCheck(reg, st.wastes, now, id, to).Ok?;
      Ok((BatchMove(st, st.wastes, now, ids, to, lat, lon),
          seq(|ids|, i requires 0 <= i < |ids| => BatchRecord(st.wastes, now, ids[i], to, lat, lon))))
  }

  /** The administrator's override moves the owner and the history, but not the id lists. */
  function OverrideTransfer(admins: seq<Address>, st: Store, now: nat, admin: Address,
                            id: nat, from: Address, to: Address, lat: int, lon: int)
    : Answer<(Store, Transfer)>
  {
    if admin !in admins then Err(Unauthorized)
    else
      :- Need(from != to, SelfTransfer);
      var w :- Find(st.wastes, id, WasteNotFound);
      :- Need(w.owner == from, NotWasteOwner);
      :- Need(!w.frozen, WasteFrozen);
      var t := Transfer(id, from, to, now, lat, lon, AdminOverride);
      Ok((Record(st.(wastes := st.wastes[id := w.(owner := to)]), id, t), t))
  }

  function InitiateTransfer(reg: Registry, st: Store, now: nat, id: nat, from: Address, to: Address, lat: int, lon: int)
    : Answer<(Store, nat)>
  {
    if !(Registered(reg, from) && Registered(reg, to)) then Err(NotRegistered)
    else
      :- Need(from != to, SelfTransfer);
      var w :- Find(st.wastes, id, WasteNotFound);
      :- Need(w.owner == from, NotWasteOwner);
      :- Need(w.active, WasteDeactivated);
      :- Need(st.pendingCount < U64_MAX && now + TRANSFER_EXPIRY_SECS <= U64_MAX, Overflow);
      var n := st.pendingCount + 1;
      var p := PendingTransfer(id, from, to, now + TRANSFER_EXPIRY_SECS, Pending, lat, lon);
      Ok((st.(pendingCount := n, pending := st.pending[n := p]), n))
  }

  /** Acceptance does not look at who owns the waste by now. */
  function ApproveTransfer(st: Store, now: nat, n: nat, recipient: Address): Answer<Store> {
    var p :- Find(st.pending, n, TransferNotFound);
    :- Need(p.to == recipient, NotRecipient);
    :- Need(p.status == Pending, TransferNotPending);
    :- Need(now < p.expiresAt, TransferExpired);
    var w :- Find(st.wastes, p.wasteId, WasteNotFound);
    :- Need(w.active, WasteDeactivated);
    var t := Transfer(p.wasteId, p.from, p.to, now, p.latitude, p.longitude, Approved);
    Ok(Move(st.(pending := st.pending[n := p.(status := Accepted)]), p.wasteId, w, p.from, p.to, t))
  }

  // ---------- split and merge ----------

  /** The children of a split, each with a copy of the parent's history. */
  function Children(st: Store, parent: Waste, weights: seq<nat>, h: seq<Transfer>): Store {
    if weights == [] then st
    else
      var last := |weights| - 1;
      var done := Children(st, parent, weights[..last], h);
      var child := NewWaste(parent.wasteType, weights[last], parent.owner, parent.latitude, parent.longitude, 0);
      SetHistory(AddWaste(done, child), done.count + 1, h)
  }

  function SplitWaste(st: Store, id: nat, owner: Address, weights: seq<nat>): Answer<(Store, seq<nat>)> {
    var parent :- Find(st.wastes, id, WasteNotFound);
    :- Need(parent.owner == owner, NotWasteOwner);
    :- Need(parent.active, WasteDeactivated);
    :- Need(|weights| >= 2, TooFewSplits);
    :- Need(|weights| <= 10, TooManySplits);
    :- Need(Sum(weights) <= U128_MAX, Overflow);
    :- Need(Sum(weights) == parent.weight, WeightMismatch);
    :- Need(st.count + |weights| <= U64_MAX, Overflow);
    :- Need(forall i :: 0 <= i < |weights| ==> parent.wasteType.Scores(weights[i]), Overflow);
    Ok((Consume(Children(st, parent, weights, HistoryOf(st, id)), owner, {id}),
        seq(|weights|, i => st.count + 1 + i)))
  }

  /** The combined weight of the first `k` wastes, or the first reason they cannot be merged. */
  function MergeWeight(wastes: map<nat, Waste>, owner: Address, ids: seq<nat>, k: nat): Answer<nat>
    requires k <= |ids|
  {
    if k == 0 then Ok(0)
    else
      var sum :- MergeWeight(wastes, owner, ids, k - 1);
      var w :- Find(wastes, ids[k - 1], WasteNotFound);
      :- Need(w.owner == owner, NotWasteOwner);
      :- Need(w.active, WasteDeactivated);
      var first := Lookup(wastes, ids[0], w);
      :- Need(w.wasteType == first.wasteType, WasteTypeMismatch);
      :- Need(w.latitude == first.latitude && w.longitude == first.longitude, LocationMismatch);
      :- Need(sum + w.weight <= U128_MAX, Overflow);
      Ok(sum + w.weight)
  }

  function JoinedHistory(st: Store, ids: seq<nat>): seq<Transfer> {
    if ids == [] then []
    else JoinedHistory(st, ids[..|ids| - 1]) + HistoryOf(st, ids[|ids| - 1])
  }

  lemma {:induction false} MergeWeightPassed(wastes: map<nat, Waste>, owner: Address, ids: seq<nat>, k: nat)
    requires k <= |ids| && MergeWeight(wastes, owner, ids, k).Ok?
    ensures forall i :: 0 <= i < k ==> ids[i] in wastes && wastes[ids[i]].owner == owner && wastes[ids[i]].active
  {
    if k != 0 { MergeWeightPassed(wastes, owner, ids, k - 1); }
  }

  /** The merged waste, before its sources are consumed. */
  function Merged(st: Store, ids: seq<nat>, owner: Address, weight: nat): Store
    requires ids != [] && ids[0] in st.wastes
  {
    var first := st.wastes[ids[0]];
    SetHistory(AddWaste(st, NewWaste(first.wasteType, weight, owner, first.latitude, first.longitude, 0)),
               st.count + 1, JoinedHistory(st, ids))
  }

  function MergeWastes(st: Store, ids: seq<nat>, owner: Address): Answer<(Store, nat)> {
    if |ids| < 2 then Err(TooFewWastes)
    else
      :- Need(|ids| <= 20, TooManyWastes);
      var weight :- MergeWeight(st.wastes, owner, ids, |ids|);
      MergeWeightPassed(st.wastes, owner, ids, |ids|);
      :- Need(st.count < U64_MAX && st.wastes[ids[0]].wasteType.Scores(weight), Overflow);
      Ok((Consume(Merged(st, ids, owner, weight), owner, Elements(ids)), st.count + 1))
  }

  // ---------- deactivation ----------

  function DeactivateWaste(st: Store, id: nat): Answer<Store> {
    var w :- Find(st.wastes, id, WasteNotFound);
    :- Need(w.active, WasteDeactivated);
    Ok(st.(wastes := st.wastes[id := w.(active := false)]))
  }

  function AdminDeactivate(admins: seq<Address>, st: Store, id: nat, admin: Address): Answer<Store> {
    if admin !in admins then Err(Unauthorized)
    else
      DeactivateWaste(st, id)
  }

  function ActiveAmong(wastes: map<nat, Waste>, ids: set<nat>): set<nat> {
    set id | id in ids && id in wastes && wastes[id].active
  }

  function BatchDeactivate(admins: seq<Address>, st: Store, ids: seq<nat>, admin: Address): Answer<(Store, nat)> {
    if admin !in admins then Err(Unauthorized)
    else
      Ok((st.(wastes := Retire(st.wastes, Elements(ids))), |ActiveAmong(st.wastes, Elements(ids))|))
  }

  function ExpiredIds(st: Store, now: nat): set<nat> {
    set id | 1 <= id <= st.count && id in st.wastes && st.wastes[id].active && st.wastes[id].Expired(now)
  }

  function CleanupExpired(admins: seq<Address>, st: Store, now: nat, admin: Address): Answer<(Store, nat)> {
    if admin !in admins then Err(Unauthorized)
    else
      Ok((st.(wastes := Retire(st.wastes, ExpiredIds(st, now))), |ExpiredIds(st, now)|))
  }

  // ---------- reservations ----------

  function ReserveWaste(reg: Registry, st: Store, now: nat, id: nat, reserver: Address, duration: nat): Answer<Store> {
    if !Registered(reg, reserver) then Err(NotRegistered)
    else
      var w :- Find(st.wastes, id, WasteNotFound);
      :- Need(w.active, WasteDeactivated);
      :- Need(!w.Reserved(now), WasteAlreadyReserved);
      :- Need(now + duration <= U64_MAX, Overflow);
      Ok(st.(wastes := st.wastes[id := w.(reservedBy := Some(reserver), reservedUntil := Some(now + duration))]))
  }

  function CancelReservation(st: Store, id: nat, caller: Address): Answer<Store> {
    var w :- Find(st.wastes, id, WasteNotFound);
    :- Need(w.reservedBy.Some?, WasteNotReserved);
    :- Need(caller == w.reservedBy.value || caller == w.owner, NotReserver);
    Ok(st.(wastes := st.wastes[id := w.(reservedBy := None, reservedUntil := None)]))
  }

  // ---------- one call ----------

  /** A call with its arguments; configuration reads (`minWeight`, `ttl`) are arguments too. */
  datatype WasteOp =
    | Recycle(minWeight: nat, ttl: nat, wasteType: WasteType, weight: nat, recycler: Address, lat: int, lon: int)
    | Bulk(wasteType: WasteType, collector: Address, manufacturer: Address, lat: int, lon: int, note: string)
    | Transfer1(id: nat, from: Address, to: Address, lat: int, lon: int)
    | TransferMany(ids: seq<nat>, to: Address, lat: int, lon: int)
    | Override(admin: Address, id: nat, from: Address, to: Address, lat: int, lon: int)
    | Initiate(id: nat, from: Address, to: Address, lat: int, lon: int)
    | Approve(n: nat, recipient: Address)
    | Split(id: nat, owner: Address, weights: seq<nat>)
    | Merge(ids: seq<nat>, owner: Address)
    | Deactivate(id: nat, admin: Address)
    | DeactivateMany(ids: seq<nat>, admin: Address)
    | Cleanup(admin: Address)
    | Reserve(id: nat, reserver: Address, duration: nat)
    | Cancel(id: nat, caller: Address)

  /** Calls that issue new ids, calls that hand wastes over, and calls that edit wastes in place. */
  predicate Mints(op: WasteOp) { op.Recycle? || op.Bulk? || op.Split? || op.Merge? }

  predicate Moves(op: WasteOp) { op.Transfer1? || op.TransferMany? || op.Override? || op.Approve? }

  /** The store after a call; a rejected call leaves it alone. */
  function WasteStep(reg: Registry, admins: seq<Address>, st: Store, now: nat, op: WasteOp): Store {
    if Mints(op) then MintStep(reg, st, now, op)
    else if Moves(op) then MoveStep(reg, admins, st, now, op)
    else EditStep(reg, admins, st, now, op)
  }

  function MintStep(reg: Registry, st: Store, now: nat, op: WasteOp): Store
    requires Mints(op)
  {
    match op
    case Recycle(minWeight, ttl, wt, w, a, lat, lon) =>
      (match RecycleWaste(reg, st, minWeight, ttl, now, wt, w, a, lat, lon) case Ok(r) => r.0 case Err(_) => st)
    case Bulk(wt, c, m, lat, lon, note) =>
      (match TransferCollected(reg, st, now, wt, c, m, lat, lon, note) case Ok(r) => r.0 case Err(_) => st)
    case Split(id, owner, weights) =>
      (match SplitWaste(st, id, owner, weights) case Ok(r) => r.0 case Err(_) => st)
    case Merge(ids, owner) =>
      (match MergeWastes(st, ids, owner) case Ok(r) => r.0 case Err(_) => st)
  }

  function MoveStep(reg: Registry, admins: seq<Address>, st: Store, now: nat, op: WasteOp): Store
    requires Moves(op)
  {
    match op
    case Transfer1(id, from, to, lat, lon) =>
      (match TransferWaste(reg, st, now, id, from, to, lat, lon) case Ok(r) => r.1 case Err(_) => st)
    case TransferMany(ids, to, lat, lon) =>
      (match BatchTransfer(reg, st, now, ids, to, lat, lon) case Ok(r) => r.0 case Err(_) => st)
    case Override(admin, id, from, to, lat, lon) =>
      (match OverrideTransfer(admins, st, now, admin, id, from, to, lat, lon) case Ok(r) => r.0 case Err(_) => st)
    case Approve(n, recipient) =>
      (match ApproveTransfer(st, now, n, recipient) case Ok(r) => r case Err(_) => st)
  }

  function EditStep(reg: Registry, admins: seq<Address>, st: Store, now: nat, op: WasteOp): Store
    requires !Mints(op) && !Moves(op)
  {
    match op
    case Initiate(id, from, to, lat, lon) =>
      (match InitiateTransfer(reg, st, now, id, from, to, lat, lon) case Ok(r) => r.0 case Err(_) => st)
    case Deactivate(id, admin) =>
      (match AdminDeactivate(admins, st, id, admin) case Ok(r) => r case Err(_) => st)
    case DeactivateMany(ids, admin) =>
      (match BatchDeactivate(admins, st, ids, admin) case Ok(r) => r.0 case Err(_) => st)
    case Cleanup(admin) =>
      (match CleanupExpired(admins, st, now, admin) case Ok(r) => r.0 case Err(_) => st)
    case Reserve(id, reserver, duration) =>
      (match ReserveWaste(reg, st, now, id, reserver, duration) case Ok(r) => r case Err(_) => st)
    case Cancel(id, caller) =>
      (match CancelReservation(st, id, caller) case Ok(r) => r case Err(_) => st)
  }
}
