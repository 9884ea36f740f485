/** Version 2 custody said once more, waste by waste: which calls go through, and what each leaves of every waste, list,
    history and offer. Nothing here mentions the functions that compute it. */
module CustodyEffects {
  import opened Prelude
  import opened Model
  import opened Custody
  import opened CustodyIndex
  import opened BatchRefinement
  import opened Provenance

  // ---------- which calls go through ----------

  /** The impact score of a weight, by type. */
  function Impact(wasteType: WasteType, weight: nat): nat {
    match wasteType
    case Paper => weight * 10
    case PetPlastic => weight * 30
    case Plastic => weight * 25
    case Metal => weight * 40
    case Glass => weight * 15
    case Organic => weight * 5
    case Electronic => weight * 50
  }

  /** Both registered, and the role climbs. */
  predicate Climbing(reg: Registry, from: Address, to: Address) {
    && from in reg.participants && to in reg.participants
    && reg.participants[from].registered && reg.participants[to].registered
    && reg.participants[from].role.Stage() < reg.participants[to].role.Stage()
  }

  predicate Live(w: Waste, now: nat) { w.active && (w.expiresAt == 0 || now < w.expiresAt) }

  /** No reservation that is still running keeps the waste from `to`. */
  predicate FreeFor(w: Waste, to: Address, now: nat) {
    w.reservedBy == None || w.reservedUntil == None || w.reservedUntil.value <= now || w.reservedBy == Some(to)
  }

  /** The weights of the wastes a list names, counted as often as they are named. */
  function WeightNamed(wastes: map<nat, Waste>, ids: seq<nat>): nat
    requires forall id :: id in ids ==> id in wastes
  {
    if ids == [] then 0 else WeightNamed(wastes, ids[..|ids| - 1]) + wastes[ids[|ids| - 1]].weight
  }

  /** Wastes of one owner, all active, of one type and in one place. */
  predicate Mergeable(wastes: map<nat, Waste>, ids: seq<nat>, owner: Address) {
    && (forall id :: id in ids ==> id in wastes && wastes[id].owner == owner && wastes[id].active)
    && forall i, j :: 0 <= i < |ids| && 0 <= j < |ids| ==>
      && wastes[ids[i]].wasteType == wastes[ids[j]].wasteType
      && wastes[ids[i]].latitude == wastes[ids[j]].latitude && wastes[ids[i]].longitude == wastes[ids[j]].longitude
  }

  ghost predicate Admits(reg: Registry, admins: seq<Address>, st: Store, now: nat, op: WasteOp) {
    match op
    case Recycle(minWeight, ttl, wt, w, a, lat, lon) =>
      Registered(reg, a) && 0 < w <= 1_000_000_000 && minWeight <= w && st.count < U64_MAX && now + ttl <= U64_MAX
    case Bulk(wt, c, m, lat, lon, note) =>
      && Registered(reg, c) && Registered(reg, m) && st.count < U64_MAX
      && reg.participants[c].role == Collector && reg.participants[m].role == Manufacturer
    case Transfer1(id, from, to, lat, lon) =>
      && id in st.wastes && st.wastes[id].owner == from && !st.wastes[id].frozen && Live(st.wastes[id], now)
      && Climbing(reg, from, to) && FreeFor(st.wastes[id], to, now)
    case TransferMany(ids, to, lat, lon) =>
      && Registered(reg, to)
      && forall id :: id in ids ==>
        id in st.wastes && Live(st.wastes[id], now) && Climbing(reg, st.wastes[id].owner, to)
    case Override(admin, id, from, to, lat, lon) =>
      admin in admins && from != to && id in st.wastes && st.wastes[id].owner == from && !st.wastes[id].frozen
    case Initiate(id, from, to, lat, lon) =>
      && Registered(reg, from) && Registered(reg, to) && from != to
      && id in st.wastes && st.wastes[id].owner == from && st.wastes[id].active
      && st.pendingCount < U64_MAX && now + 86_400 <= U64_MAX
    case Approve(n, recipient) =>
      && n in st.pending && st.pending[n].to == recipient && st.pending[n].status == Pending
      && now < st.pending[n].expiresAt
      && st.pending[n].wasteId in st.wastes && st.wastes[st.pending[n].wasteId].active
    case Split(id, owner, weights) =>
      && id in st.wastes && st.wastes[id].owner == owner && st.wastes[id].active
      && 2 <= |weights| <= 10 && Sum(weights) == st.wastes[id].weight <= U128_MAX
      && st.count + |weights| <= U64_MAX
      && forall i :: 0 <= i < |weights| ==> Impact(st.wastes[id].wasteType, weights[i]) <= U128_MAX
    case Merge(ids, owner) =>
      && 2 <= |ids| <= 20 && Mergeable(st.wastes, ids, owner) && st.count < U64_MAX
      && WeightNamed(st.wastes, ids) <= U128_MAX
      && Impact(st.wastes[ids[0]].wasteType, WeightNamed(st.wastes, ids)) <= U128_MAX
    case Deactivate(id, admin) => admin in admins && id in st.wastes && st.wastes[id].active
    case DeactivateMany(ids, admin) => admin in admins
    case Cleanup(admin) => admin in admins
    case Reserve(id, reserver, duration) =>
      && Registered(reg, reserver) && id in st.wastes && st.wastes[id].active && now + duration <= U64_MAX
      && (st.wastes[id].reservedBy == None || st.wastes[id].reservedUntil == None
          || st.wastes[id].reservedUntil.value <= now)
    case Cancel(id, caller) =>
      && id in st.wastes && st.wastes[id].reservedBy.Some?
      && (st.wastes[id].reservedBy == Some(caller) || st.wastes[id].owner == caller)
  }

  /** An error a refused call may answer names a check that failed. */
  ghost predicate Blames(reg: Registry, admins: seq<Address>, st: Store, now: nat, op: WasteOp, e: Error) {
    match op
    case Recycle(minWeight, ttl, wt, w, a, lat, lon) =>
      || (e == NotRegistered && !Registered(reg, a))
      || (e == InvalidWeight && (w == 0 || w > 1_000_000_000 || w < minWeight))
      || (e == Overflow && (st.count >= U64_MAX || now + ttl > U64_MAX))
    case Bulk(wt, c, m, lat, lon, note) =>
      || (e == SelfTransfer && c == m)
      || (e == NotRegistered && (!Registered(reg, c) || !Registered(reg, m)))
      || (e == InvalidTransferRoute && Registered(reg, c) && reg.participants[c].role != Collector)
      || (e == InvalidTransferRoute && Registered(reg, m) && reg.participants[m].role != Manufacturer)
      || (e == Overflow && st.count >= U64_MAX)
    case Transfer1(id, from, to, lat, lon) =>
      || (e == SelfTransfer && from == to)
      || (e == NotRegistered && (!Registered(reg, from) || !Registered(reg, to)))
      || Unmovable(reg, st.wastes, now, id, from, to, e)
    case TransferMany(ids, to, lat, lon) =>
      || (e == NotRegistered && !Registered(reg, to))
      || exists id :: id in ids && BatchBlames(reg, st.wastes, now, id, to, e)
    case Override(admin, id, from, to, lat, lon) =>
      || (e == Unauthorized && admin !in admins)
      || (e == SelfTransfer && from == to)
      || (e == WasteNotFound && id !in st.wastes)
      || (e == NotWasteOwner && id in st.wastes && st.wastes[id].owner != from)
      || (e == WasteFrozen && id in st.wastes && st.wastes[id].frozen)
    case Initiate(id, from, to, lat, lon) =>
      || (e == NotRegistered && (!Registered(reg, from) || !Registered(reg, to)))
      || (e == SelfTransfer && from == to)
      || (e == WasteNotFound && id !in st.wastes)
      || (e == NotWasteOwner && id in st.wastes && st.wastes[id].owner != from)
      || (e == WasteDeactivated && id in st.wastes && !st.wastes[id].active)
      || (e == Overflow && (st.pendingCount >= U64_MAX || now + 86_400 > U64_MAX))
    case Approve(n, recipient) =>
      || (e == TransferNotFound && n !in st.pending)
      || (e == NotRecipient && n in st.pending && st.pending[n].to != recipient)
      || (e == TransferNotPending && n in st.pending && st.pending[n].status != Pending)
      || (e == TransferExpired && n in st.pending && now >= st.pending[n].expiresAt)
      || (e == WasteNotFound && n in st.pending && st.pending[n].wasteId !in st.wastes)
      || (e == WasteDeactivated && n in st.pending && st.pending[n].wasteId in st.wastes
          && !st.wastes[st.pending[n].wasteId].active)
    case Split(id, owner, weights) =>
      || (e == WasteNotFound && id !in st.wastes)
      || (e == NotWasteOwner && id in st.wastes && st.wastes[id].owner != owner)
      || (e == WasteDeactivated && id in st.wastes && !st.wastes[id].active)
      || (e == TooFewSplits && |weights| < 2)
      || (e == TooManySplits && |weights| > 10)
      || (e == WeightMismatch && id in st.wastes && Sum(weights) != st.wastes[id].weight)
      || (e == Overflow && (Sum(weights) > U128_MAX || st.count + |weights| > U64_MAX))
      || (e == Overflow && id in st.wastes
          && exists i :: 0 <= i < |weights| && Impact(st.wastes[id].wasteType, weights[i]) > U128_MAX)
    case Merge(ids, owner) =>
      || (e == TooFewWastes && |ids| < 2)
      || (e == TooManyWastes && |ids| > 20)
      || (e == Overflow && Known(st.wastes, ids) ==> TooHeavy(st, ids))
      || (ids != [] && exists id :: id in ids && MergeBlames(st.wastes, ids[0], id, owner, e))
    case Deactivate(id, admin) =>
      || (e == Unauthorized && admin !in admins)
      || (e == WasteNotFound && id !in st.wastes)
      || (e == WasteDeactivated && id in st.wastes && !st.wastes[id].active)
    case DeactivateMany(_, admin) => e == Unauthorized && admin !in admins
    case Cleanup(admin) => e == Unauthorized && admin !in admins
    case Reserve(id, reserver, duration) =>
      || (e == NotRegistered && !Registered(reg, reserver))
      || (e == WasteNotFound && id !in st.wastes)
      || (e == WasteDeactivated && id in st.wastes && !st.wastes[id].active)
      || (e == WasteAlreadyReserved && id in st.wastes && st.wastes[id].reservedBy != None
          && st.wastes[id].reservedUntil != None && st.wastes[id].reservedUntil.value > now)
      || (e == Overflow && now + duration > U64_MAX)
    case Cancel(id, caller) =>
      || (e == WasteNotFound && id !in st.wastes)
      || (e == WasteNotReserved && id in st.wastes && st.wastes[id].reservedBy == None)
      || (e == NotReserver && id in st.wastes
          && st.wastes[id].reservedBy != Some(caller) && st.wastes[id].owner != caller)
  }

  predicate Known(wastes: map<nat, Waste>, ids: seq<nat>) { ids != [] && forall id :: id in ids ==> id in wastes }

  /** No merged waste of the weights named can be numbered, or scored. */
  predicate TooHeavy(st: Store, ids: seq<nat>)
    requires Known(st.wastes, ids)
  {
    || st.count >= U64_MAX || WeightNamed(st.wastes, ids) > U128_MAX
    || Impact(st.wastes[ids[0]].wasteType, WeightNamed(st.wastes, ids)) > U128_MAX
  }

  /** Why a transfer by the owner is refused. */
  predicate Unmovable(reg: Registry, wastes: map<nat, Waste>, now: nat, id: nat, from: Address, to: Address, e: Error) {
    || (e == WasteNotFound && id !in wastes)
    || (e == NotWasteOwner && id in wastes && wastes[id].owner != from)
    || (e == WasteDeactivated && id in wastes && !wastes[id].active)
    || (e == WasteFrozen && id in wastes && wastes[id].frozen)
    || (e == WasteExpired && id in wastes && 0 < wastes[id].expiresAt <= now)
    || (e == InvalidTransferRoute && !Climbing(reg, from, to))
    || (e == WasteReservedByOther && id in wastes && !FreeFor(wastes[id], to, now))
  }

  /** Why one item of a batch is refused; neither freeze nor reservation is a reason. */
  predicate BatchBlames(reg: Registry, wastes: map<nat, Waste>, now: nat, id: nat, to: Address, e: Error) {
    || (e == SelfTransfer && id in wastes && wastes[id].owner == to)
    || (e == NotRegistered && id in wastes && !Registered(reg, wastes[id].owner))
    || (e == WasteNotFound && id !in wastes)
    || (e == WasteDeactivated && id in wastes && !wastes[id].active)
    || (e == WasteExpired && id in wastes && 0 < wastes[id].expiresAt <= now)
    || (e == InvalidTransferRoute && id in wastes && !Climbing(reg, wastes[id].owner, to))
  }

  /** Why one of the wastes cannot be merged. */
  predicate MergeBlames(wastes: map<nat, Waste>, first: nat, id: nat, owner: Address, e: Error) {
    || (e == WasteNotFound && id !in wastes)
    || (e == NotWasteOwner && id in wastes && wastes[id].owner != owner)
    || (e == WasteDeactivated && id in wastes && !wastes[id].active)
    || (e == WasteTypeMismatch && id in wastes && first in wastes && wastes[id].wasteType != wastes[first].wasteType)
    || (e == LocationMismatch && id in wastes && first in wastes && wastes[id].latitude != wastes[first].latitude)
    || (e == LocationMismatch && id in wastes && first in wastes && wastes[id].longitude != wastes[first].longitude)
  }

  // ---------- what they leave ----------

  /** Wastes and histories outside `ids`, lists of others than `who`, and the version 1 side are as they were. */
  ghost predicate Only(st: Store, after: Store, ids: set<nat>, who: set<Address>) {
    && (forall id :: id !in ids ==> (id in after.wastes <==> id in st.wastes))
    && (forall id :: id !in ids && id in st.wastes ==> after.wastes[id] == st.wastes[id])
    && (forall id :: id !in ids ==> HistoryOf(after, id) == HistoryOf(st, id))
    && (forall a :: a !in who ==> OwnedBy(after, a) == OwnedBy(st, a))
    && after.materials == st.materials && after.transfers == st.transfers
  }

  ghost predicate SameOffers(st: Store, after: Store) {
    after.pending == st.pending && after.pendingCount == st.pendingCount
  }

  /** A new waste: active, free of marks, at its first stage. */
  predicate Newborn(w: Waste, wasteType: WasteType, weight: nat, owner: Address, latitude: int, longitude: int,
                    expiresAt: nat) {
    && w.wasteType == wasteType && w.weight == weight && w.owner == owner
    && w.latitude == latitude && w.longitude == longitude && w.expiresAt == expiresAt
    && w.active && !w.frozen && w.reservedBy == None && w.reservedUntil == None
    && !w.contaminated && w.contamination == 0 && w.status == Collected && w.stages == [Collected]
  }

  predicate RecordIs(t: Transfer, id: nat, from: Address, to: Address, at: nat, lat: int, lon: int, note: Note) {
    && t.wasteId == id && t.from == from && t.to == to && t.at == at
    && t.latitude == lat && t.longitude == lon && t.note == note
  }

  /** The waste changed owner and nothing else, and its history grew by one record. */
  ghost predicate Passed(st: Store, after: Store, id: nat, from: Address, to: Address, at: nat, lat: int, lon: int,
                         note: Note) {
    && id in st.wastes && id in after.wastes && after.wastes[id] == st.wastes[id].(owner := to)
    && |HistoryOf(after, id)| == |HistoryOf(st, id)| + 1
    && HistoryOf(after, id)[..|HistoryOf(st, id)|] == HistoryOf(st, id)
    && RecordIs(Last(HistoryOf(after, id)), id, from, to, at, lat, lon, note)
  }

  /** The id went from one list to the end of the other. */
  ghost predicate Relisted(st: Store, after: Store, id: nat, from: Address, to: Address) {
    OwnedBy(after, from) == Without(OwnedBy(st, from), {id}) && OwnedBy(after, to) == OwnedBy(st, to) + [id]
  }

  /** These wastes are inactive now, and otherwise as they were. */
  ghost predicate Retired(st: Store, after: Store, ids: set<nat>) {
    forall id :: id in ids && id in st.wastes ==>
      id in after.wastes && after.wastes[id] == st.wastes[id].(active := false)
  }

  /** The ids `first + 1`, ..., `first + n`. */
  function Issued(first: nat, n: nat): (ids: set<nat>)
    ensures forall id :: id in ids <==> first < id <= first + n
  {
    if n == 0 then {} else Issued(first, n - 1) + {first + n}
  }

  function Following(first: nat, n: nat): seq<nat> { seq(n, i requires 0 <= i < n => first + 1 + i) }

  function Flatten<T>(s: seq<seq<T>>): seq<T> { if s == [] then [] else s[0] + Flatten(s[1..]) }

  ghost predicate Leaves(st: Store, now: nat, op: WasteOp, after: Store) {
    match op
    case Recycle(minWeight, ttl, wt, w, a, lat, lon) =>
      var id := st.count + 1;
      && Only(st, after, {id}, {a}) && SameOffers(st, after) && after.count == id && id in after.wastes
      && Newborn(after.wastes[id], wt, w, a, lat, lon, if ttl == 0 then 0 else now + ttl)
      && OwnedBy(after, a) == OwnedBy(st, a) + [id] && HistoryOf(after, id) == HistoryOf(st, id)
    case Bulk(wt, c, m, lat, lon, note) =>
      var id := st.count + 1;
      && Only(st, after, {id}, {m}) && SameOffers(st, after) && after.count == id && id in after.wastes
      && Newborn(after.wastes[id], wt, 0, m, lat, lon, 0) && OwnedBy(after, m) == OwnedBy(st, m) + [id]
      && |HistoryOf(after, id)| == 1 && RecordIs(HistoryOf(after, id)[0], id, c, m, now, lat, lon, Memo(note))
    case Transfer1(id, from, to, lat, lon) =>
      && Only(st, after, {id}, {from, to}) && SameOffers(st, after) && after.count == st.count
      && Passed(st, after, id, from, to, now, lat, lon, Transferred) && Relisted(st, after, id, from, to)
    case TransferMany(ids, to, lat, lon) =>
      && Only(st, after, Elements(ids), Senders(st, ids) + {to}) && SameOffers(st, after) && after.count == st.count
      && (forall id :: id in ids ==> PassedOn(st, after, id, multiset(ids)[id], to, now, lat, lon))
      && OwnedBy(after, to) == OwnedBy(st, to) + ids
      && forall a :: a in Senders(st, ids) ==> OwnedBy(after, a) == Without(OwnedBy(st, a), TakenFrom(st, ids, a))
    case Override(admin, id, from, to, lat, lon) =>
      && Only(st, after, {id}, {}) && SameOffers(st, after) && after.count == st.count
      && Passed(st, after, id, from, to, now, lat, lon, AdminOverride)
    case Initiate(id, from, to, lat, lon) =>
      && Only(st, after, {}, {}) && after.count == st.count && after.pendingCount == st.pendingCount + 1
      && after.pending
         == st.pending[after.pendingCount := PendingTransfer(id, from, to, now + 86_400, Pending, lat, lon)]
    case Approve(n, recipient) =>
      && n in st.pending
      && var p := st.pending[n];
      && Only(st, after, {p.wasteId}, {p.from, p.to}) && after.count == st.count
      && after.pendingCount == st.pendingCount && after.pending == st.pending[n := p.(status := Accepted)]
      && Passed(st, after, p.wasteId, p.from, recipient, now, p.latitude, p.longitude, Approved)
      && Relisted(st, after, p.wasteId, p.from, recipient)
    case Split(id, owner, weights) => SplitLeft(st, id, owner, weights, after)
    case Merge(ids, owner) => MergeLeft(st, ids, owner, after)
    case Deactivate(id, admin) => Quieted(st, after, {id})
    case DeactivateMany(ids, admin) => Quieted(st, after, Elements(ids))
    case Cleanup(admin) =>
      Quieted(st, after, set id | id in st.wastes && 0 < st.wastes[id].expiresAt <= now && st.wastes[id].active)
    case Reserve(id, reserver, duration) =>
      && Only(st, after, {id}, {}) && SameOffers(st, after) && after.count == st.count && after.history == st.history
      && id in st.wastes && id in after.wastes
      && after.wastes[id] == st.wastes[id].(reservedBy := Some(reserver), reservedUntil := Some(now + duration))
    case Cancel(id, caller) =>
      && Only(st, after, {id}, {}) && SameOffers(st, after) && after.count == st.count && after.history == st.history
      && id in st.wastes && id in after.wastes
      && after.wastes[id] == st.wastes[id].(reservedBy := None, reservedUntil := None)
  }

  /** Nothing but the activity of these wastes. */
  ghost predicate Quieted(st: Store, after: Store, ids: set<nat>) {
    && Only(st, after, ids, {}) && SameOffers(st, after) && after.count == st.count && after.history == st.history
    && (forall id :: id in after.wastes <==> id in st.wastes) && Retired(st, after, ids)
  }

  ghost predicate BornAt(after: Store, p: Waste, weight: nat, h: seq<Transfer>, id: nat) {
    && id in after.wastes && HistoryOf(after, id) == h
    && Newborn(after.wastes[id], p.wasteType, weight, p.owner, p.latitude, p.longitude, 0)
  }

  /** Child by child: the given weight, the parent's type, owner and place, active, never expiring, with the parent's
      history. */
  ghost predicate Born(first: nat, after: Store, p: Waste, weights: seq<nat>, h: seq<Transfer>) {
    forall i :: 0 <= i < |weights| ==> BornAt(after, p, weights[i], h, first + 1 + i)
  }

  ghost predicate SplitLeft(st: Store, id: nat, owner: Address, weights: seq<nat>, after: Store) {
    && id in st.wastes
    && Only(st, after, Issued(st.count, |weights|) + {id}, {owner}) && SameOffers(st, after)
    && after.count == st.count + |weights|
    && Retired(st, after, {id}) && HistoryOf(after, id) == HistoryOf(st, id)
    && Born(st.count, after, st.wastes[id], weights, HistoryOf(st, id))
    && OwnedBy(after, owner) == Without(OwnedBy(st, owner), {id}) + Following(st.count, |weights|)
  }

  ghost predicate MergeLeft(st: Store, ids: seq<nat>, owner: Address, after: Store) {
    var id := st.count + 1;
    && ids != [] && ids[0] in st.wastes && (forall i :: i in ids ==> i in st.wastes)
    && Only(st, after, {id} + Elements(ids), {owner}) && SameOffers(st, after) && after.count == id
    && id in after.wastes
    && Newborn(after.wastes[id], st.wastes[ids[0]].wasteType, WeightNamed(st.wastes, ids), owner,
               st.wastes[ids[0]].latitude, st.wastes[ids[0]].longitude, 0)
    && Retired(st, after, Elements(ids)) && (forall i :: i in ids ==> HistoryOf(after, i) == HistoryOf(st, i))
    && HistoryOf(after, id) == Flatten(Histories(st, ids))
    && OwnedBy(after, owner) == Without<nat>(OwnedBy(st, owner), Elements(ids)) + [id]
  }

  function Histories(st: Store, ids: seq<nat>): seq<seq<Transfer>> {
    seq(|ids|, i requires 0 <= i < |ids| => HistoryOf(st, ids[i]))
  }

  /** The present owners of the wastes a batch names. */
  function Senders(st: Store, ids: seq<nat>): set<Address> {
    set id | id in ids && id in st.wastes :: st.wastes[id].owner
  }

  function TakenFrom(st: Store, ids: seq<nat>, a: Address): set<nat> {
    set id | id in ids && id in st.wastes && st.wastes[id].owner == a
  }

  /** In a batch: one record for each time the waste is named, from its owner before the batch. */
  ghost predicate PassedOn(st: Store, after: Store, id: nat, times: nat, to: Address, at: nat, lat: int, lon: int) {
    && id in st.wastes && id in after.wastes && after.wastes[id] == st.wastes[id].(owner := to)
    && Extends(HistoryOf(st, id), HistoryOf(after, id), times, st.wastes[id].owner, to)
    && forall i :: |HistoryOf(st, id)| <= i < |HistoryOf(after, id)| ==>
      RecordIs(HistoryOf(after, id)[i], id, st.wastes[id].owner, to, at, lat, lon, Transferred)
  }

  // ---------- registration ----------

  lemma RecycleIs(reg: Registry, st: Store, minWeight: nat, ttl: nat, now: nat, wt: WasteType, w: nat, a: Address,
                  lat: int, lon: int)
    ensures var r, op := RecycleWaste(reg, st, minWeight, ttl, now, wt, w, a, lat, lon),
                         Recycle(minWeight, ttl, wt, w, a, lat, lon);
      && (r.Ok? <==> Admits(reg, [], st, now, op))
      && (r.Err? ==> Blames(reg, [], st, now, op, r.error))
      && (r.Ok? ==> Leaves(st, now, op, r.value.0) && r.value.1 == st.count + 1)
  {
    RecycleLeaves(st, minWeight, ttl, now, wt, w, a, lat, lon);
  }

  lemma RecycleLeaves(st: Store, minWeight: nat, ttl: nat, now: nat, wt: WasteType, w: nat, a: Address, lat: int,
                      lon: int)
    ensures Leaves(st, now, Recycle(minWeight, ttl, wt, w, a, lat, lon),
                   AddWaste(st, NewWaste(wt, w, a, lat, lon, if ttl == 0 then 0 else now + ttl)))
  {}

  lemma BulkIs(reg: Registry, st: Store, now: nat, wt: WasteType, c: Address, m: Address, lat: int, lon: int,
               note: string)
    requires IdsInv(st)
    ensures var r, op := TransferCollected(reg, st, now, wt, c, m, lat, lon, note), Bulk(wt, c, m, lat, lon, note);
      && (r.Ok? <==> Admits(reg, [], st, now, op))
      && (r.Err? ==> Blames(reg, [], st, now, op, r.error))
      && (r.Ok? ==> Leaves(st, now, op, r.value.0) && r.value.1 == st.count + 1)
  {
    BulkLeaves(st, now, wt, c, m, lat, lon, note);
  }

  lemma BulkLeaves(st: Store, now: nat, wt: WasteType, c: Address, m: Address, lat: int, lon: int, note: string)
    requires IdsInv(st)
    ensures var id: nat := st.count + 1;
      Leaves(st, now, Bulk(wt, c, m, lat, lon, note),
             Record(AddWaste(st, NewWaste(wt, 0, m, lat, lon, 0)), id, Transfer(id, c, m, now, lat, lon, Memo(note))))
  {}

  // ---------- hand-overs ----------

  lemma MoveIs(st: Store, id: nat, w: Waste, from: Address, to: Address, t: Transfer)
    requires id in st.wastes && w == st.wastes[id] && from != to
    requires t.wasteId == id && t.from == from && t.to == to
    ensures var after := Move(st, id, w, from, to, t);
      && Only(st, after, {id}, {from, to}) && SameOffers(st, after) && after.count == st.count
      && Passed(st, after, id, from, to, t.at, t.latitude, t.longitude, t.note) && Relisted(st, after, id, from, to)
  {}

  lemma RoutesClimb(reg: Registry, from: Address, to: Address)
    ensures ValidRoute(reg, from, to) <==> Climbing(reg, from, to)
  {}

  lemma TransferIs(reg: Registry, st: Store, now: nat, id: nat, from: Address, to: Address, lat: int, lon: int)
    ensures var r, op := TransferWaste(reg, st, now, id, from, to, lat, lon), Transfer1(id, from, to, lat, lon);
      && (r.Ok? <==> Admits(reg, [], st, now, op))
      && (r.Err? ==> Blames(reg, [], st, now, op, r.error))
      && (r.Ok? ==> Leaves(st, now, op, r.value.1) && r.value.2 == Last(HistoryOf(r.value.1, id)))
  {
    RoutesClimb(reg, from, to);
    if TransferWaste(reg, st, now, id, from, to, lat, lon).Ok? {
      MoveIs(st, id, st.wastes[id], from, to, Transfer(id, from, to, now, lat, lon, Transferred));
    }
  }

  lemma OverrideIs(reg: Registry, admins: seq<Address>, st: Store, now: nat, admin: Address, id: nat, from: Address,
                   to: Address, lat: int, lon: int)
    ensures var r, op := OverrideTransfer(admins, st, now, admin, id, from, to, lat, lon),
                         Override(admin, id, from, to, lat, lon);
      && (r.Ok? <==> Admits(reg, admins, st, now, op))
      && (r.Err? ==> Blames(reg, admins, st, now, op, r.error))
      && (r.Ok? ==> Leaves(st, now, op, r.value.0) && r.value.1 == Last(HistoryOf(r.value.0, id)))
  {}

  lemma InitiateIs(reg: Registry, st: Store, now: nat, id: nat, from: Address, to: Address, lat: int, lon: int)
    ensures var r, op := InitiateTransfer(reg, st, now, id, from, to, lat, lon), Initiate(id, from, to, lat, lon);
      && (r.Ok? <==> Admits(reg, [], st, now, op))
      && (r.Err? ==> Blames(reg, [], st, now, op, r.error))
      && (r.Ok? ==> Leaves(st, now, op, r.value.0) && r.value.1 == st.pendingCount + 1)
  {}

  lemma ApproveIs(reg: Registry, st: Store, now: nat, n: nat, recipient: Address)
    requires IdsInv(st)
    ensures var r, op := ApproveTransfer(st, now, n, recipient), Approve(n, recipient);
      && (r.Ok? <==> Admits(reg, [], st, now, op))
      && (r.Err? ==> Blames(reg, [], st, now, op, r.error))
      && (r.Ok? ==> Leaves(st, now, op, r.value))
  {
    if ApproveTransfer(st, now, n, recipient).Ok? {
      var p := st.pending[n];
      MoveIs(st.(pending := st.pending[n := p.(status := Accepted)]), p.wasteId, st.wastes[p.wasteId], p.from, p.to,
             Transfer(p.wasteId, p.from, p.to, now, p.latitude, p.longitude, Approved));
    }
  }

  // ---------- batches ----------

  lemma {:induction false} WithoutTwice<T(!new)>(s: seq<T>, drop: set<T>, more: set<T>)
    ensures Without(Without(s, drop), more) == Without(s, drop + more)
  {
    if s != [] {
      var init, x := s[..|s| - 1], s[|s| - 1];
      assert s == init + [x];
      WithoutTwice(init, drop, more);
      WithoutSnoc(init, x, drop);
      WithoutSnoc(init, x, drop + more);
      WithoutSnoc(Without(init, drop), x, more);
    }
  }

  lemma {:induction false} WithoutNothing<T(!new)>(s: seq<T>)
    ensures Without(s, {}) == s
  {
    if s != [] {
      WithoutNothing(s[..|s| - 1]);
      assert s == s[..|s| - 1] + [s[|s| - 1]];
    }
  }

  /** A list of a batch: a sender's without what was taken, the receiver's with the ids at the end. */
  predicate ListedAs(st: Store, ids: seq<nat>, to: Address, a: Address, list: seq<nat>) {
    list == if a == to then OwnedBy(st, to) + ids else Without(OwnedBy(st, a), TakenFrom(st, ids, a))
  }

  lemma {:induction false} BatchLists(st: Store, now: nat, ids: seq<nat>, to: Address, lat: int, lon: int, a: Address)
    requires forall id :: id in ids ==> id in st.wastes && st.wastes[id].owner != to
    ensures ListedAs(st, ids, to, a, OwnedBy(BatchMove(st, st.wastes, now, ids, to, lat, lon), a))
  {
    if ids == [] {
      NoneTaken(st, to, a);
    } else {
      var init, id := ids[..|ids| - 1], ids[|ids| - 1];
      var before := BatchMove(st, st.wastes, now, init, to, lat, lon);
      BatchLists(st, now, init, to, lat, lon, a);
      ListNext(st, now, ids, to, lat, lon, a, before);
      assert ids == init + [id];
      ListedNext(st, init, id, to, a, OwnedBy(before, a),
                 OwnedBy(BatchMove(st, st.wastes, now, ids, to, lat, lon), a));
    }
  }

  lemma NoneTaken(st: Store, to: Address, a: Address)
    ensures ListedAs(st, [], to, a, OwnedBy(st, a))
  {
    assert TakenFrom(st, [], a) == {};
    WithoutNothing(OwnedBy(st, a));
  }

  lemma ListedNext(st: Store, init: seq<nat>, id: nat, to: Address, a: Address, before: seq<nat>, after: seq<nat>)
    requires id in st.wastes && st.wastes[id].owner != to && ListedAs(st, init, to, a, before)
    requires after == if a == to then before + [id]
                      else if a == st.wastes[id].owner then Without(before, {id}) else before
    ensures ListedAs(st, init + [id], to, a, after)
  {
    if a == to {
      assert OwnedBy(st, to) + init + [id] == OwnedBy(st, to) + (init + [id]);
    } else {
      TakenSnoc(st, init, id, a);
      if a == st.wastes[id].owner { WithoutTwice(OwnedBy(st, a), TakenFrom(st, init, a), {id}); }
      else { NothingMore(TakenFrom(st, init, a)); }
    }
  }

  lemma NothingMore<T>(s: set<T>)
    ensures s + {} == s
  {}

  lemma ListNext(st: Store, now: nat, ids: seq<nat>, to: Address, lat: int, lon: int, a: Address, before: Store)
    requires ids != [] && forall id :: id in ids ==> id in st.wastes && st.wastes[id].owner != to
    requires before == BatchMove(st, st.wastes, now, ids[..|ids| - 1], to, lat, lon)
    ensures var id := ids[|ids| - 1];
      OwnedBy(BatchMove(st, st.wastes, now, ids, to, lat, lon), a)
      == if a == to then OwnedBy(before, to) + [id]
         else if a == st.wastes[id].owner then Without(OwnedBy(before, a), {id}) else OwnedBy(before, a)
  {
    var id := ids[|ids| - 1];
    ListAfterMove(before, id, st.wastes[id], to, BatchRecord(st.wastes, now, id, to, lat, lon), a);
  }

  lemma TakenSnoc(st: Store, init: seq<nat>, id: nat, a: Address)
    requires id in st.wastes
    ensures TakenFrom(st, init + [id], a) == TakenFrom(st, init, a) + if st.wastes[id].owner == a then {id} else {}
  {}

  lemma ListAfterMove(st: Store, id: nat, w: Waste, to: Address, t: Transfer, a: Address)
    requires w.owner != to
    ensures OwnedBy(Move(st, id, w, w.owner, to, t), a)
            == if a == to then OwnedBy(st, to) + [id]
               else if a == w.owner then Without(OwnedBy(st, a), {id}) else OwnedBy(st, a)
  {}

  /** The records of a batch, besides what `BatchHistory` says of them. */
  lemma {:induction false} BatchRecords(st: Store, now: nat, ids: seq<nat>, to: Address, lat: int, lon: int, id: nat)
    requires forall i :: i in ids ==> i in st.wastes
    ensures var before, after := HistoryOf(st, id), HistoryOf(BatchMove(st, st.wastes, now, ids, to, lat, lon), id);
      && |before| <= |after| && (id !in ids ==> after == before)
      && forall i :: |before| <= i < |after| ==>
        id in st.wastes && RecordIs(after[i], id, st.wastes[id].owner, to, now, lat, lon, Transferred)
  {
    if ids != [] {
      BatchRecords(st, now, ids[..|ids| - 1], to, lat, lon, id);
      assert ids == ids[..|ids| - 1] + [ids[|ids| - 1]];
      RecordNext(st, now, ids, to, lat, lon, id, BatchMove(st, st.wastes, now, ids[..|ids| - 1], to, lat, lon));
    }
  }

  lemma RecordNext(st: Store, now: nat, ids: seq<nat>, to: Address, lat: int, lon: int, id: nat, before: Store)
    requires ids != [] && forall i :: i in ids ==> i in st.wastes
    requires before == BatchMove(st, st.wastes, now, ids[..|ids| - 1], to, lat, lon)
    ensures HistoryOf(BatchMove(st, st.wastes, now, ids, to, lat, lon), id)
            == HistoryOf(before, id)
               + if id == ids[|ids| - 1] then [BatchRecord(st.wastes, now, id, to, lat, lon)] else []
  {}

  lemma {:induction false} BatchLeavesRest(st: Store, now: nat, ids: seq<nat>, to: Address, lat: int, lon: int)
    requires forall id :: id in ids ==> id in st.wastes
    ensures var after := BatchMove(st, st.wastes, now, ids, to, lat, lon);
      && SameOffers(st, after) && after.count == st.count
      && after.materials == st.materials && after.transfers == st.transfers
  {
    if ids != [] { BatchLeavesRest(st, now, ids[..|ids| - 1], to, lat, lon); }
  }

  lemma BatchOnly(st: Store, now: nat, ids: seq<nat>, to: Address, lat: int, lon: int)
    requires forall id :: id in ids ==> id in st.wastes && st.wastes[id].owner != to
    ensures Only(st, BatchMove(st, st.wastes, now, ids, to, lat, lon), Elements(ids), Senders(st, ids) + {to})
  {
    var after := BatchMove(st, st.wastes, now, ids, to, lat, lon);
    BatchLeavesRest(st, now, ids, to, lat, lon);
    forall id | id !in Elements(ids)
      ensures id in after.wastes <==> id in st.wastes
      ensures id in st.wastes ==> after.wastes[id] == st.wastes[id]
      ensures HistoryOf(after, id) == HistoryOf(st, id)
    {
      BatchMoveFrame(st, now, ids, to, lat, lon, id);
      BatchRecords(st, now, ids, to, lat, lon, id);
    }
    forall a | a !in Senders(st, ids) + {to} ensures OwnedBy(after, a) == OwnedBy(st, a) {
      BatchLists(st, now, ids, to, lat, lon, a);
      assert TakenFrom(st, ids, a) == {};
      WithoutNothing(OwnedBy(st, a));
    }
  }

  lemma BatchLeaves(st: Store, now: nat, ids: seq<nat>, to: Address, lat: int, lon: int)
    requires forall id :: id in ids ==> id in st.wastes && st.wastes[id].owner != to
    ensures Leaves(st, now, TransferMany(ids, to, lat, lon), BatchMove(st, st.wastes, now, ids, to, lat, lon))
  {
    var after := BatchMove(st, st.wastes, now, ids, to, lat, lon);
    BatchOnly(st, now, ids, to, lat, lon);
    BatchLeavesRest(st, now, ids, to, lat, lon);
    forall id | id in ids ensures PassedOn(st, after, id, multiset(ids)[id], to, now, lat, lon) {
      BatchMoveFrame(st, now, ids, to, lat, lon, id);
      BatchHistory(st, now, ids, to, lat, lon, id);
      BatchRecords(st, now, ids, to, lat, lon, id);
    }
    BatchLists(st, now, ids, to, lat, lon, to);
    forall a | a in Senders(st, ids) ensures OwnedBy(after, a) == Without(OwnedBy(st, a), TakenFrom(st, ids, a)) {
      BatchLists(st, now, ids, to, lat, lon, a);
    }
  }

  lemma {:induction false} BatchErrors(reg: Registry, wastes: map<nat, Waste>, now: nat, ids: seq<nat>, to: Address)
    ensures BatchCheck(reg, wastes, now, ids, to).Err? ==>
      exists id :: id in ids && BatchBlames(reg, wastes, now, id, to, BatchCheck(reg, wastes, now, ids, to).error)
  {
    if ids != [] {
      var init, last := ids[..|ids| - 1], ids[|ids| - 1];
      BatchErrors(reg, wastes, now, init, to);
      assert ids == init + [last];
      if BatchCheck(reg, wastes, now, init, to).Err? {
        var e := BatchCheck(reg, wastes, now, init, to).error;
        var id :| id in init && BatchBlames(reg, wastes, now, id, to, e);
        assert id in ids && BatchCheck(reg, wastes, now, ids, to).error == e;
      } else if BatchItemCheck(reg, wastes, now, last, to).Err? {
        ItemErrors(reg, wastes, now, last, to);
        assert last in ids;
      }
    }
  }

  lemma ItemErrors(reg: Registry, wastes: map<nat, Waste>, now: nat, id: nat, to: Address)
    ensures var r := BatchItemCheck(reg, wastes, now, id, to);
      r.Err? ==> BatchBlames(reg, wastes, now, id, to, r.error)
  {
    if id in wastes { RoutesClimb(reg, wastes[id].owner, to); }
  }

  /** A checked batch, item by item. */
  lemma BatchAdmitted(reg: Registry, st: Store, now: nat, ids: seq<nat>, to: Address)
    ensures BatchCheck(reg, st.wastes, now, ids, to).Ok?
            <==> forall id :: id in ids ==>
              id in st.wastes && Live(st.wastes[id], now) && Climbing(reg, st.wastes[id].owner, to)
  {
    BatchCheckPassed(reg, st.wastes, now, ids, to);
    forall id | id in ids
      ensures BatchItemCheck(reg, st.wastes, now, id, to).Ok?
              <==> id in st.wastes && Live(st.wastes[id], now) && Climbing(reg, st.wastes[id].owner, to)
    {
      if id in st.wastes { RoutesClimb(reg, st.wastes[id].owner, to); }
    }
  }

  lemma BatchIs(reg: Registry, st: Store, now: nat, ids: seq<nat>, to: Address, lat: int, lon: int)
    ensures var r, op := BatchTransfer(reg, st, now, ids, to, lat, lon), TransferMany(ids, to, lat, lon);
      && (r.Ok? <==> Admits(reg, [], st, now, op))
      && (r.Err? ==> Blames(reg, [], st, now, op, r.error))
      && (r.Ok? ==>
            && Leaves(st, now, op, r.value.0) && |r.value.1| == |ids|
            && forall i :: 0 <= i < |ids| ==>
              RecordIs(r.value.1[i], ids[i], st.wastes[ids[i]].owner, to, now, lat, lon, Transferred))
  {
    BatchGoes(reg, st, now, ids, to, lat, lon);
    BatchRefused(reg, st, now, ids, to, lat, lon);
    BatchAnswers(reg, st, now, ids, to, lat, lon);
    if BatchTransfer(reg, st, now, ids, to, lat, lon).Ok? { BatchLeaves(st, now, ids, to, lat, lon); }
  }

  lemma BatchGoes(reg: Registry, st: Store, now: nat, ids: seq<nat>, to: Address, lat: int, lon: int)
    ensures BatchTransfer(reg, st, now, ids, to, lat, lon).Ok?
            <==> Admits(reg, [], st, now, TransferMany(ids, to, lat, lon))
  {
    BatchAnswers(reg, st, now, ids, to, lat, lon);
    BatchAdmitted(reg, st, now, ids, to);
  }

  lemma BatchRefused(reg: Registry, st: Store, now: nat, ids: seq<nat>, to: Address, lat: int, lon: int)
    ensures var r := BatchTransfer(reg, st, now, ids, to, lat, lon);
      r.Err? ==> Blames(reg, [], st, now, TransferMany(ids, to, lat, lon), r.error)
  {
    BatchAnswers(reg, st, now, ids, to, lat, lon);
    BatchErrors(reg, st.wastes, now, ids, to);
  }

  /** A batch in terms of its checks and moves; the records answered. */
  lemma BatchAnswers(reg: Registry, st: Store, now: nat, ids: seq<nat>, to: Address, lat: int, lon: int)
    ensures var r := BatchTransfer(reg, st, now, ids, to, lat, lon);
      && (r.Ok? <==> Registered(reg, to) && BatchCheck(reg, st.wastes, now, ids, to).Ok?)
      && (r.Err? ==> r.error == if Registered(reg, to) then BatchCheck(reg, st.wastes, now, ids, to).error
                                else NotRegistered)
      && (r.Ok? ==>
            && (forall id :: id in ids ==> id in st.wastes && st.wastes[id].owner != to)
            && r.value.0 == BatchMove(st, st.wastes, now, ids, to, lat, lon) && |r.value.1| == |ids|
            && forall i :: 0 <= i < |ids| ==>
              RecordIs(r.value.1[i], ids[i], st.wastes[ids[i]].owner, to, now, lat, lon, Transferred))
  {
    BatchCheckPassed(reg, st.wastes, now, ids, to);
  }

  // ---------- splits ----------

  /** Some wastes more, at the end of their owner's list. */
  ghost predicate Grown(st: Store, after: Store, owner: Address, n: nat) {
    && Only(st, after, Issued(st.count, n), {owner}) && SameOffers(st, after) && after.count == st.count + n
    && OwnedBy(after, owner) == OwnedBy(st, owner) + Following(st.count, n)
  }

  /** Some of an owner's wastes retired and unlisted. */
  ghost predicate Consumed(st: Store, after: Store, owner: Address, ids: set<nat>) {
    && Only(st, after, ids, {owner}) && SameOffers(st, after) && after.count == st.count
    && after.history == st.history && Retired(st, after, ids) && after.wastes.Keys == st.wastes.Keys
    && OwnedBy(after, owner) == Without(OwnedBy(st, owner), ids)
  }

  /** One waste more, with its history. */
  ghost predicate Next(st: Store, after: Store, w: Waste, h: seq<Transfer>) {
    var id := st.count + 1;
    && Only(st, after, {id}, {w.owner}) && SameOffers(st, after) && after.count == id
    && id in after.wastes && after.wastes[id] == w && HistoryOf(after, id) == h
    && OwnedBy(after, w.owner) == OwnedBy(st, w.owner) + [id]
  }

  lemma NextIs(st: Store, w: Waste, h: seq<Transfer>)
    ensures Next(st, SetHistory(AddWaste(st, w), st.count + 1, h), w, h)
  {}

  lemma NextChild(st: Store, p: Waste, weights: seq<nat>, h: seq<Transfer>, before: Store, w: Waste)
    requires weights != [] && before == Children(st, p, weights[..|weights| - 1], h)
    requires w == NewWaste(p.wasteType, weights[|weights| - 1], p.owner, p.latitude, p.longitude, 0)
    ensures Next(before, Children(st, p, weights, h), w, h)
  {
    NextFrom(before, Children(st, p, weights, h), w, h);
  }

  lemma NextFrom(st: Store, after: Store, w: Waste, h: seq<Transfer>)
    requires after == SetHistory(AddWaste(st, w), st.count + 1, h)
    ensures Next(st, after, w, h)
  {
    NextIs(st, w, h);
  }

  lemma OnlyTwice(st: Store, between: Store, after: Store, ids: set<nat>, more: set<nat>, who: set<Address>)
    requires Only(st, between, ids, who) && Only(between, after, more, who)
    ensures Only(st, after, ids + more, who)
  {}

  lemma FollowingSnoc(first: nat, n: nat)
    requires n > 0
    ensures Following(first, n) == Following(first, n - 1) + [first + n]
  {}

  lemma GrowOn(st: Store, between: Store, after: Store, owner: Address, n: nat, w: Waste, h: seq<Transfer>)
    requires n > 0 && Grown(st, between, owner, n - 1) && Next(between, after, w, h) && w.owner == owner
    ensures Grown(st, after, owner, n)
  {
    OnlyTwice(st, between, after, Issued(st.count, n - 1), {st.count + n}, {owner});
    FollowingOn(OwnedBy(st, owner), st.count, n);
  }

  lemma FollowingOn(s: seq<nat>, first: nat, n: nat)
    requires n > 0
    ensures s + Following(first, n) == s + Following(first, n - 1) + [first + n]
  {
    FollowingSnoc(first, n);
    AppendSnoc(s, Following(first, n));
  }

  lemma NothingGrew(st: Store, owner: Address)
    ensures Grown(st, st, owner, 0)
  {
    assert OwnedBy(st, owner) + Following(st.count, 0) == OwnedBy(st, owner);
  }

  lemma {:induction false} ChildrenListed(st: Store, p: Waste, weights: seq<nat>, h: seq<Transfer>)
    ensures Grown(st, Children(st, p, weights, h), p.owner, |weights|)
  {
    if weights == [] {
      NothingGrew(st, p.owner);
    } else {
      var init, last := weights[..|weights| - 1], weights[|weights| - 1];
      var before, w := Children(st, p, init, h), NewWaste(p.wasteType, last, p.owner, p.latitude, p.longitude, 0);
      ChildrenListed(st, p, init, h);
      NextChild(st, p, weights, h, before, w);
      GrowOn(st, before, Children(st, p, weights, h), p.owner, |weights|, w, h);
    }
  }

  /** What was born stays as it was while nothing touches it. */
  lemma BornStay(first: nat, between: Store, after: Store, p: Waste, weights: seq<nat>, h: seq<Transfer>, ids: set<nat>,
                 who: set<Address>)
    requires Born(first, between, p, weights, h) && Only(between, after, ids, who)
    requires forall id :: id in ids ==> !(first < id <= first + |weights|)
    ensures Born(first, after, p, weights, h)
  {
    forall i | 0 <= i < |weights| ensures BornAt(after, p, weights[i], h, first + 1 + i) {
      assert BornAt(between, p, weights[i], h, first + 1 + i);
    }
  }

  lemma BornSnoc(first: nat, after: Store, p: Waste, weights: seq<nat>, h: seq<Transfer>)
    requires weights != [] && Born(first, after, p, weights[..|weights| - 1], h)
    requires BornAt(after, p, weights[|weights| - 1], h, first + |weights|)
    ensures Born(first, after, p, weights, h)
  {
    var init := weights[..|weights| - 1];
    forall i | 0 <= i < |weights| ensures BornAt(after, p, weights[i], h, first + 1 + i) {
      if i < |init| { assert BornAt(after, p, init[i], h, first + 1 + i); }
    }
  }

  lemma BornOn(first: nat, before: Store, after: Store, p: Waste, weights: seq<nat>, h: seq<Transfer>)
    requires weights != [] && Born(first, before, p, weights[..|weights| - 1], h)
    requires before.count == first + |weights| - 1
    requires Next(before, after, NewWaste(p.wasteType, weights[|weights| - 1], p.owner, p.latitude, p.longitude, 0), h)
    ensures Born(first, after, p, weights, h)
  {
    BornStay(first, before, after, p, weights[..|weights| - 1], h, {before.count + 1}, {p.owner});
    BornSnoc(first, after, p, weights, h);
  }

  lemma {:induction false} ChildrenBorn(st: Store, p: Waste, weights: seq<nat>, h: seq<Transfer>)
    ensures Born(st.count, Children(st, p, weights, h), p, weights, h)
  {
    if weights != [] {
      var init := weights[..|weights| - 1];
      var before, after := Children(st, p, init, h), Children(st, p, weights, h);
      ChildrenBorn(st, p, init, h);
      ChildrenListed(st, p, init, h);
      NextChild(st, p, weights, h, before,
                NewWaste(p.wasteType, weights[|weights| - 1], p.owner, p.latitude, p.longitude, 0));
      BornOn(st.count, before, after, p, weights, h);
    }
  }

  lemma ConsumeIs(st: Store, owner: Address, ids: set<nat>)
    ensures Consumed(st, Consume(st, owner, ids), owner, ids)
  {}

  lemma {:induction false} WithoutForeign<T(!new)>(s: seq<T>, t: seq<T>, drop: set<T>)
    requires forall x :: x in t ==> x !in drop
    ensures Without(s + t, drop) == Without(s, drop) + t
  {
    if t == [] {
      assert s + t == s;
    } else {
      var init, x := t[..|t| - 1], t[|t| - 1];
      AppendSnoc(s, t);
      AppendSnoc(Without(s, drop), t);
      WithoutForeign(s, init, drop);
      WithoutSnoc(s + init, x, drop);
    }
  }

  lemma RetiredAfter(st: Store, between: Store, after: Store, ids: set<nat>, gone: set<nat>, owner: Address)
    requires Only(st, between, ids, {owner}) && ids !! gone && Consumed(between, after, owner, gone)
    ensures Retired(st, after, gone) && forall i :: i in gone ==> HistoryOf(after, i) == HistoryOf(st, i)
  {}

  lemma SplitComposes(st: Store, born: Store, after: Store, id: nat, owner: Address, weights: seq<nat>)
    requires IdsInv(st) && id in st.wastes && st.wastes[id].owner == owner
    requires Grown(st, born, owner, |weights|) && Consumed(born, after, owner, {id})
    requires Born(st.count, born, st.wastes[id], weights, HistoryOf(st, id))
    ensures SplitLeft(st, id, owner, weights, after)
  {
    RetiredAfter(st, born, after, Issued(st.count, |weights|), {id}, owner);
    OnlyTwice(st, born, after, Issued(st.count, |weights|), {id}, {owner});
    BornStay(st.count, born, after, st.wastes[id], weights, HistoryOf(st, id), {id}, {owner});
    WithoutForeign(OwnedBy(st, owner), Following(st.count, |weights|), {id});
  }

  lemma SplitLeaves(st: Store, id: nat, owner: Address, weights: seq<nat>)
    requires IdsInv(st) && id in st.wastes && st.wastes[id].owner == owner
    ensures SplitLeft(st, id, owner, weights,
                      Consume(Children(st, st.wastes[id], weights, HistoryOf(st, id)), owner, {id}))
  {
    var born := Children(st, st.wastes[id], weights, HistoryOf(st, id));
    ChildrenListed(st, st.wastes[id], weights, HistoryOf(st, id));
    ChildrenBorn(st, st.wastes[id], weights, HistoryOf(st, id));
    ConsumeIs(born, owner, {id});
    SplitComposes(st, born, Consume(born, owner, {id}), id, owner, weights);
  }

  lemma SplitIs(reg: Registry, st: Store, now: nat, id: nat, owner: Address, weights: seq<nat>)
    requires IdsInv(st)
    ensures var r, op := SplitWaste(st, id, owner, weights), Split(id, owner, weights);
      && (r.Ok? <==> Admits(reg, [], st, now, op))
      && (r.Err? ==> Blames(reg, [], st, now, op, r.error))
      && (r.Ok? ==> Leaves(st, now, op, r.value.0) && r.value.1 == Following(st.count, |weights|))
  {
    SplitAdmitted(reg, st, now, id, owner, weights);
    if SplitWaste(st, id, owner, weights).Ok? {
      SplitShape(st, id, owner, weights);
      SplitLeaves(st, id, owner, weights);
    }
  }

  lemma SplitAdmitted(reg: Registry, st: Store, now: nat, id: nat, owner: Address, weights: seq<nat>)
    ensures SplitWaste(st, id, owner, weights).Ok? <==> Admits(reg, [], st, now, Split(id, owner, weights))
    ensures SplitWaste(st, id, owner, weights).Err? ==>
      Blames(reg, [], st, now, Split(id, owner, weights), SplitWaste(st, id, owner, weights).error)
    ensures SplitWaste(st, id, owner, weights).Ok? ==>
      SplitWaste(st, id, owner, weights).value.1 == Following(st.count, |weights|)
  {}

  // ---------- merges ----------

  lemma {:induction false} FlattenSnoc<T>(s: seq<seq<T>>, t: seq<T>)
    ensures Flatten(s + [t]) == Flatten(s) + t
  {
    if s == [] {
      assert (s + [t])[1..] == [];
    } else {
      FlattenSnoc(s[1..], t);
      assert (s + [t])[1..] == s[1..] + [t];
    }
  }

  lemma {:induction false} JoinedIsFlat(st: Store, ids: seq<nat>)
    ensures JoinedHistory(st, ids) == Flatten(Histories(st, ids))
  {
    if ids != [] {
      var init := ids[..|ids| - 1];
      JoinedIsFlat(st, init);
      FlattenSnoc(Histories(st, init), HistoryOf(st, ids[|ids| - 1]));
      assert Histories(st, ids) == Histories(st, init) + [HistoryOf(st, ids[|ids| - 1])];
    }
  }

  predicate Alike(w: Waste, v: Waste) {
    w.wasteType == v.wasteType && w.latitude == v.latitude && w.longitude == v.longitude
  }

  lemma MergeableSnoc(wastes: map<nat, Waste>, init: seq<nat>, id: nat, owner: Address)
    ensures Mergeable(wastes, init + [id], owner)
            <==> && Mergeable(wastes, init, owner) && id in wastes && wastes[id].owner == owner && wastes[id].active
                 && (init != [] ==> init[0] in wastes && Alike(wastes[id], wastes[init[0]]))
  {
    var all := init + [id];
    assert all[|init|] == id && forall i :: 0 <= i < |init| ==> all[i] == init[i];
    if Mergeable(wastes, all, owner) {
      assert id in all && forall i :: i in init ==> i in all;
      forall i, j | 0 <= i < |init| && 0 <= j < |init| ensures Alike(wastes[init[i]], wastes[init[j]]) {
        assert Alike(wastes[all[i]], wastes[all[j]]);
      }
      if init != [] { assert Alike(wastes[all[|init|]], wastes[all[0]]); }
    }
  }

  /** One step of the validating loop. */
  lemma MergeWeightNext(wastes: map<nat, Waste>, owner: Address, ids: seq<nat>, k: nat)
    requires 0 < k <= |ids| && (k > 1 ==> ids[0] in wastes)
    ensures var before, id := MergeWeight(wastes, owner, ids, k - 1), ids[k - 1];
      MergeWeight(wastes, owner, ids, k).Ok?
      <==> && before.Ok? && id in wastes && wastes[id].owner == owner && wastes[id].active
           && (k > 1 ==> Alike(wastes[id], wastes[ids[0]])) && before.value + wastes[id].weight <= U128_MAX
    ensures MergeWeight(wastes, owner, ids, k).Ok? ==>
      MergeWeight(wastes, owner, ids, k).value
      == MergeWeight(wastes, owner, ids, k - 1).value + wastes[ids[k - 1]].weight
  {}

  /** The running sums of a merge never exceed the last. */
  lemma {:induction false} MergeWeightIsNamed(wastes: map<nat, Waste>, owner: Address, ids: seq<nat>, k: nat)
    requires 0 < k <= |ids|
    ensures MergeWeight(wastes, owner, ids, k).Ok?
            <==> Mergeable(wastes, ids[..k], owner) && WeightNamed(wastes, ids[..k]) <= U128_MAX
    ensures MergeWeight(wastes, owner, ids, k).Ok? ==>
      MergeWeight(wastes, owner, ids, k).value == WeightNamed(wastes, ids[..k])
  {
    var init, id := ids[..k - 1], ids[k - 1];
    assert ids[..k] == init + [id] && ids[..k][..k - 1] == init;
    MergeableSnoc(wastes, init, id, owner);
    if k > 1 {
      MergeWeightIsNamed(wastes, owner, ids, k - 1);
      assert init[0] == ids[0];
    }
    if k == 1 || ids[0] in wastes { MergeWeightNext(wastes, owner, ids, k); }
    else { assert !Mergeable(wastes, init, owner); }
  }

  lemma MergeComposes(st: Store, merged: Store, after: Store, ids: seq<nat>, owner: Address, w: Waste)
    requires ids != [] && (forall id :: id in ids ==> id in st.wastes) && st.count + 1 !in ids
    requires var first := st.wastes[ids[0]];
      Newborn(w, first.wasteType, WeightNamed(st.wastes, ids), owner, first.latitude, first.longitude, 0)
    requires Next(st, merged, w, Flatten(Histories(st, ids))) && Consumed(merged, after, owner, Elements(ids))
    ensures MergeLeft(st, ids, owner, after)
  {
    RetiredAfter(st, merged, after, {st.count + 1}, Elements(ids), owner);
    OnlyTwice(st, merged, after, {st.count + 1}, Elements(ids), {owner});
    MergedStays(st, merged, after, w, Flatten(Histories(st, ids)), Elements(ids));
  }

  lemma MergedStays(st: Store, merged: Store, after: Store, w: Waste, h: seq<Transfer>, ids: set<nat>)
    requires Next(st, merged, w, h) && Consumed(merged, after, w.owner, ids) && st.count + 1 !in ids
    ensures var id := st.count + 1;
      && SameOffers(st, after) && after.count == id
      && id in after.wastes && after.wastes[id] == w && HistoryOf(after, id) == h
      && OwnedBy(after, w.owner) == Without<nat>(OwnedBy(st, w.owner), ids) + [id]
  {
    var last: seq<nat> := [st.count + 1];
    WithoutForeign(OwnedBy(st, w.owner), last, ids);
  }

  lemma MergeLeaves(st: Store, ids: seq<nat>, owner: Address)
    requires IdsInv(st) && ids != [] && forall id :: id in ids ==> id in st.wastes
    ensures MergeLeft(st, ids, owner,
                      Consume(Merged(st, ids, owner, WeightNamed(st.wastes, ids)), owner, Elements(ids)))
  {
    var first, weight := st.wastes[ids[0]], WeightNamed(st.wastes, ids);
    var w := NewWaste(first.wasteType, weight, owner, first.latitude, first.longitude, 0);
    var merged := Merged(st, ids, owner, weight);
    NextIs(st, w, JoinedHistory(st, ids));
    JoinedIsFlat(st, ids);
    ConsumeIs(merged, owner, Elements(ids));
    MergeComposes(st, merged, Consume(merged, owner, Elements(ids)), ids, owner, w);
  }

  /** The validating loop stops at a waste that cannot be merged, or where the sum leaves 128 bits. */
  lemma {:induction false} MergeErrors(wastes: map<nat, Waste>, owner: Address, ids: seq<nat>, k: nat)
    requires 0 < k <= |ids| && MergeWeight(wastes, owner, ids, k).Err?
    ensures var e := MergeWeight(wastes, owner, ids, k).error;
      if e == Overflow then
        (forall id :: id in ids[..k] ==> id in wastes) ==> WeightNamed(wastes, ids[..k]) > U128_MAX
      else exists id :: id in ids[..k] && MergeBlames(wastes, ids[0], id, owner, e)
  {
    var before, id := MergeWeight(wastes, owner, ids, k - 1), ids[k - 1];
    assert ids[..k] == ids[..k - 1] + [id] && ids[..k][..k - 1] == ids[..k - 1];
    if before.Err? {
      assert MergeWeight(wastes, owner, ids, k) == before;
      MergeErrors(wastes, owner, ids, k - 1);
      StillStopped(wastes, owner, ids[..k - 1], id, ids[0], before.error);
    } else {
      assert id in ids[..k];
      if k > 1 { MergeWeightIsNamed(wastes, owner, ids, k - 1); } else { assert before == Ok(0); }
      MergeStops(wastes, owner, ids, k);
    }
  }

  /** A list that cannot be merged cannot be with one waste more. */
  ghost predicate Stopped(wastes: map<nat, Waste>, owner: Address, ids: seq<nat>, first: nat, e: Error) {
    if e == Overflow then (forall id :: id in ids ==> id in wastes) ==> WeightNamed(wastes, ids) > U128_MAX
    else exists id :: id in ids && MergeBlames(wastes, first, id, owner, e)
  }

  lemma StillStopped(wastes: map<nat, Waste>, owner: Address, init: seq<nat>, id: nat, first: nat, e: Error)
    requires Stopped(wastes, owner, init, first, e)
    ensures Stopped(wastes, owner, init + [id], first, e)
  {
    assert (init + [id])[..|init|] == init;
    if e != Overflow {
      var i :| i in init && MergeBlames(wastes, first, i, owner, e);
      assert i in init + [id];
    }
  }

  lemma MergeStops(wastes: map<nat, Waste>, owner: Address, ids: seq<nat>, k: nat)
    requires 0 < k <= |ids| && MergeWeight(wastes, owner, ids, k).Err? && MergeWeight(wastes, owner, ids, k - 1).Ok?
    ensures var e, id := MergeWeight(wastes, owner, ids, k).error, ids[k - 1];
      if e == Overflow then
        id in wastes && MergeWeight(wastes, owner, ids, k - 1).value + wastes[id].weight > U128_MAX
      else MergeBlames(wastes, ids[0], id, owner, e)
  {}

  lemma MergeAdmitted(reg: Registry, st: Store, now: nat, ids: seq<nat>, owner: Address)
    ensures MergeWastes(st, ids, owner).Ok? <==> Admits(reg, [], st, now, Merge(ids, owner))
    ensures MergeWastes(st, ids, owner).Ok? ==>
      && MergeWastes(st, ids, owner).value.1 == st.count + 1
      && MergeWeight(st.wastes, owner, ids, |ids|) == Ok(WeightNamed(st.wastes, ids))
  {
    MergeGoes(st, ids, owner);
    if |ids| > 0 {
      MergeWeightIsNamed(st.wastes, owner, ids, |ids|);
      assert ids[..|ids|] == ids;
    }
  }

  /** A merge in terms of its validating loop. */
  lemma MergeGoes(st: Store, ids: seq<nat>, owner: Address)
    ensures var weight := MergeWeight(st.wastes, owner, ids, |ids|);
      && (MergeWastes(st, ids, owner).Ok?
          <==> && 2 <= |ids| <= 20 && weight.Ok? && st.count < U64_MAX
               && ids[0] in st.wastes && Impact(st.wastes[ids[0]].wasteType, weight.value) <= U128_MAX)
      && (MergeWastes(st, ids, owner).Ok? ==> MergeWastes(st, ids, owner).value.1 == st.count + 1)
  {
    if |ids| > 0 && MergeWeight(st.wastes, owner, ids, |ids|).Ok? {
      MergeWeightPassed(st.wastes, owner, ids, |ids|);
    }
  }

  lemma MergeRefused(reg: Registry, st: Store, now: nat, ids: seq<nat>, owner: Address)
    ensures MergeWastes(st, ids, owner).Err? ==>
      Blames(reg, [], st, now, Merge(ids, owner), MergeWastes(st, ids, owner).error)
  {
    if 2 <= |ids| <= 20 {
      assert ids[..|ids|] == ids;
      MergeWeightIsNamed(st.wastes, owner, ids, |ids|);
      if MergeWeight(st.wastes, owner, ids, |ids|).Err? { MergeErrors(st.wastes, owner, ids, |ids|); }
    }
  }

  lemma MergeIs(reg: Registry, st: Store, now: nat, ids: seq<nat>, owner: Address)
    requires IdsInv(st)
    ensures var r, op := MergeWastes(st, ids, owner), Merge(ids, owner);
      && (r.Ok? <==> Admits(reg, [], st, now, op))
      && (r.Err? ==> Blames(reg, [], st, now, op, r.error))
      && (r.Ok? ==> Leaves(st, now, op, r.value.0) && r.value.1 == st.count + 1)
  {
    MergeAdmitted(reg, st, now, ids, owner);
    MergeRefused(reg, st, now, ids, owner);
    if MergeWastes(st, ids, owner).Ok? {
      MergeShape(st, ids, owner);
      MergeLeaves(st, ids, owner);
    }
  }

  // ---------- deactivation and reservation ----------

  lemma DeactivateIs(reg: Registry, admins: seq<Address>, st: Store, now: nat, id: nat, admin: Address)
    ensures var r, op := AdminDeactivate(admins, st, id, admin), Deactivate(id, admin);
      && (r.Ok? <==> Admits(reg, admins, st, now, op))
      && (r.Err? ==> Blames(reg, admins, st, now, op, r.error))
      && (r.Ok? ==> Leaves(st, now, op, r.value))
  {}

  lemma DeactivateManyIs(reg: Registry, admins: seq<Address>, st: Store, now: nat, ids: seq<nat>, admin: Address)
    ensures var r, op := BatchDeactivate(admins, st, ids, admin), DeactivateMany(ids, admin);
      && (r.Ok? <==> Admits(reg, admins, st, now, op))
      && (r.Err? ==> Blames(reg, admins, st, now, op, r.error))
      && (r.Ok? ==>
            && Leaves(st, now, op, r.value.0)
            && r.value.1 == |set id | id in st.wastes && id in ids && st.wastes[id].active|)
  {
    assert ActiveAmong(st.wastes, Elements(ids)) == set id | id in st.wastes && id in ids && st.wastes[id].active;
  }

  lemma CleanupIs(reg: Registry, admins: seq<Address>, st: Store, now: nat, admin: Address)
    requires IdsInv(st)
    ensures var r, op := CleanupExpired(admins, st, now, admin), Cleanup(admin);
      && (r.Ok? <==> Admits(reg, admins, st, now, op))
      && (r.Err? ==> Blames(reg, admins, st, now, op, r.error))
      && (r.Ok? ==>
            && Leaves(st, now, op, r.value.0)
            && r.value.1 == |set id | id in st.wastes && 0 < st.wastes[id].expiresAt <= now && st.wastes[id].active|)
  {
    assert ExpiredIds(st, now)
           == set id | id in st.wastes && 0 < st.wastes[id].expiresAt <= now && st.wastes[id].active;
  }

  lemma ReserveIs(reg: Registry, st: Store, now: nat, id: nat, reserver: Address, duration: nat)
    ensures var r, op := ReserveWaste(reg, st, now, id, reserver, duration), Reserve(id, reserver, duration);
      && (r.Ok? <==> Admits(reg, [], st, now, op))
      && (r.Err? ==> Blames(reg, [], st, now, op, r.error))
      && (r.Ok? ==> Leaves(st, now, op, r.value))
  {}

  lemma CancelIs(reg: Registry, st: Store, now: nat, id: nat, caller: Address)
    ensures var r, op := CancelReservation(st, id, caller), Cancel(id, caller);
      && (r.Ok? <==> Admits(reg, [], st, now, op))
      && (r.Err? ==> Blames(reg, [], st, now, op, r.error))
      && (r.Ok? ==> Leaves(st, now, op, r.value))
  {}

  // ---------- any call ----------

  lemma MintIs(reg: Registry, admins: seq<Address>, st: Store, now: nat, op: WasteOp)
    requires IdsInv(st) && Mints(op)
    ensures if Admits(reg, admins, st, now, op) then Leaves(st, now, op, MintStep(reg, st, now, op))
            else MintStep(reg, st, now, op) == st
  {
    match op
    case Recycle(minWeight, ttl, wt, w, a, lat, lon) => RecycleIs(reg, st, minWeight, ttl, now, wt, w, a, lat, lon);
    case Bulk(wt, c, m, lat, lon, note) => BulkIs(reg, st, now, wt, c, m, lat, lon, note);
    case Split(id, owner, weights) => SplitIs(reg, st, now, id, owner, weights);
    case Merge(ids, owner) => MergeIs(reg, st, now, ids, owner);
  }

  lemma MoveStepIs(reg: Registry, admins: seq<Address>, st: Store, now: nat, op: WasteOp)
    requires IdsInv(st) && Moves(op)
    ensures if Admits(reg, admins, st, now, op) then Leaves(st, now, op, MoveStep(reg, admins, st, now, op))
            else MoveStep(reg, admins, st, now, op) == st
  {
    match op
    case Transfer1(id, from, to, lat, lon) => TransferIs(reg, st, now, id, from, to, lat, lon);
    case TransferMany(ids, to, lat, lon) => BatchIs(reg, st, now, ids, to, lat, lon);
    case Override(admin, id, from, to, lat, lon) => OverrideIs(reg, admins, st, now, admin, id, from, to, lat, lon);
    case Approve(n, recipient) => ApproveIs(reg, st, now, n, recipient);
  }

  lemma EditIs(reg: Registry, admins: seq<Address>, st: Store, now: nat, op: WasteOp)
    requires IdsInv(st) && !Mints(op) && !Moves(op)
    ensures if Admits(reg, admins, st, now, op) then Leaves(st, now, op, EditStep(reg, admins, st, now, op))
            else EditStep(reg, admins, st, now, op) == st
  {
    match op
    case Initiate(id, from, to, lat, lon) => InitiateIs(reg, st, now, id, from, to, lat, lon);
    case Deactivate(id, admin) => DeactivateIs(reg, admins, st, now, id, admin);
    case DeactivateMany(ids, admin) => DeactivateManyIs(reg, admins, st, now, ids, admin);
    case Cleanup(admin) => CleanupIs(reg, admins, st, now, admin);
    case Reserve(id, reserver, duration) => ReserveIs(reg, st, now, id, reserver, duration);
    case Cancel(id, caller) => CancelIs(reg, st, now, id, caller);
  }

  /** Every custody call goes through exactly when it is admitted, and then leaves exactly this; a refused one leaves
      the store alone. */
  lemma StepIs(reg: Registry, admins: seq<Address>, st: Store, now: nat, op: WasteOp)
    requires IdsInv(st)
    ensures var after := WasteStep(reg, admins, st, now, op);
      if Admits(reg, admins, st, now, op) then Leaves(st, now, op, after) else after == st
  {
    if Mints(op) { MintIs(reg, admins, st, now, op); }
    else if Moves(op) { MoveStepIs(reg, admins, st, now, op); }
    else { EditIs(reg, admins, st, now, op); }
  }
}
