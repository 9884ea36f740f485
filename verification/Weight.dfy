/** Active weight is conserved, type by type: moving, splitting and merging neither create nor destroy it. */
module Weight {
  import opened Prelude
  import opened Model
  import opened Custody
  import opened CustodyIndex

  /** One waste type, or all of them together. */
  type Kind = Option<WasteType>

  predicate OfKind(k: Kind, wasteType: WasteType) { k == None || k == Some(wasteType) }

  function ActiveOf(k: Kind): Waste -> nat {
    (w: Waste) => if w.active && OfKind(k, w.wasteType) then w.weight else 0
  }

  ghost function TotalWeight(k: Kind, wastes: map<nat, Waste>): nat { MapSum(wastes, ActiveOf(k)) }

  function Chosen(wastes: map<nat, Waste>, ids: set<nat>): map<nat, Waste> {
    map id | id in wastes && id in ids :: wastes[id]
  }

  /** The active weight held by some of the wastes. */
  ghost function HeldBy(k: Kind, wastes: map<nat, Waste>, ids: set<nat>): nat { TotalWeight(k, Chosen(wastes, ids)) }

  // ---------- edits ----------

  lemma AddWasteWeight(k: Kind, st: Store, w: Waste)
    requires st.count + 1 !in st.wastes
    ensures TotalWeight(k, AddWaste(st, w).wastes) == TotalWeight(k, st.wastes) + ActiveOf(k)(w)
  {
    var id: nat := st.count + 1;
    MapSumSet(st.wastes, id, w, ActiveOf(k));
  }

  lemma SwapWeight(k: Kind, wastes: map<nat, Waste>, id: nat, w: Waste)
    requires id in wastes && ActiveOf(k)(w) == ActiveOf(k)(wastes[id])
    ensures TotalWeight(k, wastes[id := w]) == TotalWeight(k, wastes)
  {
    MapSumSet(wastes, id, w, ActiveOf(k));
  }

  lemma RetiredOne(k: Kind, wastes: map<nat, Waste>, ids: set<nat>, id: nat)
    requires id in wastes
    ensures TotalWeight(k, Retire(wastes, ids))
            == TotalWeight(k, Retire(wastes - {id}, ids)) + if id in ids then 0 else ActiveOf(k)(wastes[id])
  {
    MapSumRemove(Retire(wastes, ids), id, ActiveOf(k));
    assert Retire(wastes, ids) - {id} == Retire(wastes - {id}, ids);
  }

  lemma HeldByRest(k: Kind, wastes: map<nat, Waste>, ids: set<nat>, id: nat)
    requires id in wastes
    ensures HeldBy(k, wastes, ids)
            == HeldBy(k, wastes - {id}, ids) + if id in ids then ActiveOf(k)(wastes[id]) else 0
  {
    if id in ids {
      MapSumRemove(Chosen(wastes, ids), id, ActiveOf(k));
      assert Chosen(wastes, ids) - {id} == Chosen(wastes - {id}, ids);
    } else {
      assert Chosen(wastes, ids) == Chosen(wastes - {id}, ids);
    }
  }

  lemma {:induction false} RetireWeight(k: Kind, wastes: map<nat, Waste>, ids: set<nat>)
    ensures TotalWeight(k, wastes) == TotalWeight(k, Retire(wastes, ids)) + HeldBy(k, wastes, ids)
    decreases wastes
  {
    if wastes == map[] {
      assert Retire(wastes, ids) == wastes && Chosen(wastes, ids) == wastes;
    } else {
      var id :| id in wastes;
      RetireWeight(k, wastes - {id}, ids);
      MapSumRemove(wastes, id, ActiveOf(k));
      RetiredOne(k, wastes, ids, id);
      HeldByRest(k, wastes, ids, id);
    }
  }

  lemma HeldByOne(k: Kind, wastes: map<nat, Waste>, id: nat)
    requires id in wastes
    ensures HeldBy(k, wastes, {id}) == ActiveOf(k)(wastes[id])
  {
    MapSumRemove(Chosen(wastes, {id}), id, ActiveOf(k));
    assert Chosen(wastes, {id}) - {id} == map[];
  }

  lemma {:induction false} BatchMoveWeight(k: Kind, st: Store, now: nat, ids: seq<nat>, to: Address, lat: int,
                                           lon: int)
    requires forall id :: id in ids ==> id in st.wastes
    ensures var done := BatchMove(st, st.wastes, now, ids, to, lat, lon).wastes;
      && TotalWeight(k, done) == TotalWeight(k, st.wastes) && done.Keys == st.wastes.Keys
      && forall id :: id in done ==> ActiveOf(k)(done[id]) == ActiveOf(k)(st.wastes[id])
  {
    if ids != [] {
      var last := |ids| - 1;
      BatchMoveWeight(k, st, now, ids[..last], to, lat, lon);
      var done := BatchMove(st, st.wastes, now, ids[..last], to, lat, lon).wastes;
      SwapWeight(k, done, ids[last], st.wastes[ids[last]].(owner := to));
    }
  }

  lemma {:induction false} ChildrenWeight(k: Kind, st: Store, parent: Waste, weights: seq<nat>, h: seq<Transfer>)
    requires forall id :: id in st.wastes ==> 1 <= id <= st.count
    ensures TotalWeight(k, Children(st, parent, weights, h).wastes)
            == TotalWeight(k, st.wastes) + if OfKind(k, parent.wasteType) then Sum(weights) else 0
  {
    if weights != [] {
      var last := |weights| - 1;
      ChildrenFrame(st, parent, weights[..last], h);
      ChildrenWeight(k, st, parent, weights[..last], h);
      AddWasteWeight(k, Children(st, parent, weights[..last], h),
        NewWaste(parent.wasteType, weights[last], parent.owner, parent.latitude, parent.longitude, 0));
    }
  }

  // ---------- split and merge ----------

  lemma BornWeight(k: Kind, st: Store, id: nat, weights: seq<nat>, h: seq<Transfer>)
    requires IdsInv(st) && id in st.wastes && st.wastes[id].active && Sum(weights) == st.wastes[id].weight
    ensures var born := Children(st, st.wastes[id], weights, h).wastes;
      TotalWeight(k, born) == TotalWeight(k, st.wastes) + HeldBy(k, born, {id})
  {
    ChildrenFrame(st, st.wastes[id], weights, h);
    ChildrenWeight(k, st, st.wastes[id], weights, h);
    HeldByOne(k, Children(st, st.wastes[id], weights, h).wastes, id);
  }

  lemma SplitWastes(st: Store, id: nat, owner: Address, weights: seq<nat>)
    requires SplitWaste(st, id, owner, weights).Ok?
    ensures id in st.wastes && st.wastes[id].active && Sum(weights) == st.wastes[id].weight
    ensures SplitWaste(st, id, owner, weights).value.0.wastes
            == Retire(Children(st, st.wastes[id], weights, HistoryOf(st, id)).wastes, {id})
  {
    SplitShape(st, id, owner, weights);
  }

  lemma SplitWeight(k: Kind, st: Store, id: nat, owner: Address, weights: seq<nat>)
    requires IdsInv(st) && SplitWaste(st, id, owner, weights).Ok?
    ensures TotalWeight(k, SplitWaste(st, id, owner, weights).value.0.wastes) == TotalWeight(k, st.wastes)
  {
    SplitWastes(st, id, owner, weights);
    BornWeight(k, st, id, weights, HistoryOf(st, id));
    RetireWeight(k, Children(st, st.wastes[id], weights, HistoryOf(st, id)).wastes, {id});
  }

  /** The weight a merge counts again because its list names a waste again. */
  function RepeatedWeight(wastes: map<nat, Waste>, ids: seq<nat>): nat
    requires forall id :: id in ids ==> id in wastes
  {
    if ids == [] then 0
    else
      var last := |ids| - 1;
      RepeatedWeight(wastes, ids[..last]) + if ids[last] in ids[..last] then wastes[ids[last]].weight else 0
  }

  /** The same, of one kind; a merge joins wastes of one type. */
  function RepeatedOf(k: Kind, wastes: map<nat, Waste>, ids: seq<nat>): nat
    requires forall id :: id in ids ==> id in wastes
  {
    if ids != [] && OfKind(k, wastes[ids[0]].wasteType) then RepeatedWeight(wastes, ids) else 0
  }

  lemma HeldByMore(k: Kind, wastes: map<nat, Waste>, ids: seq<nat>, n: nat)
    requires 0 < n <= |ids| && ids[n - 1] in wastes
    ensures HeldBy(k, wastes, Elements(ids[..n]))
            == HeldBy(k, wastes, Elements(ids[..n - 1]))
               + if ids[n - 1] in ids[..n - 1] then 0 else ActiveOf(k)(wastes[ids[n - 1]])
  {
    var id, before := ids[n - 1], Elements(ids[..n - 1]);
    assert ids[..n] == ids[..n - 1] + [id];
    if id in before {
      assert Elements(ids[..n]) == before;
    } else {
      assert Chosen(wastes, Elements(ids[..n])) == Chosen(wastes, before)[id := wastes[id]];
      MapSumSet(Chosen(wastes, before), id, wastes[id], ActiveOf(k));
    }
  }

  lemma HeldByNothing(k: Kind, wastes: map<nat, Waste>)
    ensures HeldBy(k, wastes, {}) == 0
  {
    assert Chosen(wastes, {}) == map[];
  }

  /** What the validating loop has found of its latest waste. */
  lemma MergeWeightNext(wastes: map<nat, Waste>, owner: Address, ids: seq<nat>, n: nat)
    requires 0 < n <= |ids| && MergeWeight(wastes, owner, ids, n).Ok? && forall id :: id in ids ==> id in wastes
    ensures MergeWeight(wastes, owner, ids, n - 1).Ok? && wastes[ids[n - 1]].active
    ensures wastes[ids[n - 1]].wasteType == wastes[ids[0]].wasteType
    ensures MergeWeight(wastes, owner, ids, n).value
            == MergeWeight(wastes, owner, ids, n - 1).value + wastes[ids[n - 1]].weight
  {}

  lemma {:induction false} MergeWeightIs(k: Kind, wastes: map<nat, Waste>, owner: Address, ids: seq<nat>, n: nat)
    requires n <= |ids| && MergeWeight(wastes, owner, ids, n).Ok? && forall id :: id in ids ==> id in wastes
    ensures n > 0 ==>
      HeldBy(k, wastes, Elements(ids[..n])) + RepeatedOf(k, wastes, ids[..n])
      == if OfKind(k, wastes[ids[0]].wasteType) then MergeWeight(wastes, owner, ids, n).value else 0
  {
    if n > 0 {
      MergeWeightNext(wastes, owner, ids, n);
      MergeWeightIs(k, wastes, owner, ids, n - 1);
      HeldByMore(k, wastes, ids, n);
      assert ids[..n][..n - 1] == ids[..n - 1];
      if n == 1 {
        HeldByNothing(k, wastes);
        assert Elements(ids[..0]) == {} && MergeWeight(wastes, owner, ids, 0) == Ok(0);
        assert RepeatedWeight(wastes, ids[..0]) == 0;
      }
    }
  }

  lemma MergedWeight(k: Kind, st: Store, ids: seq<nat>, owner: Address, weight: nat)
    requires IdsInv(st) && ids != [] && forall id :: id in ids ==> id in st.wastes
    ensures var merged := Merged(st, ids, owner, weight).wastes;
      TotalWeight(k, Retire(merged, Elements(ids))) + HeldBy(k, st.wastes, Elements(ids))
      == TotalWeight(k, st.wastes) + if OfKind(k, st.wastes[ids[0]].wasteType) then weight else 0
  {
    var first, merged := st.wastes[ids[0]], Merged(st, ids, owner, weight).wastes;
    AddWasteWeight(k, st, NewWaste(first.wasteType, weight, owner, first.latitude, first.longitude, 0));
    RetireWeight(k, merged, Elements(ids));
    assert Chosen(merged, Elements(ids)) == Chosen(st.wastes, Elements(ids));
  }

  /** A merge adds, to its own type, exactly the weight it counts again. */
  lemma MergeAdds(k: Kind, st: Store, ids: seq<nat>, owner: Address)
    requires IdsInv(st) && MergeWastes(st, ids, owner).Ok?
    ensures forall id :: id in ids ==> id in st.wastes
    ensures TotalWeight(k, MergeWastes(st, ids, owner).value.0.wastes)
            == TotalWeight(k, st.wastes) + RepeatedOf(k, st.wastes, ids)
  {
    MergeShape(st, ids, owner);
    MergeWeightIs(k, st.wastes, owner, ids, |ids|);
    assert ids[..|ids|] == ids;
    MergedWeight(k, st, ids, owner, MergeWeight(st.wastes, owner, ids, |ids|).value);
  }

  lemma {:induction false} RepeatsNothing(wastes: map<nat, Waste>, ids: seq<nat>)
    requires forall id :: id in ids ==> id in wastes
    ensures RepeatedWeight(wastes, ids) == 0
            <==> forall i, j :: 0 <= i < j < |ids| && ids[i] == ids[j] ==> wastes[ids[j]].weight == 0
  {
    if ids != [] {
      var last := |ids| - 1;
      var shorter := ids[..last];
      assert ids == shorter + [ids[last]];
      RepeatsNothing(wastes, shorter);
      if ids[last] in shorter {
        var i :| 0 <= i < last && shorter[i] == ids[last];
        assert ids[i] == ids[last];
      }
      if RepeatedWeight(wastes, ids) != 0 && RepeatedWeight(wastes, shorter) != 0 {
        var i, j :| 0 <= i < j < last && shorter[i] == shorter[j] && wastes[shorter[j]].weight != 0;
        assert ids[i] == ids[j];
      }
    }
  }

  /** A merge conserves the weight of each type if and only if every waste it names twice is weightless. */
  lemma MergeConservesIff(k: Kind, st: Store, ids: seq<nat>, owner: Address)
    requires IdsInv(st) && MergeWastes(st, ids, owner).Ok?
    ensures ids != [] && forall id :: id in ids ==> id in st.wastes
    ensures TotalWeight(k, MergeWastes(st, ids, owner).value.0.wastes) == TotalWeight(k, st.wastes)
            <==> || !OfKind(k, st.wastes[ids[0]].wasteType)
                 || forall i, j :: 0 <= i < j < |ids| && ids[i] == ids[j] ==> st.wastes[ids[j]].weight == 0
  {
    MergeAdds(k, st, ids, owner);
    RepeatsNothing(st.wastes, ids);
  }

  // ---------- every call ----------

  /** What a call puts in of one kind: a registered weight, and what a merge counts twice. */
  ghost function Added(k: Kind, reg: Registry, st: Store, now: nat, op: WasteOp): nat {
    match op
    case Recycle(minWeight, ttl, wt, w, a, lat, lon) =>
      if OfKind(k, wt) && RecycleWaste(reg, st, minWeight, ttl, now, wt, w, a, lat, lon).Ok? then w else 0
    case Merge(ids, owner) =>
      if MergeWastes(st, ids, owner).Ok? then
        MergeShape(st, ids, owner);
        RepeatedOf(k, st.wastes, ids)
      else 0
    case _ => 0
  }

  /** What a call takes out: the active weight of the wastes it deactivates. */
  ghost function Removed(k: Kind, admins: seq<Address>, st: Store, now: nat, op: WasteOp): nat {
    match op
    case Deactivate(id, admin) => if admin in admins then HeldBy(k, st.wastes, {id}) else 0
    case DeactivateMany(ids, admin) => if admin in admins then HeldBy(k, st.wastes, Elements(ids)) else 0
    case Cleanup(admin) => if admin in admins then HeldBy(k, st.wastes, ExpiredIds(st, now)) else 0
    case _ => 0
  }

  lemma StepWeight(k: Kind, reg: Registry, admins: seq<Address>, st: Store, now: nat, op: WasteOp)
    requires IdsInv(st)
    ensures TotalWeight(k, WasteStep(reg, admins, st, now, op).wastes) + Removed(k, admins, st, now, op)
            == TotalWeight(k, st.wastes) + Added(k, reg, st, now, op)
  {
    if Mints(op) { MintWeight(k, reg, st, now, op); }
    else if Moves(op) { MoveWeight(k, reg, admins, st, now, op); }
    else { EditWeight(k, reg, admins, st, now, op); }
  }

  lemma MintWeight(k: Kind, reg: Registry, st: Store, now: nat, op: WasteOp)
    requires IdsInv(st) && Mints(op)
    ensures TotalWeight(k, MintStep(reg, st, now, op).wastes) == TotalWeight(k, st.wastes) + Added(k, reg, st, now, op)
  {
    match op
    case Recycle(minWeight, ttl, wt, w, a, lat, lon) =>
      if RecycleWaste(reg, st, minWeight, ttl, now, wt, w, a, lat, lon).Ok? {
        AddWasteWeight(k, st, NewWaste(wt, w, a, lat, lon, if ttl > 0 then now + ttl else 0));
      }
    case Bulk(wt, c, m, lat, lon, note) =>
      if TransferCollected(reg, st, now, wt, c, m, lat, lon, note).Ok? {
        AddWasteWeight(k, st, NewWaste(wt, 0, m, lat, lon, 0));
      }
    case Split(id, owner, weights) =>
      if SplitWaste(st, id, owner, weights).Ok? { SplitWeight(k, st, id, owner, weights); }
    case Merge(ids, owner) =>
      if MergeWastes(st, ids, owner).Ok? { MergeAdds(k, st, ids, owner); }
  }

  lemma MoveWeight(k: Kind, reg: Registry, admins: seq<Address>, st: Store, now: nat, op: WasteOp)
    requires Moves(op)
    ensures TotalWeight(k, MoveStep(reg, admins, st, now, op).wastes) == TotalWeight(k, st.wastes)
  {
    match op
    case Transfer1(id, from, to, lat, lon) =>
      if id in st.wastes { SwapWeight(k, st.wastes, id, st.wastes[id].(owner := to)); }
    case TransferMany(ids, to, lat, lon) =>
      if BatchTransfer(reg, st, now, ids, to, lat, lon).Ok? {
        BatchCheckPassed(reg, st.wastes, now, ids, to);
        BatchMoveWeight(k, st, now, ids, to, lat, lon);
      }
    case Override(admin, id, from, to, lat, lon) =>
      if id in st.wastes { SwapWeight(k, st.wastes, id, st.wastes[id].(owner := to)); }
    case Approve(n, recipient) =>
      if ApproveTransfer(st, now, n, recipient).Ok? {
        var p := st.pending[n];
        SwapWeight(k, st.wastes, p.wasteId, st.wastes[p.wasteId].(owner := p.to));
      }
  }

  lemma EditWeight(k: Kind, reg: Registry, admins: seq<Address>, st: Store, now: nat, op: WasteOp)
    requires !Mints(op) && !Moves(op)
    ensures TotalWeight(k, EditStep(reg, admins, st, now, op).wastes) + Removed(k, admins, st, now, op)
            == TotalWeight(k, st.wastes)
  {
    match op
    case Deactivate(id, admin) => DeactivateWeight(k, st, id);
    case DeactivateMany(ids, admin) => RetireWeight(k, st.wastes, Elements(ids));
    case Cleanup(admin) => RetireWeight(k, st.wastes, ExpiredIds(st, now));
    case _ => ReservationWeight(k, reg, admins, st, now, op);
  }

  lemma ReservationWeight(k: Kind, reg: Registry, admins: seq<Address>, st: Store, now: nat, op: WasteOp)
    requires op.Initiate? || op.Reserve? || op.Cancel?
    ensures TotalWeight(k, EditStep(reg, admins, st, now, op).wastes) == TotalWeight(k, st.wastes)
  {
    if op.Reserve? && ReserveWaste(reg, st, now, op.id, op.reserver, op.duration).Ok? {
      SwapWeight(k, st.wastes, op.id,
        st.wastes[op.id].(reservedBy := Some(op.reserver), reservedUntil := Some(now + op.duration)));
    }
    if op.Cancel? && op.id in st.wastes {
      SwapWeight(k, st.wastes, op.id, st.wastes[op.id].(reservedBy := None, reservedUntil := None));
    }
  }

  lemma DeactivateWeight(k: Kind, st: Store, id: nat)
    ensures match DeactivateWaste(st, id)
            case Ok(after) => TotalWeight(k, after.wastes) + HeldBy(k, st.wastes, {id}) == TotalWeight(k, st.wastes)
            case Err(_) => HeldBy(k, st.wastes, {id}) == 0
  {
    if id in st.wastes {
      HeldByOne(k, st.wastes, id);
      MapSumSet(st.wastes, id, st.wastes[id].(active := false), ActiveOf(k));
      MapSumAtLeast(st.wastes, id, ActiveOf(k));
    } else {
      assert Chosen(st.wastes, {id}) == map[];
    }
  }

  // ---------- the scan over 1..=count ----------

  /** What `get_total_active_waste_weight` has added up after the first `n` ids. */
  function ScannedWeight(wastes: map<nat, Waste>, n: nat): nat {
    if n == 0 then 0
    else ScannedWeight(wastes, n - 1) + if n in wastes && wastes[n].active then wastes[n].weight else 0
  }

  function Upto(wastes: map<nat, Waste>, n: nat): map<nat, Waste> {
    map id | id in wastes && 1 <= id <= n :: wastes[id]
  }

  lemma {:induction false} ScanFinds(wastes: map<nat, Waste>, n: nat)
    ensures ScannedWeight(wastes, n) == TotalWeight(None, Upto(wastes, n))
  {
    if n == 0 {
      assert Upto(wastes, n) == map[];
    } else {
      ScanFinds(wastes, n - 1);
      if n in wastes {
        assert Upto(wastes, n) == Upto(wastes, n - 1)[n := wastes[n]];
        MapSumSet(Upto(wastes, n - 1), n, wastes[n], ActiveOf(None));
      } else {
        assert Upto(wastes, n) == Upto(wastes, n - 1);
      }
    }
  }

  /** In a store whose ids lie in 1..=count the scan adds up exactly the active weight. */
  lemma ScanIsTotal(st: Store)
    requires IdsInv(st)
    ensures ScannedWeight(st.wastes, st.count) == TotalWeight(None, st.wastes)
  {
    ScanFinds(st.wastes, st.count);
    assert st.wastes == Upto(st.wastes, st.count);
  }
}
