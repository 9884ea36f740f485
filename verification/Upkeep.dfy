/** Custody calls leave the processing and contamination side of every waste alone. */
module Upkeep {
  import opened Prelude
  import opened Model
  import opened Custody
  import opened CustodyIndex
  import opened Quality

  /** Equal up to owner, activity and reservation. */
  predicate Alike(w: Waste, w': Waste) {
    w' == w.(owner := w'.owner, active := w'.active, reservedBy := w'.reservedBy, reservedUntil := w'.reservedUntil)
  }

  predicate Untouched(w: Waste) {
    w.stages == [Collected] && w.status == Collected && !w.contaminated && w.wasteType.Scores(w.weight)
  }

  /** Every old waste is still there and alike; every new one is untouched. */
  ghost predicate Framed(wastes: map<nat, Waste>, after: map<nat, Waste>) {
    && (forall id :: id in wastes ==> id in after && Alike(wastes[id], after[id]))
    && (forall id :: id in after && id !in wastes ==> Untouched(after[id]))
  }

  lemma FramedTransitive(a: map<nat, Waste>, b: map<nat, Waste>, c: map<nat, Waste>)
    requires Framed(a, b) && Framed(b, c)
    ensures Framed(a, c)
  {
    forall id | id in c && id !in a ensures Untouched(c[id]) {
      if id in b { assert Untouched(b[id]) && Alike(b[id], c[id]); }
    }
  }

  lemma EditFramed(wastes: map<nat, Waste>, id: nat, w: Waste)
    requires id in wastes && Alike(wastes[id], w)
    ensures Framed(wastes, wastes[id := w])
  {}

  lemma BirthFramed(wastes: map<nat, Waste>, id: nat, w: Waste)
    requires id !in wastes && Untouched(w)
    ensures Framed(wastes, wastes[id := w])
  {}

  lemma RetireFramed(wastes: map<nat, Waste>, ids: set<nat>)
    ensures Framed(wastes, Retire(wastes, ids))
  {}

  lemma {:induction false} BatchFramed(st: Store, now: nat, ids: seq<nat>, to: Address, lat: int, lon: int)
    requires forall id :: id in ids ==> id in st.wastes
    ensures Framed(st.wastes, BatchMove(st, st.wastes, now, ids, to, lat, lon).wastes)
  {
    if ids != [] {
      var last := |ids| - 1;
      BatchFramed(st, now, ids[..last], to, lat, lon);
      assert Alike(st.wastes[ids[last]], st.wastes[ids[last]].(owner := to));
    }
  }

  lemma {:induction false} ChildrenFramed(st: Store, parent: Waste, weights: seq<nat>, h: seq<Transfer>)
    requires IdsInv(st) && forall i :: 0 <= i < |weights| ==> parent.wasteType.Scores(weights[i])
    ensures Framed(st.wastes, Children(st, parent, weights, h).wastes)
  {
    if weights != [] {
      var last := |weights| - 1;
      ChildrenFramed(st, parent, weights[..last], h);
      ChildrenFrame(st, parent, weights[..last], h);
      var done := Children(st, parent, weights[..last], h);
      var child := NewWaste(parent.wasteType, weights[last], parent.owner, parent.latitude, parent.longitude, 0);
      BirthFramed(done.wastes, done.count + 1, child);
      FramedTransitive(st.wastes, done.wastes, done.wastes[done.count + 1 := child]);
    }
  }

  lemma SplitFramed(st: Store, id: nat, owner: Address, weights: seq<nat>)
    requires IdsInv(st) && SplitWaste(st, id, owner, weights).Ok?
    ensures Framed(st.wastes, SplitWaste(st, id, owner, weights).value.0.wastes)
  {
    SplitShape(st, id, owner, weights);
    var born := Children(st, st.wastes[id], weights, HistoryOf(st, id)).wastes;
    ChildrenFramed(st, st.wastes[id], weights, HistoryOf(st, id));
    RetireFramed(born, {id});
    FramedTransitive(st.wastes, born, Retire(born, {id}));
  }

  lemma MergeFramed(st: Store, ids: seq<nat>, owner: Address)
    requires IdsInv(st) && MergeWastes(st, ids, owner).Ok?
    ensures Framed(st.wastes, MergeWastes(st, ids, owner).value.0.wastes)
  {
    MergeShape(st, ids, owner);
    MergedFramed(st, ids, owner, MergeWeight(st.wastes, owner, ids, |ids|).value);
  }

  lemma MergedFramed(st: Store, ids: seq<nat>, owner: Address, weight: nat)
    requires st.count + 1 !in st.wastes && ids != [] && ids[0] in st.wastes
    requires st.wastes[ids[0]].wasteType.Scores(weight)
    ensures Framed(st.wastes, Consume(Merged(st, ids, owner, weight), owner, Elements(ids)).wastes)
  {
    var born, first := Merged(st, ids, owner, weight).wastes, st.wastes[ids[0]];
    BirthFramed(st.wastes, st.count + 1,
                NewWaste(first.wasteType, weight, owner, first.latitude, first.longitude, 0));
    RetireFramed(born, Elements(ids));
    FramedTransitive(st.wastes, born, Retire(born, Elements(ids)));
  }

  lemma NewcomerFramed(reg: Registry, st: Store, now: nat, op: WasteOp)
    requires IdsInv(st) && (op.Recycle? || op.Bulk?)
    ensures Framed(st.wastes, MintStep(reg, st, now, op).wastes)
  {
    var id: nat := st.count + 1;
    if MintStep(reg, st, now, op) == st {
    } else if op.Recycle? {
      BirthFramed(st.wastes, id, NewWaste(op.wasteType, op.weight, op.recycler, op.lat, op.lon,
                                          if op.ttl > 0 then now + op.ttl else 0));
    } else {
      BirthFramed(st.wastes, id, NewWaste(op.wasteType, 0, op.manufacturer, op.lat, op.lon, 0));
    }
  }

  lemma MintFramed(reg: Registry, st: Store, now: nat, op: WasteOp)
    requires IdsInv(st) && Mints(op)
    ensures Framed(st.wastes, MintStep(reg, st, now, op).wastes)
  {
    match op
    case Recycle(_, _, _, _, _, _, _) => NewcomerFramed(reg, st, now, op);
    case Bulk(_, _, _, _, _, _) => NewcomerFramed(reg, st, now, op);
    case Split(id, owner, weights) => if SplitWaste(st, id, owner, weights).Ok? { SplitFramed(st, id, owner, weights); }
    case Merge(ids, owner) => if MergeWastes(st, ids, owner).Ok? { MergeFramed(st, ids, owner); }
  }

  lemma AcceptFramed(st: Store, now: nat, n: nat, recipient: Address)
    requires ApproveTransfer(st, now, n, recipient).Ok?
    ensures Framed(st.wastes, ApproveTransfer(st, now, n, recipient).value.wastes)
  {
    EditFramed(st.wastes, st.pending[n].wasteId, st.wastes[st.pending[n].wasteId].(owner := st.pending[n].to));
  }

  lemma MoveFramed(reg: Registry, admins: seq<Address>, st: Store, now: nat, op: WasteOp)
    requires Moves(op)
    ensures Framed(st.wastes, MoveStep(reg, admins, st, now, op).wastes)
  {
    match op
    case Transfer1(id, from, to, lat, lon) =>
      if id in st.wastes { EditFramed(st.wastes, id, st.wastes[id].(owner := to)); }
    case TransferMany(ids, to, lat, lon) =>
      if BatchTransfer(reg, st, now, ids, to, lat, lon).Ok? {
        BatchCheckPassed(reg, st.wastes, now, ids, to);
        BatchFramed(st, now, ids, to, lat, lon);
      }
    case Override(admin, id, from, to, lat, lon) =>
      if id in st.wastes { EditFramed(st.wastes, id, st.wastes[id].(owner := to)); }
    case Approve(n, recipient) =>
      if ApproveTransfer(st, now, n, recipient).Ok? { AcceptFramed(st, now, n, recipient); }
  }

  lemma QuietFramed(reg: Registry, admins: seq<Address>, st: Store, now: nat, op: WasteOp)
    requires !Mints(op) && !Moves(op)
    ensures Framed(st.wastes, EditStep(reg, admins, st, now, op).wastes)
  {
    match op
    case Initiate(_, _, _, _, _) =>
    case Deactivate(id, admin) => if id in st.wastes { EditFramed(st.wastes, id, st.wastes[id].(active := false)); }
    case DeactivateMany(ids, admin) => RetireFramed(st.wastes, Elements(ids));
    case Cleanup(admin) => RetireFramed(st.wastes, ExpiredIds(st, now));
    case _ => ReservationFramed(reg, admins, st, now, op);
  }

  lemma ReservationFramed(reg: Registry, admins: seq<Address>, st: Store, now: nat, op: WasteOp)
    requires op.Reserve? || op.Cancel?
    ensures Framed(st.wastes, EditStep(reg, admins, st, now, op).wastes)
  {
    ReservationIs(reg, admins, st, now, op);
    var after := EditStep(reg, admins, st, now, op);
    if after != st { EditFramed(st.wastes, op.id, after.wastes[op.id]); }
  }

  lemma StepFramed(reg: Registry, admins: seq<Address>, st: Store, now: nat, op: WasteOp)
    requires IdsInv(st)
    ensures Framed(st.wastes, WasteStep(reg, admins, st, now, op).wastes)
  {
    if Mints(op) { MintFramed(reg, st, now, op); }
    else if Moves(op) { MoveFramed(reg, admins, st, now, op); }
    else { QuietFramed(reg, admins, st, now, op); }
  }

  // ---------- what follows ----------

  lemma FramedKeepsStages(wastes: map<nat, Waste>, after: map<nat, Waste>)
    requires Framed(wastes, after) && StagesInv(wastes)
    ensures StagesInv(after)
  {
    forall id | id in after ensures GoodStages(after[id]) {
      if id in wastes { assert Alike(wastes[id], after[id]) && GoodStages(wastes[id]); }
      else { assert Untouched(after[id]); }
    }
  }

  /** Every waste's impact score fits, as it did when the waste was created. */
  ghost predicate ScoresInv(wastes: map<nat, Waste>) {
    forall id :: id in wastes ==> wastes[id].wasteType.Scores(wastes[id].weight)
  }

  lemma FramedKeepsScores(wastes: map<nat, Waste>, after: map<nat, Waste>)
    requires Framed(wastes, after) && ScoresInv(wastes)
    ensures ScoresInv(after)
  {
    forall id | id in after ensures after[id].wasteType.Scores(after[id].weight) {
      if id in wastes { assert Alike(wastes[id], after[id]); } else { assert Untouched(after[id]); }
    }
  }

  lemma {:induction false} PartOfSum(weights: seq<nat>, i: nat)
    requires i < |weights|
    ensures weights[i] <= Sum(weights)
  {
    if i < |weights| - 1 { PartOfSum(weights[..|weights| - 1], i); }
  }

  /** So a split never fails for the impact score of a child: it fails only for the checks before. */
  lemma SplitScores(st: Store, id: nat, owner: Address, weights: seq<nat>)
    requires ScoresInv(st.wastes) && id in st.wastes && Sum(weights) == st.wastes[id].weight
    ensures SplitWaste(st, id, owner, weights).Ok?
            <==> && st.wastes[id].owner == owner && st.wastes[id].active && 2 <= |weights| <= 10
                 && Sum(weights) <= U128_MAX && st.count + |weights| <= U64_MAX
  {
    forall i | 0 <= i < |weights| ensures st.wastes[id].wasteType.Scores(weights[i]) { PartOfSum(weights, i); }
  }

  lemma FramedKeepsMarks(wastes: map<nat, Waste>, after: map<nat, Waste>, list: seq<nat>)
    requires Framed(wastes, after) && ContaminationInv(wastes, list)
    ensures ContaminationInv(after, list)
  {
    forall id | id in after ensures id in list <==> after[id].contaminated {
      if id in wastes { assert Alike(wastes[id], after[id]); } else { assert Untouched(after[id]); }
    }
  }

  /** Entries that weigh nothing do not change a sum. */
  lemma {:induction false} MapSumGrows(m: map<nat, Waste>, n: map<nat, Waste>, weigh: Waste -> nat)
    requires m.Keys <= n.Keys
    requires forall k :: k in n ==> weigh(n[k]) == if k in m then weigh(m[k]) else 0
    ensures MapSum(m, weigh) == MapSum(n, weigh)
    decreases n
  {
    if n == map[] {
      assert m == map[];
    } else {
      var k :| k in n;
      MapSumRemove(n, k, weigh);
      if k in m { MapSumRemove(m, k, weigh); } else { assert m - {k} == m; }
      MapSumGrows(m - {k}, n - {k}, weigh);
    }
  }

  lemma FramedKeepsRecycled(wastes: map<nat, Waste>, after: map<nat, Waste>)
    requires Framed(wastes, after)
    ensures RecycledWeights(after) == RecycledWeights(wastes)
  {
    forall id | id in after
      ensures WeightRecycled(after[id]) == if id in wastes then WeightRecycled(wastes[id]) else 0
    {
      if id in wastes { assert Alike(wastes[id], after[id]); } else { assert Untouched(after[id]); }
    }
    MapSumGrows(wastes, after, WeightRecycled);
  }
}
