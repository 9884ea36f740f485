/** The transfer history of a waste is the chain of its owners. */
module Provenance {
  import opened Prelude
  import opened Model
  import opened Custody
  import opened CustodyIndex
  import opened BatchRefinement

  function Last(h: seq<Transfer>): Transfer
    requires h != []
  {
    h[|h| - 1]
  }

  /** Empty, or ending at `owner`. */
  predicate EndsAt(h: seq<Transfer>, owner: Address) { h == [] || Last(h).to == owner }

  /** Each record hands the waste on from where the record before left it. */
  ghost predicate Linked(h: seq<Transfer>) {
    forall i :: 0 <= i < |h| - 1 ==> h[i].to == h[i + 1].from
  }

  /** Every record moves the waste to a role further along the chain. */
  ghost predicate Climbs(reg: Registry, h: seq<Transfer>) {
    forall i :: 0 <= i < |h| ==> Climb(reg, h[i])
  }

  predicate Climb(reg: Registry, t: Transfer) {
    && t.from in reg.participants && t.to in reg.participants
    && reg.participants[t.from].role.Stage() < reg.participants[t.to].role.Stage()
  }

  // ---------- what one call does to one waste ----------

  ghost predicate Kept(st: Store, after: Store, id: nat)
    requires id in after.wastes
  {
    && id in st.wastes && after.wastes[id].owner == st.wastes[id].owner
    && HistoryOf(after, id) == HistoryOf(st, id)
  }

  /** `n` records more, each from `from` to `to`. */
  ghost predicate Extends(h: seq<Transfer>, h': seq<Transfer>, n: nat, from: Address, to: Address) {
    && |h'| == |h| + n && h'[..|h|] == h
    && forall i :: |h| <= i < |h'| ==> h'[i].from == from && h'[i].to == to
  }

  /** An accepted move that names the waste. */
  predicate Hands(reg: Registry, admins: seq<Address>, st: Store, now: nat, op: WasteOp, id: nat) {
    match op
    case Transfer1(x, from, to, lat, lon) => id == x && TransferWaste(reg, st, now, x, from, to, lat, lon).Ok?
    case TransferMany(ids, to, lat, lon) => id in ids && BatchTransfer(reg, st, now, ids, to, lat, lon).Ok?
    case Override(admin, x, from, to, lat, lon) =>
      id == x && OverrideTransfer(admins, st, now, admin, x, from, to, lat, lon).Ok?
    case Approve(n, recipient) => ApproveTransfer(st, now, n, recipient).Ok? && id == st.pending[n].wasteId
    case _ => false
  }

  /** Whom a move records the waste as coming from: an acceptance names the sender of the offer. */
  function Sender(st: Store, op: WasteOp, id: nat): Address
    requires id in st.wastes
  {
    if op.Approve? && op.n in st.pending then st.pending[op.n].from else st.wastes[id].owner
  }

  /** How often a move names the waste. */
  function Times(op: WasteOp, id: nat): nat { if op.TransferMany? then multiset(op.ids)[id] else 1 }

  ghost predicate Handed(st: Store, after: Store, op: WasteOp, id: nat)
    requires id in st.wastes && id in after.wastes
  {
    && Times(op, id) > 0 && Sender(st, op, id) != after.wastes[id].owner
    && Extends(HistoryOf(st, id), HistoryOf(after, id), Times(op, id), Sender(st, op, id), after.wastes[id].owner)
  }

  ghost predicate Fresh(st: Store, after: Store, id: nat)
    requires id in after.wastes
  {
    && id == st.count + 1 && |HistoryOf(after, id)| <= 1
    && EndsAt(HistoryOf(after, id), after.wastes[id].owner)
  }

  ghost predicate Inherited(st: Store, after: Store, parent: nat, id: nat)
    requires id in after.wastes
  {
    && parent in st.wastes && st.count < id
    && after.wastes[id].owner == st.wastes[parent].owner && HistoryOf(after, id) == HistoryOf(st, parent)
  }

  ghost predicate Joined(st: Store, after: Store, ids: seq<nat>, owner: Address, id: nat)
    requires id in after.wastes
  {
    && id == st.count + 1 && after.wastes[id].owner == owner && HistoryOf(after, id) == JoinedHistory(st, ids)
    && forall i :: i in ids ==> i in st.wastes && st.wastes[i].owner == owner
  }

  /** What a call may do to a waste: hand it on, issue it, or leave owner and history alone. */
  ghost predicate Change(reg: Registry, admins: seq<Address>, st: Store, now: nat, op: WasteOp, after: Store, id: nat)
    requires id in after.wastes
  {
    if id in st.wastes then
      if Hands(reg, admins, st, now, op, id) then Handed(st, after, op, id) else Kept(st, after, id)
    else
      match op
      case Split(parent, _, _) => Inherited(st, after, parent, id)
      case Merge(ids, owner) => Joined(st, after, ids, owner, id)
      case _ => (op.Recycle? || op.Bulk?) && Fresh(st, after, id)
  }

  lemma {:induction false} ChildrenChange(st: Store, parent: Waste, weights: seq<nat>, h: seq<Transfer>, id: nat)
    requires IdsInv(st) && id in Children(st, parent, weights, h).wastes
    ensures var done := Children(st, parent, weights, h);
      if id in st.wastes then done.wastes[id] == st.wastes[id] && HistoryOf(done, id) == HistoryOf(st, id)
      else st.count < id && done.wastes[id].owner == parent.owner && HistoryOf(done, id) == h
  {
    if weights != [] {
      var last := |weights| - 1;
      ChildrenFrame(st, parent, weights[..last], h);
      var done := Children(st, parent, weights[..last], h);
      if id in done.wastes { ChildrenChange(st, parent, weights[..last], h, id); }
    }
  }

  lemma ExtendsSnoc(h: seq<Transfer>, h': seq<Transfer>, n: nat, t: Transfer)
    requires Extends(h, h', n, t.from, t.to)
    ensures Extends(h, h' + [t], n + 1, t.from, t.to)
  {
    assert (h' + [t])[..|h|] == h'[..|h|];
  }

  /** A batch appends one record for each time it names the waste. */
  lemma {:induction false} BatchHistory(st: Store, now: nat, ids: seq<nat>, to: Address, lat: int, lon: int, id: nat)
    requires id in st.wastes && forall i :: i in ids ==> i in st.wastes
    ensures Extends(HistoryOf(st, id), HistoryOf(BatchMove(st, st.wastes, now, ids, to, lat, lon), id),
                    multiset(ids)[id], st.wastes[id].owner, to)
  {
    if ids == [] {
      assert HistoryOf(st, id)[..|HistoryOf(st, id)|] == HistoryOf(st, id);
    } else {
      var init: seq<nat>, last := ids[..|ids| - 1], ids[|ids| - 1];
      assert ids == init + [last];
      BatchHistory(st, now, init, to, lat, lon, id);
      if last == id {
        ExtendsSnoc(HistoryOf(st, id), HistoryOf(BatchMove(st, st.wastes, now, init, to, lat, lon), id),
                    multiset(init)[id], BatchRecord(st.wastes, now, id, to, lat, lon));
      }
    }
  }

  lemma BulkChange(reg: Registry, st: Store, now: nat, wt: WasteType, c: Address, m: Address, lat: int, lon: int,
                   note: string, id: nat)
    requires IdsInv(st) && TransferCollected(reg, st, now, wt, c, m, lat, lon, note).Ok?
    requires id in TransferCollected(reg, st, now, wt, c, m, lat, lon, note).value.0.wastes
    ensures var after := TransferCollected(reg, st, now, wt, c, m, lat, lon, note).value.0;
      if id in st.wastes then Kept(st, after, id) else Fresh(st, after, id)
  {}

  lemma SplitChange(st: Store, parent: nat, owner: Address, weights: seq<nat>, id: nat)
    requires IdsInv(st) && SplitWaste(st, parent, owner, weights).Ok?
    requires id in SplitWaste(st, parent, owner, weights).value.0.wastes
    ensures var after := SplitWaste(st, parent, owner, weights).value.0;
      if id in st.wastes then Kept(st, after, id) else Inherited(st, after, parent, id)
  {
    SplitShape(st, parent, owner, weights);
    ChildrenChange(st, st.wastes[parent], weights, HistoryOf(st, parent), id);
  }

  lemma MergeChange(st: Store, ids: seq<nat>, owner: Address, id: nat)
    requires IdsInv(st) && MergeWastes(st, ids, owner).Ok?
    requires id in MergeWastes(st, ids, owner).value.0.wastes
    ensures var after := MergeWastes(st, ids, owner).value.0;
      if id in st.wastes then Kept(st, after, id) else Joined(st, after, ids, owner, id)
  {
    MergeShape(st, ids, owner);
  }

  lemma MintChange(reg: Registry, admins: seq<Address>, st: Store, now: nat, op: WasteOp, id: nat)
    requires IdsInv(st) && Mints(op) && id in MintStep(reg, st, now, op).wastes
    ensures Change(reg, admins, st, now, op, MintStep(reg, st, now, op), id)
  {
    match op
    case Recycle(minWeight, ttl, wt, w, a, lat, lon) =>
    case Bulk(wt, c, m, lat, lon, note) =>
      if TransferCollected(reg, st, now, wt, c, m, lat, lon, note).Ok? {
        BulkChange(reg, st, now, wt, c, m, lat, lon, note, id);
      }
    case Split(parent, owner, weights) =>
      if SplitWaste(st, parent, owner, weights).Ok? { SplitChange(st, parent, owner, weights, id); }
    case Merge(ids, owner) =>
      if MergeWastes(st, ids, owner).Ok? { MergeChange(st, ids, owner, id); }
  }

  /** Any single hand-over, whomever its record names. */
  lemma HandOver(st: Store, id: nat, w: Waste, from: Address, to: Address, t: Transfer, other: nat)
    requires id in st.wastes && other in st.wastes && t.from == from && t.to == to
    ensures var after := Move(st, id, w, from, to, t);
      if other == id then
        after.wastes[id].owner == to && Extends(HistoryOf(st, id), HistoryOf(after, id), 1, from, to)
      else Kept(st, after, other)
  {
    ExtendsSnoc(HistoryOf(st, id), HistoryOf(st, id), 0, t);
  }

  lemma BatchChange(reg: Registry, admins: seq<Address>, st: Store, now: nat, ids: seq<nat>, to: Address, lat: int,
                    lon: int, id: nat)
    requires BatchTransfer(reg, st, now, ids, to, lat, lon).Ok?
    requires id in BatchTransfer(reg, st, now, ids, to, lat, lon).value.0.wastes
    ensures Change(reg, admins, st, now, TransferMany(ids, to, lat, lon),
                   BatchTransfer(reg, st, now, ids, to, lat, lon).value.0, id)
  {
    BatchCheckPassed(reg, st.wastes, now, ids, to);
    BatchMoveFrame(st, now, ids, to, lat, lon, id);
    BatchHistory(st, now, ids, to, lat, lon, id);
    if id in ids { assert BatchItemCheck(reg, st.wastes, now, id, to).Ok?; }
  }

  lemma TransferChange(reg: Registry, admins: seq<Address>, st: Store, now: nat, x: nat, from: Address, to: Address,
                       lat: int, lon: int, id: nat)
    requires TransferWaste(reg, st, now, x, from, to, lat, lon).Ok?
    requires id in TransferWaste(reg, st, now, x, from, to, lat, lon).value.1.wastes
    ensures Change(reg, admins, st, now, Transfer1(x, from, to, lat, lon),
                   TransferWaste(reg, st, now, x, from, to, lat, lon).value.1, id)
  {
    HandOver(st, x, st.wastes[x], from, to, Transfer(x, from, to, now, lat, lon, Transferred), id);
  }

  lemma OverrideChange(reg: Registry, admins: seq<Address>, st: Store, now: nat, admin: Address, x: nat,
                       from: Address, to: Address, lat: int, lon: int, id: nat)
    requires OverrideTransfer(admins, st, now, admin, x, from, to, lat, lon).Ok?
    requires id in OverrideTransfer(admins, st, now, admin, x, from, to, lat, lon).value.0.wastes
    ensures Change(reg, admins, st, now, Override(admin, x, from, to, lat, lon),
                   OverrideTransfer(admins, st, now, admin, x, from, to, lat, lon).value.0, id)
  {
    ExtendsSnoc(HistoryOf(st, x), HistoryOf(st, x), 0, Transfer(x, from, to, now, lat, lon, AdminOverride));
  }

  lemma AcceptChange(reg: Registry, admins: seq<Address>, st: Store, now: nat, n: nat, recipient: Address, id: nat)
    requires IdsInv(st) && ApproveTransfer(st, now, n, recipient).Ok?
    requires id in ApproveTransfer(st, now, n, recipient).value.wastes
    ensures Change(reg, admins, st, now, Approve(n, recipient), ApproveTransfer(st, now, n, recipient).value, id)
  {
    var p := st.pending[n];
    HandOver(st.(pending := st.pending[n := p.(status := Accepted)]), p.wasteId, st.wastes[p.wasteId], p.from, p.to,
             Transfer(p.wasteId, p.from, p.to, now, p.latitude, p.longitude, Approved), id);
  }

  lemma MoveChange(reg: Registry, admins: seq<Address>, st: Store, now: nat, op: WasteOp, id: nat)
    requires IdsInv(st) && Moves(op) && id in MoveStep(reg, admins, st, now, op).wastes
    ensures Change(reg, admins, st, now, op, MoveStep(reg, admins, st, now, op), id)
  {
    match op
    case Transfer1(x, from, to, lat, lon) =>
      if TransferWaste(reg, st, now, x, from, to, lat, lon).Ok? {
        TransferChange(reg, admins, st, now, x, from, to, lat, lon, id);
      }
    case TransferMany(ids, to, lat, lon) =>
      if BatchTransfer(reg, st, now, ids, to, lat, lon).Ok? {
        BatchChange(reg, admins, st, now, ids, to, lat, lon, id);
      }
    case Override(admin, x, from, to, lat, lon) =>
      if OverrideTransfer(admins, st, now, admin, x, from, to, lat, lon).Ok? {
        OverrideChange(reg, admins, st, now, admin, x, from, to, lat, lon, id);
      }
    case Approve(n, recipient) =>
      if ApproveTransfer(st, now, n, recipient).Ok? { AcceptChange(reg, admins, st, now, n, recipient, id); }
  }

  /** What any custody call with any arguments does to any waste. */
  lemma StepChange(reg: Registry, admins: seq<Address>, st: Store, now: nat, op: WasteOp, id: nat)
    requires IdsInv(st) && id in WasteStep(reg, admins, st, now, op).wastes
    ensures Change(reg, admins, st, now, op, WasteStep(reg, admins, st, now, op), id)
  {
    if Mints(op) { MintChange(reg, admins, st, now, op, id); }
    else if Moves(op) { MoveChange(reg, admins, st, now, op, id); }
    else { EditThins(reg, admins, st, now, op); }
  }

  // ---------- every history ends at the present owner ----------

  ghost predicate EndsAtOwner(st: Store) {
    forall id :: id in st.wastes ==> EndsAt(HistoryOf(st, id), st.wastes[id].owner)
  }

  lemma {:induction false} JoinedEnds(st: Store, ids: seq<nat>, owner: Address)
    requires EndsAtOwner(st) && forall i :: i in ids ==> i in st.wastes && st.wastes[i].owner == owner
    ensures EndsAt(JoinedHistory(st, ids), owner)
  {
    if ids != [] { JoinedEnds(st, ids[..|ids| - 1], owner); }
  }

  /** Whoever the waste was taken from, a hand-over records whom it went to. */
  lemma MoveEnds(st: Store, id: nat, w: Waste, from: Address, to: Address, t: Transfer)
    requires EndsAtOwner(st) && t.to == to
    ensures EndsAtOwner(Move(st, id, w, from, to, t))
  {}

  lemma {:induction false} BatchEnds(st: Store, now: nat, ids: seq<nat>, to: Address, lat: int, lon: int)
    requires EndsAtOwner(st) && forall id :: id in ids ==> id in st.wastes
    ensures EndsAtOwner(BatchMove(st, st.wastes, now, ids, to, lat, lon))
  {
    if ids != [] {
      var id, init := ids[|ids| - 1], ids[..|ids| - 1];
      BatchEnds(st, now, init, to, lat, lon);
      MoveEnds(BatchMove(st, st.wastes, now, init, to, lat, lon), id, st.wastes[id], st.wastes[id].owner, to,
               BatchRecord(st.wastes, now, id, to, lat, lon));
    }
  }

  lemma MoveKeepsEnds(reg: Registry, admins: seq<Address>, st: Store, now: nat, op: WasteOp)
    requires EndsAtOwner(st) && Moves(op)
    ensures EndsAtOwner(MoveStep(reg, admins, st, now, op))
  {
    match op
    case Transfer1(id, from, to, lat, lon) =>
      if TransferWaste(reg, st, now, id, from, to, lat, lon).Ok? {
        MoveEnds(st, id, st.wastes[id], from, to, Transfer(id, from, to, now, lat, lon, Transferred));
      }
    case TransferMany(ids, to, lat, lon) =>
      if BatchTransfer(reg, st, now, ids, to, lat, lon).Ok? {
        BatchCheckPassed(reg, st.wastes, now, ids, to);
        BatchEnds(st, now, ids, to, lat, lon);
      }
    case Override(admin, id, from, to, lat, lon) =>
      if OverrideTransfer(admins, st, now, admin, id, from, to, lat, lon).Ok? {
        OverrideEnds(admins, st, now, admin, id, from, to, lat, lon);
      }
    case Approve(n, recipient) =>
      if ApproveTransfer(st, now, n, recipient).Ok? { AcceptEnds(st, now, n, recipient); }
  }

  lemma OverrideEnds(admins: seq<Address>, st: Store, now: nat, admin: Address, id: nat, from: Address, to: Address,
                     lat: int, lon: int)
    requires EndsAtOwner(st) && OverrideTransfer(admins, st, now, admin, id, from, to, lat, lon).Ok?
    ensures EndsAtOwner(OverrideTransfer(admins, st, now, admin, id, from, to, lat, lon).value.0)
  {}

  lemma AcceptEnds(st: Store, now: nat, n: nat, recipient: Address)
    requires EndsAtOwner(st) && ApproveTransfer(st, now, n, recipient).Ok?
    ensures EndsAtOwner(ApproveTransfer(st, now, n, recipient).value)
  {
    var p := st.pending[n];
    MoveEnds(st.(pending := st.pending[n := p.(status := Accepted)]), p.wasteId, st.wastes[p.wasteId], p.from, p.to,
             Transfer(p.wasteId, p.from, p.to, now, p.latitude, p.longitude, Approved));
  }

  lemma MintKeepsEnds(reg: Registry, st: Store, now: nat, op: WasteOp)
    requires IdsInv(st) && EndsAtOwner(st) && Mints(op)
    ensures EndsAtOwner(MintStep(reg, st, now, op))
  {
    var after := MintStep(reg, st, now, op);
    forall id | id in after.wastes ensures EndsAt(HistoryOf(after, id), after.wastes[id].owner) {
      MintChange(reg, [], st, now, op, id);
      if op.Merge? && id !in st.wastes { JoinedEnds(st, op.ids, op.owner); }
    }
  }

  /** Every custody call, whatever its arguments, leaves each history empty or ending at the present owner. */
  lemma {:induction false} StepKeepsEnds(reg: Registry, admins: seq<Address>, st: Store, now: nat, op: WasteOp)
    requires IdsInv(st) && EndsAtOwner(st)
    ensures EndsAtOwner(WasteStep(reg, admins, st, now, op))
  {
    if Mints(op) { MintKeepsEnds(reg, st, now, op); }
    else if Moves(op) { MoveKeepsEnds(reg, admins, st, now, op); }
    else { EditThins(reg, admins, st, now, op); }
  }

  // ---------- which histories are chains ----------

  lemma LinkedConcat(h: seq<Transfer>, g: seq<Transfer>)
    ensures Linked(h + g) <==> Linked(h) && Linked(g) && (h == [] || g == [] || Last(h).to == g[0].from)
  {
    var both := h + g;
    if Linked(both) {
      forall i | 0 <= i < |h| - 1 ensures h[i].to == h[i + 1].from { assert both[i].to == both[i + 1].from; }
      forall i | 0 <= i < |g| - 1 ensures g[i].to == g[i + 1].from {
        assert both[|h| + i].to == both[|h| + i + 1].from;
      }
      if h != [] && g != [] { assert both[|h| - 1].to == both[|h| - 1 + 1].from; }
    }
  }

  /** Records appended to a history leave it a chain if and only if there is one and it starts at the owner. */
  lemma ExtendedIsLinkedIff(h: seq<Transfer>, h': seq<Transfer>, n: nat, owner: Address, from: Address, to: Address)
    requires Extends(h, h', n, from, to) && n > 0 && from != to && EndsAt(h, owner)
    ensures Linked(h') <==> Linked(h) && (h == [] || from == owner) && n == 1
  {
    var more := h'[|h|..];
    assert h' == h + more;
    LinkedConcat(h, more);
    if n > 1 { assert more[0].to != more[1].from; }
  }

  /** Every source that has a history, except the first of them, was first handed on by the present owner. */
  ghost predicate Seamless(st: Store, ids: seq<nat>, owner: Address) {
    forall j, k :: 0 <= j < k < |ids| && HistoryOf(st, ids[j]) != [] && HistoryOf(st, ids[k]) != [] ==>
      HistoryOf(st, ids[k])[0].from == owner
  }

  lemma SeamlessSnoc(st: Store, ids: seq<nat>, id: nat, owner: Address)
    ensures Seamless(st, ids + [id], owner)
            <==> && Seamless(st, ids, owner)
                 && (HistoryOf(st, id) == [] || (forall i :: i in ids ==> HistoryOf(st, i) == [])
                     || HistoryOf(st, id)[0].from == owner)
  {
    var all := ids + [id];
    assert all[|ids|] == id && forall j :: 0 <= j < |ids| ==> all[j] == ids[j];
    if Seamless(st, all, owner) {
      forall j, k | 0 <= j < k < |ids| && HistoryOf(st, ids[j]) != [] && HistoryOf(st, ids[k]) != []
        ensures HistoryOf(st, ids[k])[0].from == owner
      {
        assert HistoryOf(st, all[j]) != [] && HistoryOf(st, all[k]) != [];
      }
      if i :| i in ids && HistoryOf(st, i) != [] && HistoryOf(st, id) != [] {
        var j :| 0 <= j < |ids| && ids[j] == i;
        assert HistoryOf(st, all[j]) != [] && HistoryOf(st, all[|ids|]) != [];
      }
    }
  }

  /** The history of a merged waste is a chain if and only if those of its sources are and the seams fit. */
  lemma {:induction false} JoinedIsLinkedIff(st: Store, ids: seq<nat>, owner: Address)
    requires EndsAtOwner(st) && forall i :: i in ids ==> i in st.wastes && st.wastes[i].owner == owner
    ensures JoinedHistory(st, ids) == [] <==> forall i :: i in ids ==> HistoryOf(st, i) == []
    ensures Linked(JoinedHistory(st, ids))
            <==> (forall i :: i in ids ==> Linked(HistoryOf(st, i))) && Seamless(st, ids, owner)
  {
    if ids != [] {
      var init, id := ids[..|ids| - 1], ids[|ids| - 1];
      assert ids == init + [id];
      JoinedIsLinkedIff(st, init, owner);
      JoinedEnds(st, init, owner);
      SeamlessSnoc(st, init, id, owner);
      LinkedConcat(JoinedHistory(st, init), HistoryOf(st, id));
    }
  }

  /** The call breaks the waste's history, or passes a broken one on to it: a batch that names it twice, an acceptance
      from somebody who is no longer the owner though hand-overs are on record, a split of a waste with a broken
      history, a merge that joins one or has a seam that does not fit. */
  ghost predicate Breaks(broken: set<nat>, reg: Registry, st: Store, now: nat, op: WasteOp, id: nat) {
    match op
    case TransferMany(ids, to, lat, lon) =>
      multiset(ids)[id] > 1 && BatchTransfer(reg, st, now, ids, to, lat, lon).Ok?
    case Approve(n, recipient) =>
      && ApproveTransfer(st, now, n, recipient).Ok? && id == st.pending[n].wasteId
      && HistoryOf(st, id) != [] && st.wastes[id].owner != st.pending[n].from
    case Split(parent, _, _) => id !in st.wastes && parent in broken
    case Merge(ids, owner) => id !in st.wastes && ((exists i :: i in ids && i in broken) || !Seamless(st, ids, owner))
    case _ => false
  }

  ghost function BrokenAfter(broken: set<nat>, reg: Registry, admins: seq<Address>, st: Store, now: nat,
                             op: WasteOp): set<nat> {
    set id | id in WasteStep(reg, admins, st, now, op).wastes && (id in broken || Breaks(broken, reg, st, now, op, id))
  }

  /** Exactly the wastes whose history is not a chain. */
  ghost predicate BrokenAre(broken: set<nat>, st: Store) {
    forall id :: id in broken <==> id in st.wastes && !Linked(HistoryOf(st, id))
  }

  lemma HandedBreaksIff(broken: set<nat>, reg: Registry, admins: seq<Address>, st: Store, now: nat, op: WasteOp,
                        after: Store, id: nat)
    requires EndsAtOwner(st) && id in st.wastes && id in after.wastes
    requires Hands(reg, admins, st, now, op, id) && Handed(st, after, op, id)
    ensures Linked(HistoryOf(after, id))
            <==> Linked(HistoryOf(st, id)) && !Breaks(broken, reg, st, now, op, id)
  {
    ExtendedIsLinkedIff(HistoryOf(st, id), HistoryOf(after, id), Times(op, id), st.wastes[id].owner,
                        Sender(st, op, id), after.wastes[id].owner);
  }

  lemma IssuedIsBrokenIff(broken: set<nat>, reg: Registry, admins: seq<Address>, st: Store, now: nat, op: WasteOp,
                          id: nat)
    requires IdsInv(st) && EndsAtOwner(st) && BrokenAre(broken, st)
    requires id in WasteStep(reg, admins, st, now, op).wastes && id !in st.wastes
    ensures Linked(HistoryOf(WasteStep(reg, admins, st, now, op), id)) <==> !Breaks(broken, reg, st, now, op, id)
  {
    StepChange(reg, admins, st, now, op, id);
    if op.Merge? { JoinedIsLinkedIff(st, op.ids, op.owner); }
  }

  /** A call makes exactly these histories stop being, or start without being, chains. */
  lemma {:induction false} StepKeepsBroken(broken: set<nat>, reg: Registry, admins: seq<Address>, st: Store,
                                           now: nat, op: WasteOp)
    requires IdsInv(st) && EndsAtOwner(st) && BrokenAre(broken, st)
    ensures BrokenAre(BrokenAfter(broken, reg, admins, st, now, op), WasteStep(reg, admins, st, now, op))
  {
    var after := WasteStep(reg, admins, st, now, op);
    forall id | id in after.wastes
      ensures Linked(HistoryOf(after, id)) <==> id !in broken && !Breaks(broken, reg, st, now, op, id)
    {
      if id !in st.wastes {
        IssuedIsBrokenIff(broken, reg, admins, st, now, op, id);
      } else {
        StepChange(reg, admins, st, now, op, id);
        if Hands(reg, admins, st, now, op, id) { HandedBreaksIff(broken, reg, admins, st, now, op, after, id); }
      }
    }
  }

  // ---------- histories without a merge ----------

  /** The ids with a merge in their ancestry after a call. */
  ghost function MixedAfter(mixed: set<nat>, reg: Registry, admins: seq<Address>, st: Store, now: nat,
                            op: WasteOp): set<nat> {
    var after := WasteStep(reg, admins, st, now, op);
    if op.Merge? || (op.Split? && op.id in mixed) then mixed + (after.wastes.Keys - st.wastes.Keys) else mixed
  }

  ghost predicate ChainInv(mixed: set<nat>, st: Store) {
    forall id :: id in st.wastes && id !in mixed ==> Linked(HistoryOf(st, id))
  }

  /** What an accepted call must find to leave the histories of unmerged wastes chains: a batch names none of them
      twice, and an acceptance takes it from its owner unless it has not changed hands yet. */
  ghost predicate KeepsChains(mixed: set<nat>, reg: Registry, st: Store, now: nat, op: WasteOp) {
    match op
    case TransferMany(ids, to, lat, lon) =>
      BatchTransfer(reg, st, now, ids, to, lat, lon).Ok? ==> forall id :: multiset(ids)[id] > 1 ==> id in mixed
    case Approve(n, recipient) =>
      ApproveTransfer(st, now, n, recipient).Ok? ==>
        var p := st.pending[n];
        p.wasteId in mixed || HistoryOf(st, p.wasteId) == [] || st.wastes[p.wasteId].owner == p.from
    case _ => true
  }

  /** An accepted batch keeps the history of a waste a chain if and only if it does not name it twice. */
  lemma BatchKeepsChainIff(reg: Registry, st: Store, now: nat, ids: seq<nat>, to: Address, lat: int, lon: int, id: nat)
    requires EndsAtOwner(st) && id in st.wastes && Linked(HistoryOf(st, id))
    requires BatchTransfer(reg, st, now, ids, to, lat, lon).Ok?
    ensures Linked(HistoryOf(BatchTransfer(reg, st, now, ids, to, lat, lon).value.0, id)) <==> multiset(ids)[id] <= 1
  {
    BatchCheckPassed(reg, st.wastes, now, ids, to);
    BatchMoveFrame(st, now, ids, to, lat, lon, id);
    BatchChange(reg, [], st, now, ids, to, lat, lon, id);
    if id in ids {
      HandedBreaksIff({}, reg, [], st, now, TransferMany(ids, to, lat, lon),
                      BatchTransfer(reg, st, now, ids, to, lat, lon).value.0, id);
    }
  }

  /** An acceptance keeps the history of its waste a chain if and only if that is empty or its sender still owns the
      waste. */
  lemma ApproveKeepsChainIff(reg: Registry, st: Store, now: nat, n: nat, recipient: Address)
    requires IdsInv(st) && EndsAtOwner(st) && ApproveTransfer(st, now, n, recipient).Ok?
    requires Linked(HistoryOf(st, st.pending[n].wasteId))
    ensures var p := st.pending[n];
      Linked(HistoryOf(ApproveTransfer(st, now, n, recipient).value, p.wasteId))
      <==> HistoryOf(st, p.wasteId) == [] || st.wastes[p.wasteId].owner == p.from
  {
    var id := st.pending[n].wasteId;
    AcceptChange(reg, [], st, now, n, recipient, id);
    HandedBreaksIff({}, reg, [], st, now, Approve(n, recipient), ApproveTransfer(st, now, n, recipient).value, id);
  }

  lemma BrokenMeansMixed(mixed: set<nat>, broken: set<nat>, reg: Registry, admins: seq<Address>, st: Store, now: nat,
                         op: WasteOp, id: nat)
    requires KeepsChains(mixed, reg, st, now, op) && broken <= mixed
    requires id in BrokenAfter(broken, reg, admins, st, now, op)
    ensures id in MixedAfter(mixed, reg, admins, st, now, op)
  {}

  lemma RepeatedIsThere(reg: Registry, st: Store, now: nat, ids: seq<nat>, to: Address, lat: int, lon: int, id: nat)
    requires BatchTransfer(reg, st, now, ids, to, lat, lon).Ok? && multiset(ids)[id] > 1
    ensures id in BatchTransfer(reg, st, now, ids, to, lat, lon).value.0.wastes
  {
    BatchCheckPassed(reg, st.wastes, now, ids, to);
    assert id in ids;
    BatchMoveFrame(st, now, ids, to, lat, lon, id);
  }

  /** An unmerged waste whose history a call breaks that does not meet its condition. */
  lemma UnmixedBreaks(mixed: set<nat>, broken: set<nat>, reg: Registry, admins: seq<Address>, st: Store, now: nat,
                      op: WasteOp) returns (id: nat)
    requires !KeepsChains(mixed, reg, st, now, op)
    ensures id in BrokenAfter(broken, reg, admins, st, now, op) && id !in mixed && !op.Merge? && !op.Split?
  {
    match op
    case TransferMany(ids, to, lat, lon) =>
      id :| multiset(ids)[id] > 1 && id !in mixed;
      RepeatedIsThere(reg, st, now, ids, to, lat, lon, id);
    case Approve(n, recipient) =>
      id := st.pending[n].wasteId;
  }

  /** A custody call leaves the histories of all unmerged wastes chains if and only if it was refused or meets its
      condition. */
  lemma StepKeepsChainsIff(mixed: set<nat>, reg: Registry, admins: seq<Address>, st: Store, now: nat, op: WasteOp)
    requires IdsInv(st) && EndsAtOwner(st) && ChainInv(mixed, st)
    ensures ChainInv(MixedAfter(mixed, reg, admins, st, now, op), WasteStep(reg, admins, st, now, op))
            <==> KeepsChains(mixed, reg, st, now, op)
  {
    var broken := set id | id in st.wastes && !Linked(HistoryOf(st, id));
    StepKeepsBroken(broken, reg, admins, st, now, op);
    if KeepsChains(mixed, reg, st, now, op) {
      forall id | id in BrokenAfter(broken, reg, admins, st, now, op)
        ensures id in MixedAfter(mixed, reg, admins, st, now, op)
      {
        BrokenMeansMixed(mixed, broken, reg, admins, st, now, op, id);
      }
    } else {
      var id := UnmixedBreaks(mixed, broken, reg, admins, st, now, op);
    }
  }

  // ---------- with fixed roles, route-checked histories are short ----------

  /** An accepted override or acceptance follows a valid route too; the other calls check it themselves. */
  predicate RouteChecked(reg: Registry, admins: seq<Address>, st: Store, now: nat, op: WasteOp) {
    match op
    case Override(admin, id, from, to, lat, lon) =>
      OverrideTransfer(admins, st, now, admin, id, from, to, lat, lon).Ok? ==> ValidRoute(reg, from, to)
    case Approve(n, recipient) =>
      ApproveTransfer(st, now, n, recipient).Ok? ==> ValidRoute(reg, st.pending[n].from, st.pending[n].to)
    case _ => true
  }

  ghost predicate ClimbInv(reg: Registry, st: Store) {
    forall id :: id in st.wastes ==> Climbs(reg, HistoryOf(st, id))
  }

  lemma {:induction false} JoinedClimbs(reg: Registry, st: Store, ids: seq<nat>)
    requires ClimbInv(reg, st) && forall i :: i in ids ==> i in st.wastes
    ensures Climbs(reg, JoinedHistory(st, ids))
  {
    if ids != [] { JoinedClimbs(reg, st, ids[..|ids| - 1]); }
  }

  /** The route of a hand-over that its call, or the run's condition, has checked. */
  lemma CheckedRoute(reg: Registry, admins: seq<Address>, st: Store, now: nat, op: WasteOp, id: nat)
    requires id in st.wastes && Hands(reg, admins, st, now, op, id) && RouteChecked(reg, admins, st, now, op)
    requires id in MoveStep(reg, admins, st, now, op).wastes
    ensures ValidRoute(reg, Sender(st, op, id), MoveStep(reg, admins, st, now, op).wastes[id].owner)
  {
    if op.TransferMany? {
      BatchCheckPassed(reg, st.wastes, now, op.ids, op.to);
      BatchMoveFrame(st, now, op.ids, op.to, op.lat, op.lon, id);
      assert BatchItemCheck(reg, st.wastes, now, id, op.to).Ok?;
    }
  }

  lemma ExtendedClimbs(reg: Registry, h: seq<Transfer>, h': seq<Transfer>, n: nat, from: Address, to: Address)
    requires Extends(h, h', n, from, to) && Climbs(reg, h) && ValidRoute(reg, from, to)
    ensures Climbs(reg, h')
  {
    forall i | 0 <= i < |h'| ensures Climb(reg, h'[i]) {
      if i < |h| { assert h'[i] == h'[..|h|][i] && Climb(reg, h[i]); }
    }
  }

  lemma BulkClimbs(reg: Registry, st: Store, now: nat, wt: WasteType, c: Address, m: Address, lat: int, lon: int,
                   note: string)
    requires IdsInv(st) && TransferCollected(reg, st, now, wt, c, m, lat, lon, note).Ok?
    ensures Climbs(reg, HistoryOf(TransferCollected(reg, st, now, wt, c, m, lat, lon, note).value.0, st.count + 1))
  {}

  lemma MintClimbs(reg: Registry, st: Store, now: nat, op: WasteOp, id: nat)
    requires IdsInv(st) && ClimbInv(reg, st) && Mints(op) && id in MintStep(reg, st, now, op).wastes
    ensures Climbs(reg, HistoryOf(MintStep(reg, st, now, op), id))
  {
    MintChange(reg, [], st, now, op, id);
    if op.Merge? && id !in st.wastes { JoinedClimbs(reg, st, op.ids); }
    if op.Bulk? && id !in st.wastes {
      BulkClimbs(reg, st, now, op.wasteType, op.collector, op.manufacturer, op.lat, op.lon, op.note);
    }
  }

  lemma StepKeepsClimbs(reg: Registry, admins: seq<Address>, st: Store, now: nat, op: WasteOp)
    requires IdsInv(st) && ClimbInv(reg, st) && RouteChecked(reg, admins, st, now, op)
    ensures ClimbInv(reg, WasteStep(reg, admins, st, now, op))
  {
    var after := WasteStep(reg, admins, st, now, op);
    forall id | id in after.wastes ensures Climbs(reg, HistoryOf(after, id)) {
      StepChange(reg, admins, st, now, op, id);
      if Mints(op) {
        MintClimbs(reg, st, now, op, id);
      } else if Hands(reg, admins, st, now, op, id) {
        CheckedRoute(reg, admins, st, now, op, id);
        ExtendedClimbs(reg, HistoryOf(st, id), HistoryOf(after, id), Times(op, id), Sender(st, op, id),
                       after.wastes[id].owner);
      }
    }
  }

  /** Everyone who held the waste, in order. */
  function Holders(h: seq<Transfer>): seq<Address> {
    if h == [] then [] else [h[0].from] + seq(|h|, i requires 0 <= i < |h| => h[i].to)
  }

  lemma {:induction false} StageAtLeast(reg: Registry, h: seq<Transfer>, i: nat)
    requires Linked(h) && Climbs(reg, h) && i < |h|
    ensures Climb(reg, h[i]) && reg.participants[h[i].to].role.Stage() > i
  {
    if i > 0 { StageAtLeast(reg, h, i - 1); }
  }

  /** Roles only climb, so a linked history has at most two records and never returns to an earlier holder. */
  lemma ClimbingChainIsShort(reg: Registry, h: seq<Transfer>)
    requires Linked(h) && Climbs(reg, h)
    ensures |h| <= 2 && Distinct(Holders(h))
  {
    if |h| > 2 { StageAtLeast(reg, h, 2); }
    forall i | 0 <= i < |h| ensures Climb(reg, h[i]) {}
  }
}
