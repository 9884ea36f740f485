/** The contract itself: one object over its storage entries, one method per entry point. A method that answers with
    an error has left every entry as it was. */
module Contract {
  import opened Prelude
  import opened Model
  import opened Custody
  import opened CustodyIndex
  import W = Weight
  import P = Participants
  import R = Rewards
  import I = Incentives
  import C = Carbon
  import G = Governance
  import Q = Quality
  import Ordering
  import Sorting
  import L = Leaderboard
  import Loops

  /** A call that answers nothing: what it leaves behind is what its specification says. */
  ghost predicate Settled<T>(r: Answer<()>, spec: Answer<T>, after: T, before: T) {
    match spec
    case Ok(x) => r == Ok(()) && after == x
    case Err(e) => r == Err(e) && after == before
  }

  /** A call that answers with the second part of its specification. */
  ghost predicate Answered<T, R>(r: Answer<R>, spec: Answer<(T, R)>, after: T, before: T) {
    match spec
    case Ok(x) => r == Ok(x.1) && after == x.0
    case Err(e) => r == Err(e) && after == before
  }

  /** A step inside a call: after an error the caller rolls everything back. */
  ghost predicate Attempted<T>(r: Answer<()>, spec: Answer<T>, after: T) {
    match spec
    case Ok(x) => r == Ok(()) && after == x
    case Err(e) => r == Err(e)
  }

  class ScavengerContract {
    var participants: map<Address, Participant>    // (address,)
    var index: seq<Address>                        // PART_IDX
    var count: nat                                 // WASTE_CNT
    var materials: map<nat, Material>              // "waste"
    var transfers: map<nat, seq<Transfer>>         // "transfers"
    var wastes: map<nat, Waste>                    // "waste_v2"
    var lists: map<Address, seq<nat>>              // "participant_wastes"
    var history: map<nat, seq<Transfer>>           // "transfer_history"
    var pendingCount: nat                          // PENDING_XFR_CNT
    var pending: map<nat, PendingTransfer>         // "pending_xfr"
    var stats: map<Address, Stats>                 // "stats"
    var totalCarbon: nat                           // TOTAL_CARBON
    var listingCount: nat                          // CARB_LIST_CNT
    var listings: map<nat, Listing>                // "carb_list"
    var listingIndex: seq<nat>                     // CARB_LIST_IDX
    var totalTokens: nat                           // TOTAL_TOKENS
    var config: RewardConfig                       // REWARD_CFG
    var incentiveCount: nat
    var incentives: map<nat, Incentive>
    var admins: seq<Address>                       // ADMINS
    var threshold: nat                             // MULTISIG_THRESHOLD
    var proposalCount: nat                         // PROPOSAL_COUNT
    var proposals: map<nat, Proposal>              // "proposal"
    var goals: map<Address, seq<Goal>>             // "goals"
    var reports: map<nat, seq<nat>>                // "contamination_reports"
    var contaminated: seq<nat>                     // CONTAMINATED_LIST

    ghost function Reg(): Registry
      reads `participants, `index
    {
      Registry(participants, index)
    }

    ghost function Sto(): Store
      reads `count, `materials, `transfers, `wastes, `lists, `history, `pendingCount, `pending
    {
      Store(count, materials, transfers, wastes, lists, history, pendingCount, pending)
    }

    ghost function Mkt(): Market
      reads `totalCarbon, `listingCount, `listings, `listingIndex
    {
      Market(totalCarbon, listingCount, listings, listingIndex)
    }

    ghost function Fds(): Funds
      reads `totalTokens, `config, `incentiveCount, `incentives
    {
      Funds(totalTokens, config, incentiveCount, incentives)
    }

    ghost function Gvn(): Gov
      reads `admins, `threshold, `proposalCount, `proposals
    {
      Gov(admins, threshold, proposalCount, proposals)
    }

    ghost function Contents(): State
      reads this
    {
      State(Reg(), Sto(), stats, Mkt(), Fds(), Gvn(), goals, reports, contaminated)
    }

    /** `initialize_admin`, over the defaults every other entry reads as. */
    constructor (admin: Address)
      ensures Contents() == State(Registry(map[], []), Store(0, map[], map[], map[], map[], map[], 0, map[]),
                                  map[], Market(0, 0, map[], []), Funds(0, RewardConfig(5, 50), 0, map[]),
                                  Gov([admin], 1, 0, map[]), map[], map[], [])
    {
      participants, index := map[], [];
      count, materials, transfers, wastes, lists, history := 0, map[], map[], map[], map[], map[];
      pendingCount, pending, stats := 0, map[], map[];
      totalCarbon, listingCount, listings, listingIndex := 0, 0, map[], [];
      totalTokens, config, incentiveCount, incentives := 0, RewardConfig(5, 50), 0, map[];
      admins, threshold, proposalCount, proposals := [admin], 1, 0, map[];
      goals, reports, contaminated := map[], map[], [];
    }

    predicate IsRegistered(a: Address)
      reads `participants
    {
      a in participants && participants[a].registered
    }

    /** The loop every entry point that takes something off a list runs. */
    static method Drop<T(==, !new)>(list: seq<T>, x: T) returns (r: seq<T>)
      ensures r == Without(list, {x})
    {
      r := [];
      for i := 0 to |list|
        invariant r == Without(list[..i], {x})
      {
        WithoutSnoc(list[..i], list[i], {x});
        assert list[..i + 1] == list[..i] + [list[i]];
        if list[i] != x { r := r + [list[i]]; }
      }
      assert list[..|list|] == list;
    }

    // ---------- participants ----------

    method RegisterParticipant(now: nat, a: Address, role: Role) returns (r: Answer<()>)
      modifies `participants, `index
      ensures Settled(r, P.Register(old(Reg()), now, a, role), Reg(), old(Reg()))
    {
      if IsRegistered(a) { return Err(AlreadyRegistered); }
      participants := participants[a := P.NewParticipant(role, now)];
      index := index + [a];
      return Ok(());
    }

    method UpdateRole(a: Address, role: Role) returns (r: Answer<()>)
      modifies `participants
      ensures Settled(r, P.UpdateRole(old(Reg()), a, role), Reg(), old(Reg()))
    {
      if a !in participants { return Err(ParticipantNotFound); }
      if !participants[a].registered { return Err(NotRegistered); }
      participants := participants[a := participants[a].(role := role)];
      return Ok(());
    }

    method DeregisterParticipant(a: Address) returns (r: Answer<()>)
      modifies `participants, `index
      ensures Settled(r, P.Deregister(old(Reg()), a), Reg(), old(Reg()))
    {
      if a !in participants { return Err(ParticipantNotFound); }
      participants := participants[a := participants[a].(registered := false)];
      index := Drop(index, a);
      return Ok(());
    }

    method PenalizeReputation(admin: Address, a: Address, delta: int) returns (r: Answer<()>)
      modifies `participants
      ensures Settled(r, P.Penalize(admins, old(Reg()), admin, a, delta), Reg(), old(Reg()))
    {
      if admin !in admins { return Err(Unauthorized); }
      if delta >= 0 { return Err(InvalidAmount); }
      if a !in participants { return Err(ParticipantNotFound); }
      var p := participants[a];
      if p.reputation + delta + I128_MAX + 1 < 0 { return Err(Overflow); }
      participants := participants[a := p.(reputation := Clamp(p.reputation + delta))];
      return Ok(());
    }

    method DecayReputation(now: nat, a: Address) returns (score: int)
      modifies `participants
      ensures (Reg(), score) == P.Decay(old(Reg()), a, now)
    {
      if a !in participants { return 0; }
      var p := participants[a];
      assert participants[a := p] == participants;
      var elapsed := if now > p.lastActive then now - p.lastActive else 0;
      if elapsed <= P.DECAY_WINDOW_SECS || p.reputation <= 0 { return p.reputation; }
      var days := (elapsed - P.DECAY_WINDOW_SECS) / P.DAY_SECS;
      if days == 0 { return p.reputation; }
      score := if p.reputation > days then p.reputation - days else 0;
      participants := participants[a := p.(reputation := score, lastActive := now)];
    }

    /** `apply_reputation`. */
    method ApplyReputation(a: Address, delta: int, now: nat)
      modifies `participants
      ensures Reg() == Reward(old(Reg()), a, delta, now)
    {
      if a in participants {
        var p := participants[a];
        participants := participants[a := p.(reputation := Clamp(p.reputation + delta), lastActive := now)];
      }
    }

    // ---------- custody: new wastes ----------

    /** Issue the next id, store the waste, put it on its owner's list. */
    method PutWaste(w: Waste) returns (id: nat)
      modifies `count, `wastes, `lists
      ensures Sto() == AddWaste(old(Sto()), w) && id == old(count) + 1
    {
      count := count + 1;
      id := count;
      wastes := wastes[id := w];
      lists := lists[w.owner := Lookup(lists, w.owner, []) + [id]];
    }

    method RecycleWaste(minWeight: nat, ttl: nat, now: nat, wasteType: WasteType, weight: nat, recycler: Address,
                        lat: int, lon: int) returns (r: Answer<nat>)
      modifies `count, `wastes, `lists, `stats
      ensures Answered(r, Custody.RecycleWaste(old(Reg()), old(Sto()), minWeight, ttl, now, wasteType, weight, recycler,
                                               lat, lon),
                       Sto(), old(Sto()))
      ensures stats == if r.Ok? then Touch(old(stats), recycler) else old(stats)
    {
      if !IsRegistered(recycler) { return Err(NotRegistered); }
      if weight == 0 || weight > MAX_WASTE_WEIGHT || weight < minWeight { return Err(InvalidWeight); }
      if count >= U64_MAX || now + ttl > U64_MAX { return Err(Overflow); }
      var id := PutWaste(NewWaste(wasteType, weight, recycler, lat, lon, if ttl > 0 then now + ttl else 0));
      stats := stats[recycler := Lookup(stats, recycler, NO_STATS)];
      return Ok(id);
    }

    method TransferCollectedWaste(now: nat, wasteType: WasteType, collector: Address, manufacturer: Address,
                                  lat: int, lon: int, note: string) returns (r: Answer<nat>)
      modifies `count, `wastes, `lists, `history
      ensures Answered(r, TransferCollected(old(Reg()), old(Sto()), now, wasteType, collector, manufacturer, lat, lon,
                                            note),
                       Sto(), old(Sto()))
    {
      if collector == manufacturer { return Err(SelfTransfer); }
      if !IsRegistered(collector) || !IsRegistered(manufacturer) { return Err(NotRegistered); }
      if participants[collector].role != Collector { return Err(InvalidTransferRoute); }
      if participants[manufacturer].role != Manufacturer { return Err(InvalidTransferRoute); }
      if count >= U64_MAX { return Err(Overflow); }
      var id := PutWaste(NewWaste(wasteType, 0, manufacturer, lat, lon, 0));
      var t := Transfer(id, collector, manufacturer, now, lat, lon, Memo(note));
      history := history[id := Lookup(history, id, []) + [t]];
      return Ok(id);
    }

    // ---------- custody: transfers ----------

    /** Hand a waste over: owner field, both id lists, history. */
    method HandOver(id: nat, w: Waste, from: Address, to: Address, t: Transfer)
      modifies `wastes, `lists, `history
      ensures Sto() == Move(old(Sto()), id, w, from, to, t)
    {
      wastes := wastes[id := w.(owner := to)];
      var kept := Drop(Lookup(lists, from, []), id);
      lists := lists[from := kept];
      lists := lists[to := Lookup(lists, to, []) + [id]];
      history := history[id := Lookup(history, id, []) + [t]];
    }

    method TransferWaste(now: nat, id: nat, from: Address, to: Address, lat: int, lon: int)
      returns (r: Answer<Transfer>)
      modifies `participants, `wastes, `lists, `history
      ensures match Custody.TransferWaste(old(Reg()), old(Sto()), now, id, from, to, lat, lon)
              case Ok(done) => r == Ok(done.2) && Reg() == done.0 && Sto() == done.1
              case Err(e) => r == Err(e) && Reg() == old(Reg()) && Sto() == old(Sto())
    {
      if from == to { return Err(SelfTransfer); }
      if id !in wastes { return Err(WasteNotFound); }
      var w := wastes[id];
      if w.owner != from { return Err(NotWasteOwner); }
      if !IsRegistered(from) || !IsRegistered(to) { return Err(NotRegistered); }
      if !w.active { return Err(WasteDeactivated); }
      if w.frozen { return Err(WasteFrozen); }
      if w.Expired(now) { return Err(WasteExpired); }
      if !ValidRoute(Registry(participants, index), from, to) { return Err(InvalidTransferRoute); }
      if w.ReservedAgainst(to, now) { return Err(WasteReservedByOther); }
      var t := Transfer(id, from, to, now, lat, lon, Transferred);
      HandOver(id, w, from, to, t);
      ApplyReputation(from, REP_TRANSFER, now);
      ApplyReputation(to, REP_TRANSFER, now);
      return Ok(t);
    }

    /** One round of the validation loop. */
    method CheckBatchItem(now: nat, id: nat, to: Address) returns (r: Answer<Waste>)
      ensures r == BatchItemCheck(Reg(), wastes, now, id, to)
    {
      if id !in wastes { return Err(WasteNotFound); }
      var w := wastes[id];
      if !w.active { return Err(WasteDeactivated); }
      if w.Expired(now) { return Err(WasteExpired); }
      if w.owner == to { return Err(SelfTransfer); }
      if !IsRegistered(w.owner) { return Err(NotRegistered); }
      if !ValidRoute(Registry(participants, index), w.owner, to) { return Err(InvalidTransferRoute); }
      return Ok(w);
    }

    /** Validate every item, remembering the wastes as they were read. */
    method ReadBatch(now: nat, ids: seq<nat>, to: Address) returns (r: Answer<()>, read: seq<Waste>)
      ensures r == BatchCheck(Reg(), wastes, now, ids, to)
      ensures r.Ok? ==> |read| == |ids| && forall k :: 0 <= k < |ids| ==> ids[k] in wastes && read[k] == wastes[ids[k]]
    {
      read := [];
      for i := 0 to |ids|
        invariant BatchCheck(Reg(), wastes, now, ids[..i], to).Ok?
        invariant |read| == i && forall k :: 0 <= k < i ==> ids[k] in wastes && read[k] == wastes[ids[k]]
      {
        assert ids[..i + 1][..i] == ids[..i];
        var item := CheckBatchItem(now, ids[i], to);
        if item.Err? {
          Loops.BatchStops(Reg(), wastes, now, ids, to, i + 1);
          return Err(item.error), read;
        }
        read := read + [item.value];
      }
      assert ids[..|ids|] == ids;
      r := Ok(());
    }

    lemma MoveNext(st: Store, read: map<nat, Waste>, now: nat, ids: seq<nat>, i: nat, to: Address, lat: int, lon: int)
      requires i < |ids| && forall k :: 0 <= k < |ids| ==> ids[k] in read
      ensures BatchMove(st, read, now, ids[..i + 1], to, lat, lon)
              == Move(BatchMove(st, read, now, ids[..i], to, lat, lon), ids[i], read[ids[i]], read[ids[i]].owner, to,
                      BatchRecord(read, now, ids[i], to, lat, lon))
    {
      assert ids[..i + 1][..i] == ids[..i];
    }

    /** The next move of a batch; `st` and `before` are the store and its wastes before the first. */
    method MoveOne(ghost st: Store, ghost before: map<nat, Waste>, now: nat, ids: seq<nat>, i: nat, w: Waste,
                   to: Address, lat: int, lon: int)
      returns (t: Transfer)
      requires i < |ids| && (forall k :: 0 <= k < |ids| ==> ids[k] in before) && w == before[ids[i]]
      requires Sto() == BatchMove(st, before, now, ids[..i], to, lat, lon)
      modifies `wastes, `lists, `history
      ensures Sto() == BatchMove(st, before, now, ids[..i + 1], to, lat, lon)
      ensures t == BatchRecord(before, now, ids[i], to, lat, lon)
    {
      MoveNext(st, before, now, ids, i, to, lat, lon);
      t := Transfer(ids[i], w.owner, to, now, lat, lon, Transferred);
      HandOver(ids[i], w, w.owner, to, t);
    }

    /** The loop that executes a checked batch. */
    method MoveBatch(now: nat, ids: seq<nat>, read: seq<Waste>, to: Address, lat: int, lon: int)
      returns (records: seq<Transfer>)
      requires |read| == |ids| && forall k :: 0 <= k < |ids| ==> ids[k] in wastes && read[k] == wastes[ids[k]]
      modifies `wastes, `lists, `history
      ensures Sto() == BatchMove(old(Sto()), old(wastes), now, ids, to, lat, lon) && |records| == |ids|
      ensures forall k :: 0 <= k < |ids| ==> records[k] == BatchRecord(old(wastes), now, ids[k], to, lat, lon)
    {
      records := [];
      ghost var st, before := Sto(), wastes;
      assert ids[..|ids|] == ids;
      for i := 0 to |ids|
        invariant Sto() == BatchMove(st, before, now, ids[..i], to, lat, lon) && |records| == i
        invariant forall k :: 0 <= k < i ==> records[k] == BatchRecord(before, now, ids[k], to, lat, lon)
      {
        var t := MoveOne(st, before, now, ids, i, read[i], to, lat, lon);
        records := records + [t];
      }
    }

    lemma BatchAnswer(reg: Registry, st: Store, now: nat, ids: seq<nat>, to: Address, lat: int, lon: int,
                      records: seq<Transfer>)
      requires Registered(reg, to) && BatchCheck(reg, st.wastes, now, ids, to).Ok? && |records| == |ids|
      requires forall k :: 0 <= k < |ids| ==>
        ids[k] in st.wastes && records[k] == BatchRecord(st.wastes, now, ids[k], to, lat, lon)
      ensures BatchTransfer(reg, st, now, ids, to, lat, lon)
              == Ok((BatchMove(st, st.wastes, now, ids, to, lat, lon), records))
    {
      assert records == BatchTransfer(reg, st, now, ids, to, lat, lon).value.1;
    }

    method BatchTransferWaste(now: nat, ids: seq<nat>, to: Address, lat: int, lon: int)
      returns (r: Answer<seq<Transfer>>)
      modifies `wastes, `lists, `history
      ensures Answered(r, BatchTransfer(old(Reg()), old(Sto()), now, ids, to, lat, lon), Sto(), old(Sto()))
    {
      if !IsRegistered(to) { return Err(NotRegistered); }
      var checked, read := ReadBatch(now, ids, to);
      if checked.Err? { return Err(checked.error); }
      var records := MoveBatch(now, ids, read, to, lat, lon);
      BatchAnswer(Reg(), old(Sto()), now, ids, to, lat, lon, records);
      return Ok(records);
    }

    method AdminOverrideTransfer(now: nat, admin: Address, id: nat, from: Address, to: Address, lat: int, lon: int)
      returns (r: Answer<Transfer>)
      modifies `wastes, `history
      ensures Answered(r, OverrideTransfer(admins, old(Sto()), now, admin, id, from, to, lat, lon), Sto(), old(Sto()))
    {
      if admin !in admins { return Err(Unauthorized); }
      if from == to { return Err(SelfTransfer); }
      if id !in wastes { return Err(WasteNotFound); }
      if wastes[id].owner != from { return Err(NotWasteOwner); }
      if wastes[id].frozen { return Err(WasteFrozen); }
      var t := Transfer(id, from, to, now, lat, lon, AdminOverride);
      wastes := wastes[id := wastes[id].(owner := to)];
      history := history[id := Lookup(history, id, []) + [t]];
      return Ok(t);
    }

    method InitiateTransfer(now: nat, id: nat, from: Address, to: Address, lat: int, lon: int) returns (r: Answer<nat>)
      modifies `pendingCount, `pending
      ensures Answered(r, Custody.InitiateTransfer(Reg(), old(Sto()), now, id, from, to, lat, lon), Sto(), old(Sto()))
    {
      if !IsRegistered(from) || !IsRegistered(to) { return Err(NotRegistered); }
      if from == to { return Err(SelfTransfer); }
      if id !in wastes { return Err(WasteNotFound); }
      if wastes[id].owner != from { return Err(NotWasteOwner); }
      if !wastes[id].active { return Err(WasteDeactivated); }
      if pendingCount >= U64_MAX || now + TRANSFER_EXPIRY_SECS > U64_MAX { return Err(Overflow); }
      pendingCount := pendingCount + 1;
      pending := pending[pendingCount := PendingTransfer(id, from, to, now + TRANSFER_EXPIRY_SECS, Pending, lat, lon)];
      return Ok(pendingCount);
    }

    method ApproveTransfer(now: nat, n: nat, recipient: Address) returns (r: Answer<()>)
      modifies `wastes, `lists, `history, `pending
      ensures Settled(r, Custody.ApproveTransfer(old(Sto()), now, n, recipient), Sto(), old(Sto()))
    {
      if n !in pending { return Err(TransferNotFound); }
      var p := pending[n];
      if p.to != recipient { return Err(NotRecipient); }
      if p.status != Pending { return Err(TransferNotPending); }
      if now >= p.expiresAt { return Err(TransferExpired); }
      if p.wasteId !in wastes { return Err(WasteNotFound); }
      var w := wastes[p.wasteId];
      if !w.active { return Err(WasteDeactivated); }
      HandOver(p.wasteId, w, p.from, p.to, Transfer(p.wasteId, p.from, p.to, now, p.latitude, p.longitude, Approved));
      pending := pending[n := p.(status := Accepted)];
      return Ok(());
    }

    // ---------- custody: split and merge ----------

    method PutChild(child: Waste, h: seq<Transfer>) returns (id: nat)
      modifies `count, `wastes, `lists, `history
      ensures Sto() == SetHistory(AddWaste(old(Sto()), child), old(count) + 1, h) && id == count == old(count) + 1
    {
      id := PutWaste(child);
      history := history[id := h];
    }

    /** The loop that creates the children of a split. */
    method PutChildren(parent: Waste, weights: seq<nat>, h: seq<Transfer>) returns (ids: seq<nat>)
      modifies `count, `wastes, `lists, `history
      ensures Sto() == Children(old(Sto()), parent, weights, h)
      ensures |ids| == |weights| && forall k :: 0 <= k < |ids| ==> ids[k] == old(count) + 1 + k
    {
      ids := [];
      for i := 0 to |weights|
        invariant Sto() == Children(old(Sto()), parent, weights[..i], h) && count == old(count) + i
        invariant |ids| == i && forall k :: 0 <= k < i ==> ids[k] == old(count) + 1 + k
      {
        assert weights[..i + 1][..i] == weights[..i];
        var id := PutChild(
          NewWaste(parent.wasteType, weights[i], parent.owner, parent.latitude, parent.longitude, 0), h);
        ids := ids + [id];
      }
      assert weights[..|weights|] == weights;
    }

    /** The checked sum of the weights. */
    static method AddUp(weights: seq<nat>) returns (r: Answer<nat>)
      ensures r == if Sum(weights) <= U128_MAX then Ok(Sum(weights)) else Err(Overflow)
    {
      var total := 0;
      for i := 0 to |weights|
        invariant total == Sum(weights[..i]) <= U128_MAX
      {
        assert weights[..i + 1][..i] == weights[..i];
        if total + weights[i] > U128_MAX {
          Loops.SumPrefix(weights, i + 1);
          return Err(Overflow);
        }
        total := total + weights[i];
      }
      assert weights[..|weights|] == weights;
      return Ok(total);
    }

    /** Deactivate a split's parent and take it off its owner's list. */
    method ConsumeParent(id: nat, parent: Waste, owner: Address)
      requires id in wastes && wastes[id] == parent
      modifies `wastes, `lists
      ensures Sto() == Consume(old(Sto()), owner, {id})
    {
      wastes := wastes[id := parent.(active := false)];
      assert wastes == Retire(old(wastes), {id});
      var kept := Drop(Lookup(lists, owner, []), id);
      lists := lists[owner := kept];
    }

    /** The writes of an accepted split. */
    method PutSplit(id: nat, parent: Waste, owner: Address, weights: seq<nat>) returns (children: seq<nat>)
      requires IdsInv(Sto()) && id in wastes && wastes[id] == parent
      modifies `count, `wastes, `lists, `history
      ensures Sto() == Consume(Children(old(Sto()), parent, weights, HistoryOf(old(Sto()), id)), owner, {id})
      ensures children == seq(|weights|, i => old(count) + 1 + i)
    {
      ChildrenFrame(Sto(), parent, weights, Lookup(history, id, []));
      children := PutChildren(parent, weights, Lookup(history, id, []));
      ConsumeParent(id, parent, owner);
    }

    method SplitWaste(id: nat, owner: Address, weights: seq<nat>) returns (r: Answer<seq<nat>>)
      requires IdsInv(Sto())
      modifies `count, `wastes, `lists, `history
      ensures Answered(r, Custody.SplitWaste(old(Sto()), id, owner, weights), Sto(), old(Sto()))
    {
      if id !in wastes { return Err(WasteNotFound); }
      var parent := wastes[id];
      if parent.owner != owner { return Err(NotWasteOwner); }
      if !parent.active { return Err(WasteDeactivated); }
      if |weights| < 2 { return Err(TooFewSplits); }
      if |weights| > 10 { return Err(TooManySplits); }
      var total := AddUp(weights);
      if total.Err? { return Err(Overflow); }
      if total.value != parent.weight { return Err(WeightMismatch); }
      // the id counter or a child's impact score would abort part-way through the children
      if count + |weights| > U64_MAX { return Err(Overflow); }
      if exists i :: 0 <= i < |weights| && !parent.wasteType.Scores(weights[i]) { return Err(Overflow); }
      var children := PutSplit(id, parent, owner, weights);
      return Ok(children);
    }

    /** The validation loop of a merge; the combined weight. */
    method CombinedWeight(ids: seq<nat>, owner: Address) returns (r: Answer<nat>)
      ensures r == MergeWeight(wastes, owner, ids, |ids|)
    {
      var sum := 0;
      var first: Option<Waste> := None;
      for i := 0 to |ids|
        invariant MergeWeight(wastes, owner, ids, i) == Ok(sum)
        invariant i > 0 ==> ids[0] in wastes && first == Some(wastes[ids[0]])
        invariant i == 0 ==> first == None
      {
        MergeWeightPassed(wastes, owner, ids, i);
        var refusal := MergeRefusal(ids, owner, i, first, sum);
        if refusal.Some? {
          Loops.MergeStops(wastes, owner, ids, i + 1, |ids|);
          return Err(refusal.value);
        }
        if first == None { first := Some(wastes[ids[i]]); }
        sum := sum + wastes[ids[i]].weight;
      }
      r := Ok(sum);
    }

    /** Why the waste at `i` cannot join the merge, if it cannot. */
    method MergeRefusal(ids: seq<nat>, owner: Address, i: nat, first: Option<Waste>, sum: nat)
      returns (r: Option<Error>)
      requires i < |ids| && MergeWeight(wastes, owner, ids, i) == Ok(sum)
      requires i > 0 ==> ids[0] in wastes && first == Some(wastes[ids[0]])
      requires i == 0 ==> first == None
      ensures match r
              case Some(e) => MergeWeight(wastes, owner, ids, i + 1) == Err(e)
              case None => ids[i] in wastes && MergeWeight(wastes, owner, ids, i + 1) == Ok(sum + wastes[ids[i]].weight)
    {
      if ids[i] !in wastes { return Some(WasteNotFound); }
      var w := wastes[ids[i]];
      if w.owner != owner { return Some(NotWasteOwner); }
      if !w.active { return Some(WasteDeactivated); }
      if first.Some? {
        if w.wasteType != first.value.wasteType { return Some(WasteTypeMismatch); }
        if w.latitude != first.value.latitude || w.longitude != first.value.longitude { return Some(LocationMismatch); }
      }
      if sum + w.weight > U128_MAX { return Some(Overflow); }
      return None;
    }

    method JoinHistories(ids: seq<nat>) returns (joined: seq<Transfer>)
      ensures joined == JoinedHistory(Sto(), ids)
    {
      joined := [];
      for i := 0 to |ids|
        invariant joined == JoinedHistory(Sto(), ids[..i])
      {
        assert ids[..i + 1][..i] == ids[..i];
        joined := joined + Lookup(history, ids[i], []);
      }
      assert ids[..|ids|] == ids;
    }

    /** Take the sources of a merge off their owner's list. */
    static method DropAll(list: seq<nat>, ids: seq<nat>) returns (r: seq<nat>)
      ensures r == Without(list, Elements(ids))
    {
      r := [];
      for i := 0 to |list|
        invariant r == Without(list[..i], Elements(ids))
      {
        WithoutSnoc(list[..i], list[i], Elements(ids));
        assert list[..i + 1] == list[..i] + [list[i]];
        if list[i] !in ids { r := r + [list[i]]; }
      }
      assert list[..|list|] == list;
    }

    /** The loop that deactivates the sources. */
    method RetireAll(ids: seq<nat>)
      requires forall id :: id in ids ==> id in wastes
      modifies `wastes
      ensures wastes == Retire(old(wastes), Elements(ids))
    {
      for i := 0 to |ids|
        invariant wastes == Retire(old(wastes), Elements(ids[..i]))
      {
        assert ids[..i + 1] == ids[..i] + [ids[i]] && ids[i] in ids;
        wastes := wastes[ids[i] := wastes[ids[i]].(active := false)];
      }
      assert ids[..|ids|] == ids;
    }

    /** The merged waste can go on the list before or after its sources come off. */
    lemma MergedStore(st: Store, ids: seq<nat>, owner: Address, weight: nat)
      requires st.count + 1 !in st.wastes && ids != [] && forall i :: i in ids ==> i in st.wastes
      ensures var id: nat, first := st.count + 1, st.wastes[ids[0]];
        var merged := NewWaste(first.wasteType, weight, owner, first.latitude, first.longitude, 0);
        Consume(Merged(st, ids, owner, weight), owner, Elements(ids))
        == st.(count := id, wastes := Retire(st.wastes[id := merged], Elements(ids)),
               lists := st.lists[owner := Without(OwnedBy(st, owner), Elements(ids)) + [id]],
               history := st.history[id := JoinedHistory(st, ids)])
    {
      WithoutSnoc(OwnedBy(st, owner), st.count + 1, Elements(ids));
    }

    /** The writes of an accepted merge: the merged waste, its history, the owner's list, the sources. */
    method PutMerged(ids: seq<nat>, owner: Address, weight: nat) returns (id: nat)
      requires count + 1 !in wastes && ids != [] && forall i :: i in ids ==> i in wastes
      modifies `count, `wastes, `lists, `history
      ensures Sto() == Consume(Merged(old(Sto()), ids, owner, weight), owner, Elements(ids))
      ensures id == old(count) + 1
    {
      MergedStore(Sto(), ids, owner, weight);
      var first, mine := wastes[ids[0]], Lookup(lists, owner, []);
      var joined := JoinHistories(ids);
      count := count + 1;
      id := count;
      wastes := wastes[id := NewWaste(first.wasteType, weight, owner, first.latitude, first.longitude, 0)];
      history := history[id := joined];
      var kept := DropAll(mine, ids);
      lists := lists[owner := kept + [id]];
      RetireAll(ids);
    }

    method MergeWastes(ids: seq<nat>, owner: Address) returns (r: Answer<nat>)
      requires IdsInv(Sto())
      modifies `count, `wastes, `lists, `history
      ensures Answered(r, Custody.MergeWastes(old(Sto()), ids, owner), Sto(), old(Sto()))
    {
      if |ids| < 2 { return Err(TooFewWastes); }
      if |ids| > 20 { return Err(TooManyWastes); }
      var combined := CombinedWeight(ids, owner);
      if combined.Err? { return Err(combined.error); }
      MergeWeightPassed(wastes, owner, ids, |ids|);
      if count >= U64_MAX || !wastes[ids[0]].wasteType.Scores(combined.value) { return Err(Overflow); }
      MergeShape(Sto(), ids, owner);
      var id := PutMerged(ids, owner, combined.value);
      return Ok(id);
    }

    // ---------- custody: deactivation and reservation ----------

    method DeactivateWaste(id: nat, admin: Address) returns (r: Answer<()>)
      modifies `wastes
      ensures Settled(r, AdminDeactivate(admins, old(Sto()), id, admin), Sto(), old(Sto()))
    {
      if admin !in admins { return Err(Unauthorized); }
      if id !in wastes { return Err(WasteNotFound); }
      if !wastes[id].active { return Err(WasteDeactivated); }
      wastes := wastes[id := wastes[id].(active := false)];
      return Ok(());
    }

    /** Retiring one more id, and whether that hits an active waste. */
    lemma RetireNext(before: map<nat, Waste>, seen: set<nat>, id: nat)
      ensures var wastes := Retire(before, seen);
        if id in wastes && wastes[id].active then
          && Retire(before, seen + {id}) == wastes[id := wastes[id].(active := false)]
          && ActiveAmong(before, seen + {id}) == ActiveAmong(before, seen) + {id} && id !in ActiveAmong(before, seen)
        else
          Retire(before, seen + {id}) == wastes && ActiveAmong(before, seen + {id}) == ActiveAmong(before, seen)
    {}

    lemma RetireNone(before: map<nat, Waste>, ids: seq<nat>)
      ensures Retire(before, Elements(ids[..0])) == before && |ActiveAmong(before, Elements(ids[..0]))| == 0
    {
      assert ActiveAmong(before, Elements(ids[..0])) == {};
    }

    lemma RetireStep(before: map<nat, Waste>, ids: seq<nat>, i: nat)
      requires i < |ids|
      ensures var seen, id := Elements(ids[..i]), ids[i];
        var wastes, hit := Retire(before, seen), id in before && Retire(before, seen)[id].active;
        && Retire(before, Elements(ids[..i + 1]))
           == (if hit then wastes[id := wastes[id].(active := false)] else wastes)
        && |ActiveAmong(before, Elements(ids[..i + 1]))| == |ActiveAmong(before, seen)| + if hit then 1 else 0
    {
      assert Elements(ids[..i + 1]) == Elements(ids[..i]) + {ids[i]};
      RetireNext(before, Elements(ids[..i]), ids[i]);
    }

    /** The loop that deactivates whatever is still active among the ids. */
    method RetireActive(ids: seq<nat>) returns (done: nat)
      modifies `wastes
      ensures wastes == Retire(old(wastes), Elements(ids)) && done == |ActiveAmong(old(wastes), Elements(ids))|
    {
      done := 0;
      ghost var before := wastes;
      RetireNone(before, ids);
      for i := 0 to |ids|
        invariant wastes == Retire(before, Elements(ids[..i]))
        invariant done == |ActiveAmong(before, Elements(ids[..i]))|
      {
        RetireStep(before, ids, i);
        if ids[i] in wastes && wastes[ids[i]].active {
          wastes := wastes[ids[i] := wastes[ids[i]].(active := false)];
          done := done + 1;
        }
      }
      assert ids[..|ids|] == ids;
    }

    method BatchDeactivateWaste(ids: seq<nat>, admin: Address) returns (r: Answer<nat>)
      modifies `wastes
      ensures Answered(r, BatchDeactivate(admins, old(Sto()), ids, admin), Sto(), old(Sto()))
    {
      if admin !in admins { return Err(Unauthorized); }
      var done := RetireActive(ids);
      return Ok(done);
    }

    static ghost function ExpiredUpto(wastes: map<nat, Waste>, n: nat, now: nat): set<nat> {
      set id | 1 <= id <= n && id in wastes && wastes[id].active && wastes[id].Expired(now)
    }

    lemma ExpiredNext(before: map<nat, Waste>, id: nat, now: nat)
      requires id > 0
      ensures var seen := ExpiredUpto(before, id - 1, now);
        var wastes := Retire(before, seen);
        id !in seen
        && if id in wastes && wastes[id].active && wastes[id].Expired(now) then
          ExpiredUpto(before, id, now) == seen + {id}
          && Retire(before, seen + {id}) == wastes[id := wastes[id].(active := false)]
        else ExpiredUpto(before, id, now) == seen
    {}

    /** The loop that deactivates what has expired. */
    method RetireExpired(now: nat) returns (done: nat)
      modifies `wastes
      ensures wastes == Retire(old(wastes), ExpiredUpto(old(wastes), count, now))
      ensures done == |ExpiredUpto(old(wastes), count, now)|
    {
      done := 0;
      ghost var before := wastes;
      assert ExpiredUpto(before, 0, now) == {};
      for id := 1 to count + 1
        invariant wastes == Retire(before, ExpiredUpto(before, id - 1, now))
        invariant done == |ExpiredUpto(before, id - 1, now)|
      {
        ExpiredNext(before, id, now);
        if id in wastes && wastes[id].active && wastes[id].Expired(now) {
          wastes := wastes[id := wastes[id].(active := false)];
          done := done + 1;
        }
      }
    }

    method CleanupExpiredWastes(now: nat, admin: Address) returns (r: Answer<nat>)
      modifies `wastes
      ensures Answered(r, CleanupExpired(admins, old(Sto()), now, admin), Sto(), old(Sto()))
    {
      if admin !in admins { return Err(Unauthorized); }
      assert ExpiredUpto(wastes, count, now) == ExpiredIds(Sto(), now);
      var done := RetireExpired(now);
      return Ok(done);
    }

    method ReserveWaste(now: nat, id: nat, reserver: Address, duration: nat) returns (r: Answer<()>)
      modifies `wastes
      ensures Settled(r, Custody.ReserveWaste(Reg(), old(Sto()), now, id, reserver, duration), Sto(), old(Sto()))
    {
      if !IsRegistered(reserver) { return Err(NotRegistered); }
      if id !in wastes { return Err(WasteNotFound); }
      var w := wastes[id];
      if !w.active { return Err(WasteDeactivated); }
      if w.Reserved(now) { return Err(WasteAlreadyReserved); }
      if now + duration > U64_MAX { return Err(Overflow); }
      wastes := wastes[id := w.(reservedBy := Some(reserver), reservedUntil := Some(now + duration))];
      return Ok(());
    }

    method CancelReservation(id: nat, caller: Address) returns (r: Answer<()>)
      modifies `wastes
      ensures Settled(r, Custody.CancelReservation(old(Sto()), id, caller), Sto(), old(Sto()))
    {
      if id !in wastes { return Err(WasteNotFound); }
      var w := wastes[id];
      if w.reservedBy.None? { return Err(WasteNotReserved); }
      if caller != w.reservedBy.value && caller != w.owner { return Err(NotReserver); }
      wastes := wastes[id := w.(reservedBy := None, reservedUntil := None)];
      return Ok(());
    }

    lemma {:induction false} ScanGrows(wastes: map<nat, Waste>, m: nat, n: nat)
      requires m <= n
      ensures W.ScannedWeight(wastes, m) <= W.ScannedWeight(wastes, n)
    {
      if m < n { ScanGrows(wastes, m, n - 1); }
    }

    /** The scan over every id: the active weight, or an abort when it does not fit 64 bits. */
    method GetTotalActiveWasteWeight() returns (r: Answer<nat>)
      requires IdsInv(Sto())
      ensures r == if W.TotalWeight(None, wastes) <= U64_MAX then Ok(W.TotalWeight(None, wastes)) else Err(Overflow)
    {
      W.ScanIsTotal(Sto());
      var total := 0;
      for id := 1 to count + 1
        invariant total == W.ScannedWeight(wastes, id - 1) <= U64_MAX
      {
        if id in wastes && wastes[id].active {
          if wastes[id].weight > U64_MAX || total + wastes[id].weight > U64_MAX {
            ScanGrows(wastes, id, count);
            return Err(Overflow);
          }
          total := total + wastes[id].weight;
        }
      }
      return Ok(total);
    }

    // ---------- tokens ----------

    /** `update_participant_stats`. */
    method UpdateParticipantStats(a: Address, waste: nat, tokens: nat) returns (r: Answer<()>)
      modifies `participants, `totalTokens
      ensures Settled(r, R.Earn(old(Reg()), old(totalTokens), a, waste, tokens),
                      (Reg(), totalTokens), (old(Reg()), old(totalTokens)))
    {
      if a !in participants { return Ok(()); }
      var p := participants[a];
      if p.processed + waste > U128_MAX || p.tokens + tokens > U128_MAX || totalTokens + tokens > U128_MAX {
        return Err(Overflow);
      }
      var processed := p.processed + waste;
      participants := participants[a := p.(processed := processed, tokens := p.tokens + tokens,
                                           certification := CertificationFor(processed), tier := TierFor(processed))];
      totalTokens := totalTokens + tokens;
      return Ok(());
    }

    /** The collectors along a history; `distributed` is what they were paid before truncation. */
    method PayCollectors(h: seq<Transfer>, share: nat) returns (r: Answer<()>, distributed: nat)
      modifies `participants, `totalTokens
      ensures match R.PayCollectors(old(Reg()), old(totalTokens), h, share)
              case Ok(done) => r == Ok(()) && (Reg(), totalTokens, distributed) == done
              case Err(e) => r == Err(e)
    {
      distributed := 0;
      for i := 0 to |h|
        invariant R.PayCollectors(old(Reg()), old(totalTokens), h[..i], share) == Ok((Reg(), totalTokens, distributed))
      {
        assert h[..i + 1][..i] == h[..i];
        var a := h[i].to;
        if a in participants && participants[a].role == Collector {
          var adjusted := R.Adjusted(participants[a], share);
          r := if distributed + adjusted > U128_MAX then Err(Overflow) else Ok(());
          if r.Ok? {
            distributed := distributed + adjusted;
            r := UpdateParticipantStats(a, 0, R.Low64(adjusted));
          }
          if r.Err? {
            Loops.PayStops(old(Reg()), old(totalTokens), h, share, i + 1);
            return;
          }
        }
      }
      assert h[..|h|] == h;
      r := Ok(());
    }

    /** The submitter's share and remainder in one write. */
    method PaySubmitter(a: Address, amount: nat) returns (r: Answer<()>)
      modifies `participants, `totalTokens
      ensures Settled(r, R.PaySubmitter(old(Reg()), old(totalTokens), a, amount),
                      (Reg(), totalTokens), (old(Reg()), old(totalTokens)))
    {
      if amount == 0 || a !in participants { return Ok(()); }
      var p := participants[a];
      var adjusted := R.Adjusted(p, amount);
      if p.tokens + adjusted > U128_MAX || totalTokens + adjusted > U128_MAX { return Err(Overflow); }
      participants := participants[a := p.(tokens := p.tokens + adjusted)];
      totalTokens := totalTokens + adjusted;
      return Ok(());
    }

    /** `get_transfer_history`. */
    method GetTransferHistory(id: nat) returns (h: seq<Transfer>)
      ensures h == TransferHistory(Sto(), id)
    {
      h := if id in history then history[id] else Lookup(transfers, id, []);
    }

    /** `_reward_tokens`. */
    method RewardTokens(h: seq<Transfer>, submitter: Address, reward: nat) returns (r: Answer<()>)
      modifies `participants, `totalTokens
      ensures Attempted(r, R.RewardTokens(old(Reg()), old(totalTokens), config, h, submitter, reward),
                        (Reg(), totalTokens))
    {
      if reward == 0 { return Ok(()); }
      if !R.Divisible(reward, config, U128_MAX) { return Err(Overflow); }
      var ownerShare := R.Share(reward, config.owner);
      var paid, distributed := PayCollectors(h, R.Share(reward, config.collector));
      if paid.Err? { return paid; }
      if distributed + ownerShare > U128_MAX { return Err(Overflow); }
      var rest := if reward > distributed + ownerShare then reward - (distributed + ownerShare) else 0;
      ghost var between, total := Reg(), totalTokens;
      assert R.RewardTokens(old(Reg()), old(totalTokens), config, h, submitter, reward)
             == R.PaySubmitter(between, total, submitter, ownerShare + rest);
      r := PaySubmitter(submitter, ownerShare + rest);
    }

    // ---------- version 1 materials ----------

    method SubmitMaterial(minWeight: nat, wasteType: WasteType, weight: nat, submitter: Address)
      returns (r: Answer<nat>)
      modifies `participants, `totalTokens, `count, `materials, `stats
      ensures match R.SubmitMaterial(old(Contents()), minWeight, wasteType, weight, submitter)
              case Ok(done) =>
                r == Ok(done.1) && participants == done.0.reg.participants && totalTokens == done.0.funds.totalTokens
                && count == done.0.store.count && materials == done.0.store.materials && stats == done.0.stats
              case Err(e) => r == Err(e) && Contents() == old(Contents())
    {
      if !IsRegistered(submitter) { return Err(NotRegistered); }
      if weight == 0 || weight > MAX_WASTE_WEIGHT || weight < minWeight { return Err(InvalidWeight); }
      if count >= U64_MAX { return Err(Overflow); }
      var id: nat, had := count + 1, Lookup(stats, submitter, NO_STATS);
      var earned := UpdateParticipantStats(submitter, weight, 0);
      if earned.Err? { return Err(earned.error); }
      count, materials := id, materials[id := Material(wasteType, weight, submitter, false)];
      stats := stats[submitter := had];
      return Ok(id);
    }

    /** The deprecated version 1 `transfer_waste`. */
    method TransferMaterial(now: nat, id: nat, from: Address, to: Address) returns (r: Answer<()>)
      modifies `materials, `transfers
      ensures Settled(r, R.TransferMaterial(Reg(), old(Sto()), now, id, from, to), Sto(), old(Sto()))
    {
      if !IsRegistered(from) || !IsRegistered(to) { return Err(NotRegistered); }
      if id !in materials { return Err(MaterialNotFound); }
      var m := materials[id];
      if m.submitter != from { return Err(NotWasteOwner); }
      if from == to { return Err(SelfTransfer); }
      if !ValidRoute(Registry(participants, index), from, to) { return Err(InvalidTransferRoute); }
      materials := materials[id := m.(submitter := to)];
      transfers := transfers[id := Lookup(transfers, id, []) + [Transfer(id, from, to, now, 0, 0, VersionOne)]];
      return Ok(());
    }

    method CheckVerifier(verifier: Address) returns (r: Answer<()>)
      ensures r == R.CheckVerifier(Reg(), verifier)
    {
      if !IsRegistered(verifier) { return Err(NotRegistered); }
      if participants[verifier].role != Recycler { return Err(Unauthorized); }
      return Ok(());
    }

    /** The entries a verification writes are those of `s`. */
    ghost predicate VerifiedAs(s: State)
      reads this
    {
      && participants == s.reg.participants && totalTokens == s.funds.totalTokens
      && materials == s.store.materials && stats == s.stats && totalCarbon == s.market.totalCarbon
    }

    /** The entries a verification only reads are those of `s`. */
    ghost predicate ReadsAs(s: State)
      reads `index, `config, `history, `transfers
    {
      && index == s.reg.index && config == s.funds.config
      && history == s.store.history && transfers == s.store.transfers
    }

    /** Mark one material, mint its carbon, pay its tokens. */
    method VerifyStored(ghost s: State, id: nat, tokens: nat) returns (r: Answer<()>)
      requires VerifiedAs(s) && ReadsAs(s) && id in materials
      modifies `participants, `totalTokens, `materials, `stats, `totalCarbon
      ensures match R.VerifyOne(s, id, tokens)
              case Ok(done) => r == Ok(()) && VerifiedAs(done)
              case Err(e) => r == Err(e)
    {
      var m := materials[id].(verified := true);
      var had, credits := Lookup(stats, m.submitter, NO_STATS), R.Credits(m);
      var h := GetTransferHistory(id);
      if had.carbon + credits > U128_MAX || totalCarbon + credits > U128_MAX { return Err(Overflow); }
      materials, totalCarbon := materials[id := m], totalCarbon + credits;
      stats := stats[m.submitter := had.(carbon := had.carbon + credits)];
      r := RewardTokens(h, m.submitter, tokens);
    }

    method DiscountFor(id: nat, amount: nat) returns (reduced: nat)
      ensures reduced == R.Discounted(Sto(), id, amount)
    {
      reduced := amount;
      if id in wastes && wastes[id].contaminated {
        reduced := if wastes[id].contamination > 50 then 0 else amount * (100 - wastes[id].contamination) / 100;
      }
    }

    method TokensFor(id: nat, verifier: Address) returns (r: Answer<nat>)
      ensures r == R.VerificationTokens(Contents(), id, verifier)
    {
      var checked := CheckVerifier(verifier);
      if checked.Err? { return Err(checked.error); }
      if id !in materials { return Err(MaterialNotFound); }
      var points := R.Points(materials[id]);
      if points.Err? { return points; }
      var tokens := DiscountFor(id, points.value);
      return Ok(tokens);
    }

    /** A verification up to the first failure. */
    method TryVerify(now: nat, id: nat, verifier: Address) returns (r: Answer<()>)
      modifies `participants, `totalTokens, `materials, `stats, `totalCarbon
      ensures match R.VerifyMaterial(old(Contents()), now, id, verifier)
              case Ok(done) => r == Ok(()) && VerifiedAs(done)
              case Err(e) => r == Err(e)
    {
      var tokens := TokensFor(id, verifier);
      if tokens.Err? { return Err(tokens.error); }
      var submitter := materials[id].submitter;
      ghost var s := Contents();
      r := VerifyStored(s, id, tokens.value);
      if r.Err? { return; }
      Loops.VerifyOneWrites(s, id, tokens.value);
      assert Reg() == R.VerifyOne(s, id, tokens.value).value.reg;
      ApplyReputation(submitter, R.REP_VERIFY, now);
      ApplyReputation(verifier, R.REP_VERIFY, now);
    }

    method VerifyMaterial(now: nat, id: nat, verifier: Address) returns (r: Answer<()>)
      modifies `participants, `totalTokens, `materials, `stats, `totalCarbon
      ensures match R.VerifyMaterial(old(Contents()), now, id, verifier)
              case Ok(done) => r == Ok(()) && VerifiedAs(done)
              case Err(e) => r == Err(e) && VerifiedAs(old(Contents()))
    {
      var before := (participants, totalTokens, materials, stats, totalCarbon);
      r := TryVerify(now, id, verifier);
      if r.Err? {
        participants, totalTokens, materials, stats, totalCarbon := before.0, before.1, before.2, before.3, before.4;
      }
    }

    /** The loop of a batch verification; missing ids are skipped. */
    method VerifyEach(ids: seq<nat>) returns (r: Answer<()>)
      modifies `participants, `totalTokens, `materials, `stats, `totalCarbon
      ensures match R.VerifyAll(old(Contents()), ids)
              case Ok(done) => r == Ok(()) && VerifiedAs(done)
              case Err(e) => r == Err(e)
    {
      ghost var start := Contents();
      for i := 0 to |ids|
        invariant R.VerifyAll(start, ids[..i]).Ok?
        invariant VerifiedAs(R.VerifyAll(start, ids[..i]).value) && ReadsAs(R.VerifyAll(start, ids[..i]).value)
      {
        assert ids[..i + 1][..i] == ids[..i];
        if ids[i] in materials {
          var points := R.Points(materials[ids[i]]);
          r := if points.Ok? then Ok(()) else Err(points.error);
          ghost var s := R.VerifyAll(start, ids[..i]).value;
          if r.Ok? { r := VerifyStored(s, ids[i], points.value); }
          if r.Err? {
            Loops.VerifyStops(start, ids, i + 1);
            return;
          }
          Loops.VerifyOneWrites(s, ids[i], points.value);
        }
      }
      assert ids[..|ids|] == ids;
      r := Ok(());
    }

    method VerifyMaterialsBatch(ids: seq<nat>, verifier: Address) returns (r: Answer<()>)
      modifies `participants, `totalTokens, `materials, `stats, `totalCarbon
      ensures match R.VerifyMaterials(old(Contents()), ids, verifier)
              case Ok(done) => r == Ok(()) && VerifiedAs(done)
              case Err(e) => r == Err(e) && VerifiedAs(old(Contents()))
    {
      var before := (participants, totalTokens, materials, stats, totalCarbon);
      r := CheckVerifier(verifier);
      if r.Err? { return; }
      r := VerifyEach(ids);
      if r.Err? {
        participants, totalTokens, materials, stats, totalCarbon := before.0, before.1, before.2, before.3, before.4;
      }
    }

    /** `reward_tokens`: anyone who signs may grant, not administrators alone. */
    method GrantTokens(tokenSet: bool, a: Address, amount: int) returns (r: Answer<()>)
      modifies `participants, `totalTokens
      ensures Settled(r, R.RewardRecipient(old(Reg()), old(totalTokens), tokenSet, a, amount),
                      (Reg(), totalTokens), (old(Reg()), old(totalTokens)))
    {
      if amount <= 0 { return Err(InvalidAmount); }
      if !IsRegistered(a) { return Err(NotRegistered); }
      if !tokenSet { return Err(TokenAddressNotSet); }
      var p := participants[a];
      if p.tokens + amount > U128_MAX || totalTokens + amount > U128_MAX { return Err(Overflow); }
      participants := participants[a := p.(tokens := p.tokens + amount)];
      totalTokens := totalTokens + amount;
      return Ok(());
    }

    method DonateToCharity(charitySet: bool, a: Address, amount: int) returns (r: Answer<()>)
      modifies `participants
      ensures Settled(r, R.Donate(old(Reg()), charitySet, a, amount), Reg(), old(Reg()))
    {
      if amount <= 0 { return Err(InvalidAmount); }
      if !IsRegistered(a) { return Err(NotRegistered); }
      var p := participants[a];
      if amount > p.tokens { return Err(InsufficientBalance); }
      if !charitySet { return Err(CharityNotSet); }
      participants := participants[a := p.(tokens := p.tokens - amount)];
      return Ok(());
    }

    // ---------- incentives ----------

    method CreateIncentive(rewarder: Address, wasteType: WasteType, points: nat, total: nat) returns (r: Answer<nat>)
      modifies `incentiveCount, `incentives
      ensures Answered(r, I.CreateIncentive(Reg(), old(Fds()), rewarder, wasteType, points, total), Fds(), old(Fds()))
    {
      if !IsRegistered(rewarder) { return Err(NotRegistered); }
      if !participants[rewarder].role.CanManufacture() { return Err(NotManufacturer); }
      if incentiveCount >= U64_MAX { return Err(Overflow); }
      incentiveCount := incentiveCount + 1;
      incentives := incentives[incentiveCount := Incentive(rewarder, wasteType, points, total, total, true)];
      return Ok(incentiveCount);
    }

    method UpdateIncentiveStatus(id: nat, active: bool) returns (r: Answer<()>)
      modifies `incentives
      ensures Settled(r, I.SetStatus(Reg(), old(Fds()), id, active), Fds(), old(Fds()))
    {
      if id !in incentives { return Err(IncentiveNotFound); }
      if !IsRegistered(incentives[id].rewarder) { return Err(NotRegistered); }
      incentives := incentives[id := incentives[id].(active := active)];
      return Ok(());
    }

    method UpdateIncentive(id: nat, points: nat, total: nat) returns (r: Answer<()>)
      modifies `incentives
      ensures Settled(r, I.UpdateIncentive(Reg(), old(Fds()), id, points, total), Fds(), old(Fds()))
    {
      if id !in incentives { return Err(IncentiveNotFound); }
      var i := incentives[id];
      if !IsRegistered(i.rewarder) { return Err(NotRegistered); }
      if !i.active { return Err(IncentiveInactive); }
      if points == 0 || total == 0 { return Err(InvalidAmount); }
      if i.remaining > i.total { return Err(Overflow); }
      var used := i.total - i.remaining;
      i := i.(points := points, total := total);
      if total > used { i := i.(remaining := total - used); }
      else { i := i.(remaining := 0, active := false); }
      incentives := incentives[id := i];
      return Ok(());
    }

    method DeactivateIncentive(id: nat, rewarder: Address) returns (r: Answer<()>)
      modifies `incentives
      ensures Settled(r, I.DeactivateIncentive(Reg(), old(Fds()), id, rewarder), Fds(), old(Fds()))
    {
      if !IsRegistered(rewarder) { return Err(NotRegistered); }
      if id !in incentives { return Err(IncentiveNotFound); }
      if incentives[id].rewarder != rewarder { return Err(NotCreator); }
      incentives := incentives[id := incentives[id].(active := false)];
      return Ok(());
    }

    /** The entries a payment writes are those of `s`. */
    ghost predicate PaidAs(s: State)
      reads this
    {
      && participants == s.reg.participants && totalTokens == s.funds.totalTokens
      && incentives == s.funds.incentives
    }

    method ClaimIncentiveReward(id: nat, material: nat, claimer: Address) returns (r: Answer<nat>)
      modifies `participants, `totalTokens, `incentives
      ensures match I.ClaimReward(old(Contents()), id, material, claimer)
              case Ok(done) => r == Ok(done.1) && PaidAs(done.0)
              case Err(e) => r == Err(e) && PaidAs(old(Contents()))
    {
      if !IsRegistered(claimer) { return Err(NotRegistered); }
      if id !in incentives { return Err(IncentiveNotFound); }
      var i := incentives[id];
      if !i.active { return Err(IncentiveInactive); }
      if material !in materials { return Err(MaterialNotFound); }
      var m := materials[material];
      if !m.verified { return Err(MaterialNotVerified); }
      if m.wasteType != i.wasteType { return Err(WasteTypeMismatch); }
      var reward := m.weight / 1000 * i.points;
      if reward > U64_MAX { return Err(Overflow); }
      if reward == 0 { return Err(NoRewardAvailable); }
      if reward > i.remaining { return Err(InsufficientBudget); }
      var paid := UpdateParticipantStats(claimer, 0, reward);
      if paid.Err? { return Err(paid.error); }
      Charge(id, i, reward);
      return Ok(reward);
    }

    /** One payment of a distribution: the token transfer, and its entry in the statistics. */
    method Pay(ghost reg: Registry, ghost total: nat, pays: seq<I.Payment>, p: I.Payment)
      returns (r: Answer<()>, after: seq<I.Payment>)
      requires I.EarnAll(reg, total, pays) == Ok((Reg(), totalTokens))
      modifies `participants, `totalTokens
      ensures after == pays + [p] && I.Payout(after) == I.Payout(pays) + p.amount
      ensures if r.Ok? then I.EarnAll(reg, total, after) == Ok((Reg(), totalTokens))
              else I.EarnAll(reg, total, after).Err?
    {
      after := pays + [p];
      assert after[..|after| - 1] == pays;
      r := UpdateParticipantStats(p.to, 0, R.Low64(p.amount));
    }

    /** The collectors' loop. */
    method PayRecipients(h: seq<Transfer>, share: nat) returns (r: Answer<()>, pays: seq<I.Payment>, distributed: nat)
      modifies `participants, `totalTokens
      ensures pays <= I.CollectorPayments(old(Reg()), h, share)
      ensures r.Ok? ==> pays == I.CollectorPayments(old(Reg()), h, share) && distributed == I.Payout(pays)
      ensures if r.Ok? then I.EarnAll(old(Reg()), old(totalTokens), pays) == Ok((Reg(), totalTokens))
              else I.EarnAll(old(Reg()), old(totalTokens), pays).Err?
    {
      ghost var reg, total := Reg(), totalTokens;
      pays, distributed := [], 0;
      for i := 0 to |h|
        invariant pays == I.CollectorPayments(reg, h[..i], share) && distributed == I.Payout(pays)
        invariant I.EarnAll(reg, total, pays) == Ok((Reg(), totalTokens))
      {
        assert h[..i + 1][..i] == h[..i];
        Loops.EarnAllKeepsRecipients(reg, total, pays, h[i].to);
        Loops.CollectorPrefix(reg, h, share, i + 1);
        if h[i].to in participants && participants[h[i].to].role.CanCollect() {
          r, pays := Pay(reg, total, pays, I.Payment(h[i].to, share));
          if r.Err? { return; }
          distributed := distributed + share;
        }
      }
      assert h[..|h|] == h;
      r := Ok(());
    }

    /** Every payment of a distribution: collectors, owner share, remainder. */
    method PayEverybody(h: seq<Transfer>, submitter: Address, reward: nat)
      returns (r: Answer<()>, pays: seq<I.Payment>, distributed: nat)
      modifies `participants, `totalTokens
      ensures pays <= I.Payments(old(Reg()), h, submitter, reward, config)
      ensures r.Ok? ==> pays == I.Payments(old(Reg()), h, submitter, reward, config) && distributed == I.Payout(pays)
      ensures if r.Ok? then I.EarnAll(old(Reg()), old(totalTokens), pays) == Ok((Reg(), totalTokens))
              else I.EarnAll(old(Reg()), old(totalTokens), pays).Err?
    {
      ghost var reg, total := Reg(), totalTokens;
      var ownerShare := R.Share(reward, config.owner);
      r, pays, distributed := PayRecipients(h, R.Share(reward, config.collector));
      if r.Err? { return; }
      r, pays := Pay(reg, total, pays, I.Payment(submitter, ownerShare));
      if r.Err? { return; }
      distributed := distributed + ownerShare;
      if reward > distributed {
        r, pays := Pay(reg, total, pays, I.Payment(submitter, reward - distributed));
        distributed := reward;
      }
    }

    /** The checks of a distribution, and the reward to share out. */
    method CheckDistribution(material: nat, id: nat, manufacturer: Address, multiplier: nat, tokenSet: bool)
      returns (r: Answer<nat>)
      ensures r == I.CheckDistribution(Contents(), material, id, manufacturer, multiplier, tokenSet)
    {
      if material !in materials { return Err(MaterialNotFound); }
      var m := materials[material];
      if !m.verified { return Err(MaterialNotVerified); }
      if id !in incentives { return Err(IncentiveNotFound); }
      var i := incentives[id];
      if i.rewarder != manufacturer { return Err(NotCreator); }
      if i.wasteType != m.wasteType { return Err(WasteTypeMismatch); }
      if !i.active { return Err(IncentiveInactive); }
      var base := I.BaseReward(m.weight, i.points, multiplier);
      if base > I128_MAX { return Err(Overflow); }
      var reward := DiscountFor(material, base / 100);
      if R.Low64(reward) > i.remaining { return Err(InsufficientBudget); }
      if !tokenSet { return Err(TokenAddressNotSet); }
      if !R.Divisible(reward, config, I128_MAX) { return Err(Overflow); }
      return Ok(reward);
    }

    /** Take an amount from a programme's budget; an empty budget closes it. */
    method Charge(id: nat, i: Incentive, amount: nat)
      requires amount <= i.remaining
      modifies `incentives
      ensures incentives == old(incentives)[id := I.Debit(i, amount)]
    {
      var charged := i.(remaining := i.remaining - amount);
      if charged.remaining == 0 { charged := charged.(active := false); }
      incentives := incentives[id := charged];
    }

    /** The payments of a checked distribution, and its charge, up to the first failure. */
    method TrySettle(material: nat, id: nat, reward: nat, paysOut: bool) returns (r: Answer<seq<I.Payment>>)
      requires material in materials && id in incentives && R.Low64(reward) <= incentives[id].remaining
      modifies `participants, `totalTokens, `incentives
      ensures match I.Settle(old(Contents()), material, id, reward, paysOut)
              case Ok(done) => r == Ok(done.1) && PaidAs(done.0)
              case Err(e) => r == Err(e)
    {
      if !paysOut { return Err(PaymentFailed); }
      var i, submitter := incentives[id], materials[material].submitter;
      var h := GetTransferHistory(material);
      var paid, pays, distributed := PayEverybody(h, submitter, reward);
      if paid.Err? {
        Loops.PaymentsStop(old(Reg()), old(totalTokens), h, submitter, reward, config, pays);
        return Err(Overflow);
      }
      if distributed > I128_MAX || totalTokens + reward > U128_MAX { return Err(Overflow); }
      Charge(id, i, R.Low64(reward));
      totalTokens := totalTokens + reward;
      return Ok(pays);
    }

    method DistributeRewards(material: nat, id: nat, manufacturer: Address, multiplier: nat, tokenSet: bool,
                             paysOut: bool)
      returns (r: Answer<seq<I.Payment>>)
      modifies `participants, `totalTokens, `incentives
      ensures match I.DistributeRewards(old(Contents()), material, id, manufacturer, multiplier, tokenSet, paysOut)
              case Ok(done) => r == Ok(done.1) && PaidAs(done.0)
              case Err(e) => r == Err(e) && PaidAs(old(Contents()))
    {
      var before := (participants, totalTokens, incentives);
      var reward := CheckDistribution(material, id, manufacturer, multiplier, tokenSet);
      if reward.Err? { return Err(reward.error); }
      r := TrySettle(material, id, reward.value, paysOut);
      if r.Err? { participants, totalTokens, incentives := before.0, before.1, before.2; }
    }

    // ---------- the carbon market ----------

    method RedeemCarbonCredits(a: Address, amount: nat) returns (r: Answer<()>)
      modifies `stats
      ensures Settled(r, C.RedeemCredits(old(stats), a, amount), stats, old(stats))
    {
      if amount == 0 { return Err(InvalidAmount); }
      if a !in stats { return Err(NotRegistered); }
      if stats[a].carbon < amount { return Err(InsufficientCarbonCredits); }
      stats := stats[a := stats[a].(carbon := stats[a].carbon - amount)];
      return Ok(());
    }

    method CreateCarbonListing(seller: Address, amount: nat, price: int) returns (r: Answer<nat>)
      modifies `stats, `listingCount, `listings, `listingIndex
      ensures match C.CreateListing(old(stats), old(Mkt()), seller, amount, price)
              case Ok(done) => r == Ok(done.2) && stats == done.0 && Mkt() == done.1
              case Err(e) => r == Err(e) && stats == old(stats) && Mkt() == old(Mkt())
    {
      if amount == 0 || price <= 0 { return Err(InvalidListing); }
      if seller !in stats { return Err(NotRegistered); }
      if stats[seller].carbon < amount { return Err(InsufficientCarbonCredits); }
      if listingCount >= U64_MAX { return Err(Overflow); }
      stats := stats[seller := stats[seller].(carbon := stats[seller].carbon - amount)];
      listingCount := listingCount + 1;
      listings := listings[listingCount := Listing(seller, amount, price, true)];
      listingIndex := listingIndex + [listingCount];
      return Ok(listingCount);
    }

    /** Credit a listing's amount, close it and take it off the index. */
    method ReleaseListing(id: nat, a: Address) returns (r: Answer<()>)
      requires id in listings
      modifies `stats, `listings, `listingIndex
      ensures Settled(r, C.Release(old(stats), old(Mkt()), id, a), (stats, Mkt()), (old(stats), old(Mkt())))
    {
      var l, had := listings[id], Lookup(stats, a, NO_STATS);
      if had.carbon + l.amount > U128_MAX { return Err(Overflow); }
      stats := stats[a := had.(carbon := had.carbon + l.amount)];
      Unlist(id);
      return Ok(());
    }

    /** Close a listing and take it off the index (`remove_active_listing`). */
    method Unlist(id: nat)
      requires id in listings
      modifies `listings, `listingIndex
      ensures Mkt() == old(Mkt()).(listings := old(listings)[id := old(listings)[id].(active := false)],
                                   index := Without(old(listingIndex), {id}))
    {
      listings := listings[id := listings[id].(active := false)];
      listingIndex := Drop(listingIndex, id);
    }

    method CancelCarbonListing(id: nat, seller: Address) returns (r: Answer<()>)
      modifies `stats, `listings, `listingIndex
      ensures Settled(r, C.CancelListing(old(stats), old(Mkt()), id, seller), (stats, Mkt()), (old(stats), old(Mkt())))
    {
      if id !in listings { return Err(ListingNotFound); }
      if !listings[id].active { return Err(ListingInactive); }
      if listings[id].seller != seller { return Err(NotListingSeller); }
      r := ReleaseListing(id, seller);
    }

    method PurchaseCarbonListing(id: nat, buyer: Address, tokenSet: bool, paid: bool) returns (r: Answer<()>)
      modifies `stats, `listings, `listingIndex
      ensures Settled(r, C.PurchaseListing(old(stats), old(Mkt()), id, buyer, tokenSet, paid),
                      (stats, Mkt()), (old(stats), old(Mkt())))
    {
      if id !in listings { return Err(ListingNotFound); }
      var l := listings[id];
      if !l.active { return Err(ListingInactive); }
      if l.seller == buyer { return Err(InvalidListing); }
      if !tokenSet { return Err(TokenAddressNotSet); }
      if l.amount * l.price > I128_MAX { return Err(Overflow); }
      if !paid { return Err(PaymentFailed); }
      r := ReleaseListing(id, buyer);
    }

    method GetActiveCarbonListings() returns (active: seq<Listing>)
      ensures active == C.OnSale(listings, listingIndex)
    {
      active := [];
      for i := 0 to |listingIndex|
        invariant active == C.OnSale(listings, listingIndex[..i])
      {
        assert listingIndex[..i + 1][..i] == listingIndex[..i];
        var id := listingIndex[i];
        if id in listings && listings[id].active { active := active + [listings[id]]; }
      }
      assert listingIndex[..|listingIndex|] == listingIndex;
    }

    // ---------- administration ----------

    method SetPercentages(admin: Address, collector: nat, owner: nat) returns (r: Answer<()>)
      modifies `config
      ensures Settled(r, G.SetPercentages(admins, admin, collector, owner), config, old(config))
    {
      if admin !in admins { return Err(Unauthorized); }
      if collector + owner > 100 { return Err(InvalidPercentage); }
      config := RewardConfig(collector, owner);
      return Ok(());
    }

    method SetCollectorPercentage(admin: Address, collector: nat) returns (r: Answer<()>)
      modifies `config
      ensures Settled(r, G.SetPercentages(admins, admin, collector, old(config).owner), config, old(config))
    {
      if admin !in admins { return Err(Unauthorized); }
      if collector + config.owner > 100 { return Err(InvalidPercentage); }
      config := config.(collector := collector);
      return Ok(());
    }

    method SetOwnerPercentage(admin: Address, owner: nat) returns (r: Answer<()>)
      modifies `config
      ensures Settled(r, G.SetPercentages(admins, admin, old(config).collector, owner), config, old(config))
    {
      if admin !in admins { return Err(Unauthorized); }
      if config.collector + owner > 100 { return Err(InvalidPercentage); }
      config := config.(owner := owner);
      return Ok(());
    }

    method AddAdmin(current: Address, added: Address) returns (r: Answer<()>)
      modifies `admins
      ensures Settled(r, G.AddAdmin(old(Gvn()), current, added), Gvn(), old(Gvn()))
    {
      if current !in admins { return Err(Unauthorized); }
      if added !in admins { admins := admins + [added]; }
      return Ok(());
    }

    method RemoveAdmin(current: Address, removed: Address) returns (r: Answer<()>)
      modifies `admins
      ensures Settled(r, G.RemoveAdmin(old(Gvn()), current, removed), Gvn(), old(Gvn()))
    {
      if current !in admins { return Err(Unauthorized); }
      if |admins| <= 1 { return Err(LastAdmin); }
      var kept := Drop(admins, removed);
      if |kept| == |admins| { return Err(AdminNotFound); }
      admins := kept;
      return Ok(());
    }

    method TransferAdmin(current: Address, newAdmins: seq<Address>) returns (r: Answer<()>)
      modifies `admins
      ensures Settled(r, G.TransferAdmin(old(Gvn()), current, newAdmins), Gvn(), old(Gvn()))
    {
      if current !in admins { return Err(Unauthorized); }
      if newAdmins == [] { return Err(AdminListEmpty); }
      admins := newAdmins;
      return Ok(());
    }

    method SetMultisigThreshold(admin: Address, n: nat) returns (r: Answer<()>)
      modifies `threshold
      ensures Settled(r, G.SetThreshold(old(Gvn()), admin, n), Gvn(), old(Gvn()))
    {
      if admin !in admins { return Err(Unauthorized); }
      if n == 0 || n > |admins| { return Err(BadThreshold); }
      threshold := n;
      return Ok(());
    }

    method ProposeAdminAction(now: nat, proposer: Address, action: AdminAction) returns (r: Answer<nat>)
      modifies `proposalCount, `proposals
      ensures Answered(r, G.Propose(old(Gvn()), now, proposer, action), Gvn(), old(Gvn()))
    {
      if proposer !in admins { return Err(Unauthorized); }
      if proposalCount >= U64_MAX { return Err(Overflow); }
      proposalCount := proposalCount + 1;
      proposals := proposals[proposalCount := Proposal(action, proposer, [proposer], false, now)];
      return Ok(proposalCount);
    }

    method ApproveAdminProposal(now: nat, approver: Address, id: nat) returns (r: Answer<()>)
      modifies `proposals
      ensures Settled(r, G.ApproveProposal(old(Gvn()), now, approver, id), Gvn(), old(Gvn()))
    {
      if approver !in admins { return Err(Unauthorized); }
      if id !in proposals { return Err(ProposalNotFound); }
      var p := proposals[id];
      if p.executed { return Err(ProposalExecuted); }
      if p.createdAt + G.PROPOSAL_TTL_SECS > U64_MAX { return Err(Overflow); }
      if now > p.createdAt + G.PROPOSAL_TTL_SECS { return Err(ProposalExpired); }
      if approver in p.approvers { return Err(AlreadyApproved); }
      proposals := proposals[id := p.(approvers := p.approvers + [approver])];
      return Ok(());
    }

    method ExecuteAdminProposal(now: nat, executor: Address, id: nat) returns (r: Answer<()>)
      modifies `proposals, `admins, `config, `wastes
      ensures match G.ExecuteProposal(old(Contents()), now, executor, id)
              case Ok(done) =>
                r == Ok(()) && Gvn() == done.gov && config == done.funds.config && wastes == done.store.wastes
              case Err(e) => r == Err(e) && Contents() == old(Contents())
    {
      if executor !in admins { return Err(Unauthorized); }
      if id !in proposals { return Err(ProposalNotFound); }
      var p := proposals[id];
      if p.executed { return Err(ProposalExecuted); }
      if p.createdAt + G.PROPOSAL_TTL_SECS > U64_MAX { return Err(Overflow); }
      if now > p.createdAt + G.PROPOSAL_TTL_SECS { return Err(ProposalExpired); }
      if |p.approvers| < threshold { return Err(InsufficientApprovals); }
      match p.action {
        case ReplaceAdmins(newAdmins) =>
          if newAdmins == [] { return Err(AdminListEmpty); }
          admins := newAdmins;
        case ChangePercentages(collector, owner) =>
          if collector + owner > 100 { return Err(InvalidPercentage); }
          config := RewardConfig(collector, owner);
        case RetireWaste(waste) =>
          if waste !in wastes { return Err(WasteNotFound); }
          if !wastes[waste].active { return Err(WasteDeactivated); }
          wastes := wastes[waste := wastes[waste].(active := false)];
      }
      proposals := proposals[id := p.(executed := true)];
      return Ok(());
    }

    // ---------- processing, goals, contamination ----------

    /** The loop over the owner's goals. */
    static method AdvanceAll(goals: seq<Goal>, w: Waste) returns (r: seq<Goal>)
      ensures r == Q.AdvanceGoals(goals, w)
    {
      r := [];
      for i := 0 to |goals|
        invariant r == Q.AdvanceGoals(goals[..i], w)
      {
        assert goals[..i + 1][..i] == goals[..i];
        var g := goals[i];
        if !g.achieved && (g.wasteType == None || g.wasteType == Some(w.wasteType)) {
          g := g.(current := Q.SaturatingAdd(g.current, w.weight));
          if g.current >= g.target { g := g.(achieved := true); }
        }
        r := r + [g];
      }
      assert goals[..|goals|] == goals;
    }

    method UpdateProcessingStatus(id: nat, caller: Address, status: Status) returns (r: Answer<()>)
      modifies `wastes, `stats, `goals
      ensures Settled(r, Q.UpdateStatus(old(Sto()), old(stats), old(goals), id, caller, status),
                      (Sto(), stats, goals), (old(Sto()), old(stats), old(goals)))
    {
      if id !in wastes { return Err(WasteNotFound); }
      var w := wastes[id];
      if w.owner != caller { return Err(NotWasteOwner); }
      if status.Rank() <= w.status.Rank() { return Err(StatusNotForward); }
      wastes := wastes[id := w.(status := status, stages := w.stages + [status])];
      if status == Recycled {
        var had := Lookup(stats, caller, NO_STATS);
        stats := stats[caller := had.(recycled := Q.SaturatingAdd(had.recycled, w.weight))];
        if caller in goals {
          var advanced := AdvanceAll(goals[caller], w);
          goals := goals[caller := advanced];
        }
      }
      return Ok(());
    }

    method SetRecyclingGoal(now: nat, a: Address, target: nat, deadline: nat, wasteType: Option<WasteType>)
      returns (r: Answer<()>)
      modifies `goals
      ensures Settled(r, Q.SetGoal(Reg(), old(goals), now, a, target, deadline, wasteType), goals, old(goals))
    {
      if a !in participants { return Err(NotRegistered); }
      if target == 0 { return Err(InvalidAmount); }
      if deadline < now + Q.MONTH_SECS || deadline > now + Q.YEAR_SECS { return Err(InvalidAmount); }
      var mine := Lookup(goals, a, []);
      var open := 0;
      for i := 0 to |mine|
        invariant open == Q.OpenGoals(mine[..i])
      {
        assert mine[..i + 1][..i] == mine[..i];
        if !mine[i].achieved { open := open + 1; }
      }
      assert mine[..|mine|] == mine;
      if open >= Q.MAX_OPEN_GOALS { return Err(InvalidAmount); }
      goals := goals[a := mine + [Goal(target, deadline, wasteType, 0, false)]];
      return Ok(());
    }

    method MarkContaminated(id: nat, verifier: Address, level: nat) returns (r: Answer<()>)
      modifies `wastes, `contaminated
      ensures Settled(r, Q.MarkContaminated(Reg(), old(Sto()), old(contaminated), id, verifier, level),
                      (Sto(), contaminated), (old(Sto()), old(contaminated)))
    {
      if level > 100 { return Err(LevelOutOfRange); }
      if !IsRegistered(verifier) { return Err(NotRegistered); }
      if participants[verifier].role != Recycler { return Err(Unauthorized); }
      if id !in wastes { return Err(WasteNotFound); }
      wastes := wastes[id := wastes[id].(contaminated := true, contamination := level)];
      if id !in contaminated { contaminated := contaminated + [id]; }
      return Ok(());
    }

    /** Sort the levels in place and take the middle one. */
    static method MedianLevel(levels: seq<nat>) returns (m: nat)
      requires levels != []
      ensures m == Ordering.Median(levels)
    {
      var a := new nat[|levels|](i requires 0 <= i < |levels| => levels[i]);
      assert a[..] == levels;
      Sorting.SelectionSort(a);
      Ordering.SortLevelsIs(levels);
      m := a[..][|levels| / 2];
    }

    method ReportContamination(id: nat, reporter: Address, level: nat) returns (r: Answer<()>)
      modifies `wastes, `reports, `contaminated
      ensures Settled(r, Q.ReportContamination(Reg(), old(Sto()), old(reports), old(contaminated), id, reporter, level),
                      (Sto(), reports, contaminated), (old(Sto()), old(reports), old(contaminated)))
    {
      if level > 100 { return Err(LevelOutOfRange); }
      if reporter !in participants { return Err(NotRegistered); }
      if id !in wastes { return Err(WasteNotFound); }
      var levels := Lookup(reports, id, []) + [level];
      reports := reports[id := levels];
      if |levels| >= Q.REPORTS_TO_MARK {
        var median := MedianLevel(levels);
        if !wastes[id].contaminated {
          wastes := wastes[id := wastes[id].(contaminated := true, contamination := median)];
          if id !in contaminated { contaminated := contaminated + [id]; }
        }
      }
      return Ok(());
    }

    // ---------- leaderboards ----------

    static method Sorted(entries: seq<Ordering.Entry>) returns (sorted: seq<Ordering.Entry>)
      ensures sorted == Ordering.SortEntries(entries)
    {
      var a := new Ordering.Entry[|entries|](i requires 0 <= i < |entries| => entries[i]);
      assert a[..] == entries;
      Sorting.InsertionSort(a);
      sorted := a[..];
    }

    /** The first entries with their ranks. */
    static method Numbered(sorted: seq<Ordering.Entry>, take: nat) returns (board: seq<L.Standing>)
      requires take <= |sorted|
      ensures |board| == take
      ensures forall k :: 0 <= k < take ==> board[k] == L.Standing(sorted[k].who, sorted[k].score, k + 1)
    {
      board := [];
      for i := 0 to take
        invariant |board| == i
        invariant forall k :: 0 <= k < i ==> board[k] == L.Standing(sorted[k].who, sorted[k].score, k + 1)
      {
        board := board + [L.Standing(sorted[i].who, sorted[i].score, i + 1)];
      }
    }

    /** `sort_and_rank`. */
    static method SortAndRank(entries: seq<Ordering.Entry>, limit: nat) returns (board: seq<L.Standing>)
      ensures board == L.SortAndRank(entries, limit)
    {
      var sorted := Sorted(entries);
      Ordering.SortEntriesIs(entries);
      board := Numbered(sorted, if |sorted| < limit then |sorted| else limit);
    }

    method GetTopEarners(limit: nat) returns (board: seq<L.Standing>)
      ensures board == L.TopEarners(Reg(), limit)
    {
      var entries: seq<Ordering.Entry> := [];
      for i := 0 to |index|
        invariant entries == L.Earners(Reg(), index[..i])
      {
        assert index[..i + 1][..i] == index[..i];
        if IsRegistered(index[i]) { entries := entries + [Ordering.Entry(participants[index[i]].tokens, index[i])]; }
      }
      assert index[..|index|] == index;
      board := SortAndRank(entries, if limit < L.LEADERBOARD_LIMIT then limit else L.LEADERBOARD_LIMIT);
    }

    /** `get_participant_rank` by tokens. */
    method GetParticipantRank(a: Address) returns (rank: nat)
      ensures rank == L.ParticipantRank(Reg(), a)
    {
      var mine := if a in participants then participants[a].tokens else 0;
      rank := 1;
      for i := 0 to |index|
        invariant rank == 1 + L.Better(Reg(), index[..i], a)
      {
        assert index[..i + 1][..i] == index[..i];
        var score := if index[i] in participants then participants[index[i]].tokens else 0;
        if index[i] != a && score > mine { rank := rank + 1; }
      }
      assert index[..|index|] == index;
    }
  }
}
