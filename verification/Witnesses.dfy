/** Runs from initialisation that end where a promise fails; the exact conditions stand beside the operations. */
module Witnesses {
  import opened Prelude
  import opened Model
  import opened Custody
  import opened CustodyIndex
  import opened Provenance
  import opened Weight
  import opened Governance
  import P = Participants
  import opened Runs

  lemma RunOneMore(s: State, calls: seq<Call>, c: Call)
    ensures Run(s, calls + [c]) == Step(Run(s, calls), c)
  {
    assert (calls + [c])[..|calls|] == calls;
  }

  /** One call further along a run. */
  lemma RunOn(s: State, calls: seq<Call>, n: nat, before: State)
    requires n < |calls| && Run(s, calls[..n]) == before
    ensures Run(s, calls[..n + 1]) == Step(before, calls[n])
  {
    assert calls[..n + 1][..n] == calls[..n];
  }

  lemma RunEnds(s: State, calls: seq<Call>, before: State)
    requires calls != [] && Run(s, calls[..|calls| - 1]) == before
    ensures Run(s, calls) == Step(before, calls[|calls| - 1])
  {}

  // ---------- one waste, three participants ----------

  function Joining(a: Address, role: Role): Call { Call(0, OnPeople(P.Join(a, role))) }

  /** A recycler, a collector and a manufacturer register, and the recycler registers five grams of paper. */
  function Opening(r: Address, c: Address, m: Address): seq<Call> {
    [Joining(r, Recycler), Joining(c, Collector), Joining(m, Manufacturer),
     Call(0, OnWaste(Recycle(0, 0, Paper, 5, r, 0, 0)))]
  }

  function People(r: Address, c: Address, m: Address): Registry {
    Registry(map[r := P.NewParticipant(Recycler, 0), c := P.NewParticipant(Collector, 0),
                 m := P.NewParticipant(Manufacturer, 0)],
             [r, c, m])
  }

  function OneWaste(r: Address): Store {
    Store(1, map[], map[], map[1 := NewWaste(Paper, 5, r, 0, 0, 0)], map[r := [1]], map[], 0, map[])
  }

  function Opened(admin: Address, r: Address, c: Address, m: Address): State {
    Genesis(admin).(reg := People(r, c, m), store := OneWaste(r), stats := map[r := NO_STATS])
  }

  lemma JoinedAre(admin: Address, r: Address, c: Address, m: Address)
    requires r != c && r != m && c != m
    ensures Run(Genesis(admin), Opening(r, c, m)[..3]) == Genesis(admin).(reg := People(r, c, m))
  {
    var calls, s0 := Opening(r, c, m), Genesis(admin);
    var one := Registry(map[r := P.NewParticipant(Recycler, 0)], [r]);
    var two := Registry(map[r := P.NewParticipant(Recycler, 0), c := P.NewParticipant(Collector, 0)], [r, c]);
    RunOn(s0, calls, 0, s0);
    JoinStep(s0, r, Recycler, one);
    RunOn(s0, calls, 1, s0.(reg := one));
    JoinStep(s0.(reg := one), c, Collector, two);
    RunOn(s0, calls, 2, s0.(reg := two));
    JoinStep(s0.(reg := two), m, Manufacturer, People(r, c, m));
  }

  lemma JoinStep(s: State, a: Address, role: Role, after: Registry)
    requires a !in s.reg.participants && after.index == s.reg.index + [a]
    requires after.participants == s.reg.participants[a := P.NewParticipant(role, 0)]
    ensures Step(s, Joining(a, role)) == s.(reg := after)
  {}

  lemma OpeningIs(admin: Address, r: Address, c: Address, m: Address)
    requires r != c && r != m && c != m
    ensures Run(Genesis(admin), Opening(r, c, m)) == Opened(admin, r, c, m) && CustodyInv(OneWaste(r))
  {
    JoinedAre(admin, r, c, m);
    RunEnds(Genesis(admin), Opening(r, c, m), Genesis(admin).(reg := People(r, c, m)));
    RegisteringStep(admin, r, c, m);
  }

  lemma RegisteringStep(admin: Address, r: Address, c: Address, m: Address)
    requires r != c && r != m && c != m
    ensures Step(Genesis(admin).(reg := People(r, c, m)), Call(0, OnWaste(Recycle(0, 0, Paper, 5, r, 0, 0))))
            == Opened(admin, r, c, m)
  {
    FirstWaste(admin, r);
    RegistersIt(admin, r, c, m);
  }

  lemma FirstWaste(admin: Address, r: Address)
    ensures AddWaste(Genesis(admin).store, NewWaste(Paper, 5, r, 0, 0, 0)) == OneWaste(r)
  {
    var none: seq<nat> := [];
    assert none + [1] == [1];
  }

  lemma RegistersIt(admin: Address, r: Address, c: Address, m: Address)
    ensures var s := Genesis(admin).(reg := People(r, c, m));
      RecycleWaste(s.reg, s.store, 0, 0, 0, Paper, 5, r, 0, 0)
      == Ok((AddWaste(s.store, NewWaste(Paper, 5, r, 0, 0, 0)), 1))
  {
    assert r in People(r, c, m).participants && People(r, c, m).participants[r].registered;
  }

  function AfterOpening(admin: Address, r: Address, c: Address, m: Address, call: Call): State {
    Run(Genesis(admin), Opening(r, c, m) + [call])
  }

  lemma NextIs(admin: Address, r: Address, c: Address, m: Address, call: Call)
    requires r != c && r != m && c != m
    ensures AfterOpening(admin, r, c, m, call) == Step(Opened(admin, r, c, m), call)
  {
    OpeningIs(admin, r, c, m);
    RunOneMore(Genesis(admin), Opening(r, c, m), call);
  }

  /** The store after the opening and one more call that concerns wastes. */
  lemma NextStoreIs(admin: Address, r: Address, c: Address, m: Address, op: WasteOp)
    requires r != c && r != m && c != m
    ensures AfterOpening(admin, r, c, m, Call(0, OnWaste(op))).store
            == WasteStep(People(r, c, m), [admin], OneWaste(r), 0, op)
  {
    NextIs(admin, r, c, m, Call(0, OnWaste(op)));
  }

  /** A batch that names the waste twice is accepted and lists it twice. */
  lemma BatchCanListTwice(admin: Address, r: Address, c: Address, m: Address)
    requires r != c && r != m && c != m
    ensures var batch := Call(0, OnWaste(TransferMany([1, 1], c, 0, 0)));
      OwnedBy(AfterOpening(admin, r, c, m, batch).store, c) == [1, 1]
  {
    NextStoreIs(admin, r, c, m, TransferMany([1, 1], c, 0, 0));
    DoubleBatch(r, c, m);
  }

  lemma DoubleBatch(r: Address, c: Address, m: Address)
    requires r != c && r != m && c != m
    ensures BatchTransfer(People(r, c, m), OneWaste(r), 0, [1, 1], c, 0, 0).Ok?
    ensures OwnedBy(BatchTransfer(People(r, c, m), OneWaste(r), 0, [1, 1], c, 0, 0).value.0, c) == [1, 1]
  {
    var ids: seq<nat> := [1, 1];
    assert BatchItemCheck(People(r, c, m), OneWaste(r).wastes, 0, 1, c).Ok?;
    BatchCheckPassed(People(r, c, m), OneWaste(r).wastes, 0, ids, c);
    BatchAppends(OneWaste(r), 0, ids, c, 0, 0);
  }

  function Handing(r: Address, c: Address): Transfer { Transfer(1, r, c, 0, 0, 0, Transferred) }

  /** And it writes the same hand-over into the history twice: the second record does not start where the first ends. */
  lemma BatchCanBreakChain(admin: Address, r: Address, c: Address, m: Address)
    requires r != c && r != m && c != m
    ensures var batch := Call(0, OnWaste(TransferMany([1, 1], c, 0, 0)));
      var h := HistoryOf(AfterOpening(admin, r, c, m, batch).store, 1);
      h == [Handing(r, c), Handing(r, c)] && !Linked(h)
  {
    NextStoreIs(admin, r, c, m, TransferMany([1, 1], c, 0, 0));
    DoubleHistory(r, c, m);
    NotLinked(Handing(r, c), Handing(r, c));
  }

  lemma NotLinked(t: Transfer, u: Transfer)
    requires t.to != u.from
    ensures !Linked([t, u])
  {
    assert [t, u][0].to != [t, u][1].from;
  }

  lemma DoubleHistory(r: Address, c: Address, m: Address)
    requires r != c && r != m && c != m
    ensures BatchTransfer(People(r, c, m), OneWaste(r), 0, [1, 1], c, 0, 0).Ok?
    ensures HistoryOf(BatchTransfer(People(r, c, m), OneWaste(r), 0, [1, 1], c, 0, 0).value.0, 1)
            == [Handing(r, c), Handing(r, c)]
  {
    DoubleBatch(r, c, m);
    TwiceHanded(r, c);
  }

  lemma TwiceHanded(r: Address, c: Address)
    ensures var ids: seq<nat> := [1, 1];
      HistoryOf(BatchMove(OneWaste(r), OneWaste(r).wastes, 0, ids, c, 0, 0), 1) == [Handing(r, c), Handing(r, c)]
  {
    var ids: seq<nat> := [1, 1];
    assert ids[..1] == [1] && ids[..1][..0] == [];
    assert HistoryOf(BatchMove(OneWaste(r), OneWaste(r).wastes, 0, ids[..1], c, 0, 0), 1) == [Handing(r, c)];
  }

  /** A merge that names the waste twice is accepted and doubles the active weight. */
  lemma MergeCanDoubleWeight(admin: Address, r: Address, c: Address, m: Address)
    requires r != c && r != m && c != m
    ensures TotalWeight(None, Run(Genesis(admin), Opening(r, c, m)).store.wastes) == 5
    ensures TotalWeight(None, AfterOpening(admin, r, c, m, Call(0, OnWaste(Merge([1, 1], r)))).store.wastes) == 10
  {
    OpeningIs(admin, r, c, m);
    NextStoreIs(admin, r, c, m, Merge([1, 1], r));
    DoubleMerge(r);
  }

  lemma DoubleMerge(r: Address)
    ensures MergeWastes(OneWaste(r), [1, 1], r).Ok? && TotalWeight(None, OneWaste(r).wastes) == 5
    ensures TotalWeight(None, MergeWastes(OneWaste(r), [1, 1], r).value.0.wastes) == 10
  {
    var st, ids: seq<nat> := OneWaste(r), [1, 1];
    assert MergeWeight(st.wastes, r, ids, 1) == Ok(5);
    assert MergeWeight(st.wastes, r, ids, 2) == Ok(10);
    MergeAdds(None, st, ids, r);
    assert ids[..1] == [1] && ids[..1][..0] == [];
    assert RepeatedWeight(st.wastes, ids[..1]) == 0;
    MapSumRemove(st.wastes, 1, ActiveOf(None));
    assert st.wastes - {1} == map[];
  }

  /** An override leaves the waste on its former owner's list. */
  lemma OverrideCanMislist(admin: Address, r: Address, c: Address, m: Address)
    requires r != c && r != m && c != m
    ensures var st := AfterOpening(admin, r, c, m, Call(0, OnWaste(Override(admin, 1, r, c, 0, 0)))).store;
      1 in st.wastes && st.wastes[1].owner == c && OwnedBy(st, r) == [1] && OwnedBy(st, c) == []
  {
    NextStoreIs(admin, r, c, m, Override(admin, 1, r, c, 0, 0));
  }

  // ---------- accepting from a past owner ----------

  /** The recycler offers the waste to the manufacturer, hands it to the collector, and the manufacturer accepts. */
  function StaleOffer(r: Address, c: Address, m: Address): seq<Call> {
    Opening(r, c, m)
    + [Call(0, OnWaste(Initiate(1, r, m, 0, 0))), Call(0, OnWaste(Transfer1(1, r, c, 0, 0))),
       Call(0, OnWaste(Approve(1, m)))]
  }

  function Offer(r: Address, m: Address): PendingTransfer {
    PendingTransfer(1, r, m, TRANSFER_EXPIRY_SECS, Pending, 0, 0)
  }

  lemma OfferIs(admin: Address, r: Address, c: Address, m: Address)
    requires r != c && r != m && c != m
    ensures Step(Opened(admin, r, c, m), Call(0, OnWaste(Initiate(1, r, m, 0, 0))))
            == Opened(admin, r, c, m).(store := OfferedStore(r, m))
  {}

  function HandedStore(r: Address, c: Address, m: Address): Store {
    OneWaste(r).(pendingCount := 1, pending := map[1 := Offer(r, m)],
                 wastes := map[1 := NewWaste(Paper, 5, c, 0, 0, 0)], lists := map[r := [], c := [1]],
                 history := map[1 := [Handing(r, c)]])
  }

  function OfferedStore(r: Address, m: Address): Store {
    OneWaste(r).(pendingCount := 1, pending := map[1 := Offer(r, m)])
  }

  lemma HandedIs(r: Address, c: Address, m: Address)
    requires r != c && r != m && c != m
    ensures Move(OfferedStore(r, m), 1, NewWaste(Paper, 5, r, 0, 0, 0), r, c, Handing(r, c))
            == HandedStore(r, c, m)
  {
    var one, none: seq<nat> := [1], [];
    assert one[..0] == [] && Without(one, {1}) == none && none + one == one;
    var t := Handing(r, c);
    assert [] + [t] == [t];
  }

  lemma HandingIs(r: Address, c: Address, m: Address)
    requires r != c && r != m && c != m
    ensures TransferWaste(People(r, c, m), OfferedStore(r, m), 0, 1, r, c, 0, 0).Ok?
    ensures TransferWaste(People(r, c, m), OfferedStore(r, m), 0, 1, r, c, 0, 0).value.1 == HandedStore(r, c, m)
  {
    HandedIs(r, c, m);
  }

  lemma AcceptedIs(r: Address, c: Address, m: Address)
    requires r != c && r != m && c != m
    ensures ApproveTransfer(HandedStore(r, c, m), 0, 1, m).Ok?
    ensures var st := ApproveTransfer(HandedStore(r, c, m), 0, 1, m).value;
      1 in st.wastes && st.wastes[1].owner == m && OwnedBy(st, c) == [1] && OwnedBy(st, m) == [1]
  {}

  lemma HandingStep(s: State, r: Address, c: Address, m: Address)
    requires r != c && r != m && c != m && s.reg == People(r, c, m) && s.store == OfferedStore(r, m)
    ensures Step(s, Call(0, OnWaste(Transfer1(1, r, c, 0, 0)))).store == HandedStore(r, c, m)
  {
    HandingIs(r, c, m);
  }

  lemma OfferedRun(admin: Address, r: Address, c: Address, m: Address)
    requires r != c && r != m && c != m
    ensures Run(Genesis(admin), StaleOffer(r, c, m)[..5]) == Opened(admin, r, c, m).(store := OfferedStore(r, m))
  {
    var offer := Call(0, OnWaste(Initiate(1, r, m, 0, 0)));
    assert StaleOffer(r, c, m)[..5] == Opening(r, c, m) + [offer];
    NextIs(admin, r, c, m, offer);
    OfferIs(admin, r, c, m);
  }

  lemma HandedRun(admin: Address, r: Address, c: Address, m: Address)
    requires r != c && r != m && c != m
    ensures Run(Genesis(admin), StaleOffer(r, c, m)[..6]).store == HandedStore(r, c, m)
  {
    OfferedRun(admin, r, c, m);
    RunOn(Genesis(admin), StaleOffer(r, c, m), 5, Opened(admin, r, c, m).(store := OfferedStore(r, m)));
    HandingStep(Opened(admin, r, c, m).(store := OfferedStore(r, m)), r, c, m);
  }

  lemma AcceptingStep(s: State, n: nat, recipient: Address)
    ensures Step(s, Call(0, OnWaste(Approve(n, recipient)))).store
            == match ApproveTransfer(s.store, 0, n, recipient) case Ok(st) => st case Err(_) => s.store
  {}

  lemma AcceptedRun(admin: Address, r: Address, c: Address, m: Address)
    requires r != c && r != m && c != m
    ensures ApproveTransfer(HandedStore(r, c, m), 0, 1, m).Ok?
    ensures Run(Genesis(admin), StaleOffer(r, c, m)).store == ApproveTransfer(HandedStore(r, c, m), 0, 1, m).value
  {
    var handed := Run(Genesis(admin), StaleOffer(r, c, m)[..6]);
    HandedRun(admin, r, c, m);
    RunEnds(Genesis(admin), StaleOffer(r, c, m), handed);
    AcceptingStep(handed, 1, m);
    AcceptedIs(r, c, m);
  }

  /** The waste is taken from the collector, who never offered it, and stays on the collector's list. */
  lemma AcceptanceCanMislist(admin: Address, r: Address, c: Address, m: Address)
    requires r != c && r != m && c != m
    ensures var st := Run(Genesis(admin), StaleOffer(r, c, m)).store;
      1 in st.wastes && st.wastes[1].owner == m && OwnedBy(st, c) == [1] && OwnedBy(st, m) == [1]
  {
    AcceptedRun(admin, r, c, m);
    AcceptedIs(r, c, m);
  }

  /** Its history then says the recycler handed it over twice, to the collector and to the manufacturer. */
  lemma AcceptanceCanBreakChain(admin: Address, r: Address, c: Address, m: Address)
    requires r != c && r != m && c != m
    ensures var h := HistoryOf(Run(Genesis(admin), StaleOffer(r, c, m)).store, 1);
      h == [Handing(r, c), Transfer(1, r, m, 0, 0, 0, Approved)] && !Linked(h)
  {
    AcceptedRun(admin, r, c, m);
    AcceptedHistory(r, c, m);
    NotLinked(Handing(r, c), Transfer(1, r, m, 0, 0, 0, Approved));
  }

  lemma AcceptedHistory(r: Address, c: Address, m: Address)
    requires r != c && r != m && c != m
    ensures ApproveTransfer(HandedStore(r, c, m), 0, 1, m).Ok?
    ensures HistoryOf(ApproveTransfer(HandedStore(r, c, m), 0, 1, m).value, 1)
            == [Handing(r, c), Transfer(1, r, m, 0, 0, 0, Approved)]
  {
    var t, u := Handing(r, c), Transfer(1, r, m, 0, 0, 0, Approved);
    assert [t] + [u] == [t, u];
  }

  /** The collector merges the waste with itself: the second copy of its history does not fit the first. */
  lemma MergeCanBreakChain(admin: Address, r: Address, c: Address, m: Address)
    requires r != c && r != m && c != m
    ensures var calls := StaleOffer(r, c, m)[..6] + [Call(0, OnWaste(Merge([1, 1], c)))];
      var h := HistoryOf(Run(Genesis(admin), calls).store, 2);
      h == [Handing(r, c), Handing(r, c)] && !Linked(h)
  {
    HandedRun(admin, r, c, m);
    RunOneMore(Genesis(admin), StaleOffer(r, c, m)[..6], Call(0, OnWaste(Merge([1, 1], c))));
    MergedHistory(r, c, m);
    NotLinked(Handing(r, c), Handing(r, c));
  }

  lemma MergedHistory(r: Address, c: Address, m: Address)
    requires r != c && r != m && c != m
    ensures MergeWastes(HandedStore(r, c, m), [1, 1], c).Ok?
    ensures HistoryOf(MergeWastes(HandedStore(r, c, m), [1, 1], c).value.0, 2) == [Handing(r, c), Handing(r, c)]
  {
    var st, ids: seq<nat>, h := HandedStore(r, c, m), [1, 1], [Handing(r, c)];
    assert MergeWeight(st.wastes, c, ids, 1) == Ok(5);
    assert MergeWeight(st.wastes, c, ids, 2) == Ok(10);
    assert ids[..1] == [1] && ids[..1][..0] == [];
    assert JoinedHistory(st, ids[..1]) == h;
    assert h + h == [Handing(r, c), Handing(r, c)];
  }

  // ---------- the last administrator ----------

  /** A list that names its only administrator twice passes the check that keeps the last one. */
  lemma RemovalCanEmpty(a: Address)
    ensures Run(Genesis(a), [Call(0, OnAdmin(HandOver(a, [a, a]))), Call(0, OnAdmin(Remove(a, a)))]).gov.admins == []
  {
    var calls := [Call(0, OnAdmin(HandOver(a, [a, a]))), Call(0, OnAdmin(Remove(a, a)))];
    RunOn(Genesis(a), calls, 0, Genesis(a));
    RunEnds(Genesis(a), calls, Run(Genesis(a), calls[..1]));
    BothAreRemoved(a);
  }

  lemma BothAreRemoved(a: Address)
    ensures RemoveAdmin(Gov([a, a], 1, 0, map[]), a, a) == Ok(Gov([], 1, 0, map[]))
  {
    var twice := [a, a];
    assert twice[..1] == [a] && twice[..1][..0] == [];
    assert Without(twice[..1], {a}) == [];
  }
}
