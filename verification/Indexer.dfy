/** The event indexer: group fetched events by ledger, hand them to storage, commit a ledger cursor. */
module Indexer {
  import opened Prelude

  /** An event's type is its first topic, or "unknown" when it has none. */
  datatype Event = Event(ledger: nat, tx: string, topic: Option<string>)

  /** What the database holds: `sync_status.last_ledger`, `raw_events`, and the events handed to the handlers. */
  datatype Db = Db(cursor: nat, rows: seq<Event>, handed: seq<Event>)

  /** A JavaScript `Map` from ledger to events: keys in order of first insertion. */
  datatype Groups = Groups(keys: seq<nat>, at: map<nat, seq<Event>>)

  const BATCH_SIZE: nat := 200

  function AddToGroups(g: Groups, e: Event): Groups {
    Groups(if e.ledger in g.at then g.keys else g.keys + [e.ledger],
           g.at[e.ledger := Lookup(g.at, e.ledger, []) + [e]])
  }

  function Grouped(events: seq<Event>): Groups {
    if events == [] then Groups([], map[])
    else AddToGroups(Grouped(events[..|events| - 1]), events[|events| - 1])
  }

  /** The unique index on `raw_events`: transaction, type and first topic, where a missing topic equals nothing. */
  predicate SameKey(a: Event, b: Event) { a.tx == b.tx && a.topic.Some? && a.topic == b.topic }

  /** Insert unless a row has the same key. */
  function InsertRow(rows: seq<Event>, e: Event): seq<Event> {
    if exists i :: 0 <= i < |rows| && SameKey(rows[i], e) then rows else rows + [e]
  }

  function InsertRows(rows: seq<Event>, events: seq<Event>): seq<Event> {
    if events == [] then rows
    else InsertRow(InsertRows(rows, events[..|events| - 1]), events[|events| - 1])
  }

  /** A stored row of this ledger whose transaction the fetched events do not mention. */
  predicate Reorged(rows: seq<Event>, ledger: nat, events: seq<Event>) {
    exists i :: 0 <= i < |rows| && rows[i].ledger == ledger
                && forall j :: 0 <= j < |events| ==> events[j].tx != rows[i].tx
  }

  function Before(rows: seq<Event>, ledger: nat): seq<Event> {
    if rows == [] then []
    else
      var r := rows[|rows| - 1];
      Before(rows[..|rows| - 1], ledger) + if r.ledger < ledger then [r] else []
  }

  function ProcessGroup(db: Db, ledger: nat, events: seq<Event>): Db {
    var rows := if Reorged(db.rows, ledger, events) then Before(db.rows, ledger) else db.rows;
    Db(ledger, InsertRows(rows, events), db.handed + events)
  }

  function ProcessGroups(db: Db, keys: seq<nat>, at: map<nat, seq<Event>>): Db {
    if keys == [] then db
    else
      var ledger := keys[|keys| - 1];
      ProcessGroup(ProcessGroups(db, keys[..|keys| - 1], at), ledger, Lookup(at, ledger, []))
  }

  function Process(db: Db, events: seq<Event>): Db {
    ProcessGroups(db, Grouped(events).keys, Grouped(events).at)
  }

  /** The events of a chain with ledger in lo..=hi. */
  function Between(chain: seq<Event>, lo: nat, hi: nat): seq<Event> {
    if chain == [] then []
    else
      var e := chain[|chain| - 1];
      Between(chain[..|chain| - 1], lo, hi) + if lo <= e.ledger <= hi then [e] else []
  }

  function From(db: Db, start: nat): nat { if db.cursor == 0 then start else db.cursor + 1 }

  function To(db: Db, start: nat, latest: nat): nat {
    var last := From(db, start) + BATCH_SIZE - 1;
    if last < latest then last else latest
  }

  /** One committed poll, given what the node answered. */
  function Commit(db: Db, start: nat, latest: nat, answer: seq<Event>): Db {
    if db.cursor >= latest then db
    else if answer == [] then db.(cursor := To(db, start, latest))
    else Process(db, answer)
  }

  /** A poll as it may go: the latest ledger the node reported, its head when it answered the fetch, how many events
      one answer holds, and whether the run failed before its transaction committed. */
  datatype Poll = Poll(latest: nat, head: nat, count: nat, crashed: bool)

  /** Every event the fetch asks for: it names no upper ledger. */
  function Asked(db: Db, chain: seq<Event>, start: nat, p: Poll): seq<Event> {
    Between(chain, From(db, start), p.head)
  }

  function Taken(s: seq<Event>, n: nat): seq<Event> { if n < |s| then s[..n] else s }

  /** The node's single answer: some first part of what was asked for. */
  function Answer(db: Db, chain: seq<Event>, start: nat, p: Poll): seq<Event> {
    Taken(Asked(db, chain, start, p), p.count)
  }

  function PollStep(db: Db, chain: seq<Event>, start: nat, p: Poll): Db {
    if p.crashed then db else Commit(db, start, p.latest, Answer(db, chain, start, p))
  }

  function PollRun(db: Db, chain: seq<Event>, start: nat, polls: seq<Poll>): Db {
    if polls == [] then db
    else PollStep(PollRun(db, chain, start, polls[..|polls| - 1]), chain, start, polls[|polls| - 1])
  }

  const EMPTY_DB: Db := Db(0, [], [])

  // ---------- the indexer process ----------

  class IndexerProcess {
    var cursor: nat
    var rows: seq<Event>
    var handed: seq<Event>

    ghost function Contents(): Db
      reads this
    {
      Db(cursor, rows, handed)
    }

    constructor ()
      ensures Contents() == EMPTY_DB
    {
      cursor, rows, handed := 0, [], [];
    }

    /** The grouping loop over the fetched events. */
    static method GroupByLedger(events: seq<Event>) returns (g: Groups)
      ensures g == Grouped(events)
    {
      var keys: seq<nat>, at: map<nat, seq<Event>> := [], map[];
      for i := 0 to |events|
        invariant Groups(keys, at) == Grouped(events[..i])
      {
        var e := events[i];
        assert events[..i + 1][..i] == events[..i] && [] + [e] == [e];
        if e.ledger in at {
          at := at[e.ledger := at[e.ledger] + [e]];
        } else {
          keys := keys + [e.ledger];
          at := at[e.ledger := [e]];
        }
      }
      assert events[..|events|] == events;
      g := Groups(keys, at);
    }

    /** Delete the rows from `ledger` on. */
    method RollbackFrom(ledger: nat)
      modifies `rows, `cursor
      ensures rows == Before(old(rows), ledger) && cursor == if ledger > 0 then ledger - 1 else 0
    {
      var kept := [];
      for i := 0 to |rows|
        invariant rows == old(rows) && kept == Before(rows[..i], ledger)
      {
        if rows[i].ledger < ledger { kept := kept + [rows[i]]; }
        assert rows[..i + 1][..i] == rows[..i];
      }
      assert rows[..|rows|] == rows;
      rows := kept;
      cursor := if ledger > 0 then ledger - 1 else 0;
    }

    method ProcessLedger(ledger: nat, events: seq<Event>)
      modifies this
      ensures Contents() == ProcessGroup(old(Contents()), ledger, events)
    {
      if Reorged(rows, ledger, events) { RollbackFrom(ledger); }
      ghost var kept := rows;
      for i := 0 to |events|
        invariant rows == InsertRows(kept, events[..i]) && handed == old(handed) + events[..i]
      {
        var e := events[i];
        if !(exists k :: 0 <= k < |rows| && SameKey(rows[k], e)) { rows := rows + [e]; }
        handed := handed + [e];
        assert events[..i + 1][..i] == events[..i];
      }
      assert events[..|events|] == events;
      cursor := ledger;
    }

    /** The body of the committed transaction. */
    method ProcessEvents(events: seq<Event>)
      modifies this
      ensures Contents() == Process(old(Contents()), events)
    {
      if events == [] { return; }
      var g := GroupByLedger(events);
      for i := 0 to |g.keys|
        invariant Contents() == ProcessGroups(old(Contents()), g.keys[..i], g.at)
      {
        ProcessLedger(g.keys[i], Lookup(g.at, g.keys[i], []));
        assert g.keys[..i + 1][..i] == g.keys[..i];
      }
      assert g.keys[..|g.keys|] == g.keys;
    }

    /** The ledgers `run` asks for. */
    method Range(start: nat, latest: nat) returns (fromLedger: nat, toLedger: nat)
      ensures fromLedger == From(Contents(), start) && toLedger == To(Contents(), start, latest)
    {
      fromLedger := if cursor == 0 then start else cursor + 1;
      toLedger := if fromLedger + BATCH_SIZE - 1 < latest then fromLedger + BATCH_SIZE - 1 else latest;
    }

    /** `run`: one poll that gets as far as its commit; `answer` is what the fetch brought. */
    method Run(start: nat, latest: nat, answer: seq<Event>)
      modifies this
      ensures Contents() == Commit(old(Contents()), start, latest, answer)
    {
      if cursor >= latest { return; }
      var _, toLedger := Range(start, latest);
      if answer == [] {
        cursor := toLedger;
      } else {
        ProcessEvents(answer);
      }
    }
  }

  // ---------- grouping and flattening ----------

  ghost predicate Ordered(events: seq<Event>) {
    forall i, j :: 0 <= i < j < |events| ==> events[i].ledger <= events[j].ledger
  }

  ghost predicate Climbing(keys: seq<nat>) {
    forall i, j :: 0 <= i < j < |keys| ==> keys[i] < keys[j]
  }

  function Flat(keys: seq<nat>, at: map<nat, seq<Event>>): seq<Event> {
    if keys == [] then [] else Flat(keys[..|keys| - 1], at) + Lookup(at, keys[|keys| - 1], [])
  }

  /** Every event sits in the group of its own ledger. */
  ghost predicate Sifted(at: map<nat, seq<Event>>) {
    forall k, e :: k in at && e in at[k] ==> e.ledger == k
  }

  ghost predicate GroupsOf(g: Groups, events: seq<Event>) {
    && Climbing(g.keys) && (forall k :: k in g.at <==> k in g.keys)
    && Flat(g.keys, g.at) == events
    && (events == [] <==> g.keys == [])
    && (events != [] ==> g.keys[|g.keys| - 1] == events[|events| - 1].ledger)
  }

  lemma {:induction false} FlatSame(keys: seq<nat>, at: map<nat, seq<Event>>, k: nat, v: seq<Event>)
    requires k !in keys
    ensures Flat(keys, at[k := v]) == Flat(keys, at)
  {
    if keys != [] { FlatSame(keys[..|keys| - 1], at, k, v); }
  }

  lemma JoinGroup(g: Groups, events: seq<Event>, e: Event)
    requires GroupsOf(g, events) && events != [] && e.ledger == events[|events| - 1].ledger
    ensures GroupsOf(AddToGroups(g, e), events + [e])
  {
    var earlier := g.keys[..|g.keys| - 1];
    assert e.ledger !in earlier;
    FlatSame(earlier, g.at, e.ledger, g.at[e.ledger] + [e]);
  }

  lemma OpenFlat(keys: seq<nat>, at: map<nat, seq<Event>>, k: nat, v: seq<Event>)
    requires k !in keys
    ensures Flat(keys + [k], at[k := v]) == Flat(keys, at) + v
  {
    FlatSame(keys, at, k, v);
    assert (keys + [k])[..|keys|] == keys;
  }

  lemma ClimbOn(keys: seq<nat>, k: nat)
    requires Climbing(keys) && (keys != [] ==> keys[|keys| - 1] < k)
    ensures Climbing(keys + [k]) && k !in keys
  {}

  lemma OpenGroup(g: Groups, events: seq<Event>, e: Event)
    requires GroupsOf(g, events) && (events != [] ==> e.ledger > events[|events| - 1].ledger)
    ensures GroupsOf(AddToGroups(g, e), events + [e])
  {
    ClimbOn(g.keys, e.ledger);
    assert AddToGroups(g, e) == Groups(g.keys + [e.ledger], g.at[e.ledger := [e]]) by { assert [] + [e] == [e]; }
    OpenFlat(g.keys, g.at, e.ledger, [e]);
  }

  lemma {:induction false} GroupingSifts(events: seq<Event>)
    ensures Sifted(Grouped(events).at)
  {
    if events != [] { GroupingSifts(events[..|events| - 1]); }
  }

  /** Ledger-ordered events are grouped into ascending ledgers, and flattening the groups gives them back. */
  lemma {:induction false} GroupThenFlatten(events: seq<Event>)
    requires Ordered(events)
    ensures GroupsOf(Grouped(events), events)
  {
    if events != [] {
      var init, e := events[..|events| - 1], events[|events| - 1];
      assert events == init + [e];
      GroupThenFlatten(init);
      if init != [] && e.ledger == init[|init| - 1].ledger { JoinGroup(Grouped(init), init, e); }
      else { OpenGroup(Grouped(init), init, e); }
    }
  }

  // ---------- rows ----------

  lemma {:induction false} InsertRowsAppend(rows: seq<Event>, a: seq<Event>, b: seq<Event>)
    ensures InsertRows(rows, a + b) == InsertRows(InsertRows(rows, a), b)
  {
    if b == [] {
      assert a + b == a;
    } else {
      InsertRowsAppend(rows, a, b[..|b| - 1]);
      assert (a + b)[..|a + b| - 1] == a + b[..|b| - 1];
    }
  }

  lemma {:induction false} RowsComeFrom(rows: seq<Event>, events: seq<Event>, r: Event)
    requires r in InsertRows(rows, events)
    ensures r in rows || r in events
  {
    if events != [] && r in InsertRows(rows, events[..|events| - 1]) {
      RowsComeFrom(rows, events[..|events| - 1], r);
    }
  }

  ghost predicate NoRepeats(events: seq<Event>) {
    forall i, j :: 0 <= i < j < |events| ==>
      !(events[i].tx == events[j].tx && events[i].topic == events[j].topic && events[i].topic != None)
  }

  lemma NoRepeatsSnoc(events: seq<Event>, e: Event)
    ensures NoRepeats(events + [e]) <==> NoRepeats(events) && forall i :: 0 <= i < |events| ==> !SameKey(events[i], e)
  {
    var longer := events + [e];
    assert longer[|events|] == e && forall i :: 0 <= i < |events| ==> longer[i] == events[i];
    if NoRepeats(longer) {
      forall i | 0 <= i < |events| ensures !SameKey(events[i], e) { assert !SameKey(longer[i], longer[|events|]); }
    }
  }

  /** The unique index drops no event if and only if no two events share a transaction and a first topic. */
  lemma {:induction false} RowsAreEventsIff(events: seq<Event>)
    ensures InsertRows([], events) == events <==> NoRepeats(events)
    ensures !NoRepeats(events) ==> |InsertRows([], events)| < |events|
  {
    if events != [] {
      var init, e := events[..|events| - 1], events[|events| - 1];
      RowsAreEventsIff(init);
      NoRepeatsSnoc(init, e);
      assert events == init + [e];
    }
  }

  // ---------- one committed batch ----------

  lemma {:induction false} FlatComesFrom(keys: seq<nat>, at: map<nat, seq<Event>>, e: Event)
    requires Sifted(at) && e in Flat(keys, at)
    ensures e.ledger in keys
  {
    if keys != [] && e in Flat(keys[..|keys| - 1], at) { FlatComesFrom(keys[..|keys| - 1], at, e); }
  }

  /** With no stored row of the ledger it is about to write, a group does not look like a reorganisation. */
  lemma NoRowYet(rows: seq<Event>, keys: seq<nat>, at: map<nat, seq<Event>>, k: nat, events: seq<Event>)
    requires Sifted(at) && k !in keys && forall r :: r in rows ==> r.ledger != k
    ensures !Reorged(InsertRows(rows, Flat(keys, at)), k, events)
  {
    var after := InsertRows(rows, Flat(keys, at));
    forall i | 0 <= i < |after| ensures after[i].ledger != k {
      RowsComeFrom(rows, Flat(keys, at), after[i]);
      if after[i] in Flat(keys, at) { FlatComesFrom(keys, at, after[i]); }
    }
  }

  lemma {:induction false} GroupsGoThrough(db: Db, keys: seq<nat>, at: map<nat, seq<Event>>)
    requires Climbing(keys) && Sifted(at) && forall r :: r in db.rows ==> r.ledger !in keys
    ensures var flat := Flat(keys, at);
      ProcessGroups(db, keys, at)
      == Db(if keys == [] then db.cursor else keys[|keys| - 1], InsertRows(db.rows, flat), db.handed + flat)
  {
    if keys != [] {
      var init, k := keys[..|keys| - 1], keys[|keys| - 1];
      var flat, events := Flat(init, at), Lookup(at, k, []);
      assert keys == init + [k];
      GroupsGoThrough(db, init, at);
      NoRowYet(db.rows, init, at, k, events);
      GroupGoesThrough(db, flat, ProcessGroups(db, init, at).cursor, k, events);
    }
  }

  lemma GroupGoesThrough(db: Db, flat: seq<Event>, cursor: nat, k: nat, events: seq<Event>)
    requires !Reorged(InsertRows(db.rows, flat), k, events)
    ensures ProcessGroup(Db(cursor, InsertRows(db.rows, flat), db.handed + flat), k, events)
            == Db(k, InsertRows(db.rows, flat + events), db.handed + (flat + events))
  {
    InsertRowsAppend(db.rows, flat, events);
  }

  lemma ProcessHandsOver(db: Db, events: seq<Event>)
    requires Ordered(events) && events != []
    requires forall r, e :: r in db.rows && e in events ==> r.ledger < e.ledger
    ensures Process(db, events)
            == Db(events[|events| - 1].ledger, InsertRows(db.rows, events), db.handed + events)
  {
    GroupThenFlatten(events);
    GroupingSifts(events);
    var g := Grouped(events);
    forall r | r in db.rows ensures r.ledger !in g.keys {
      if r.ledger in g.keys { KeysComeFrom(events, r.ledger); }
    }
    GroupsGoThrough(db, g.keys, g.at);
  }

  lemma {:induction false} KeysComeFrom(events: seq<Event>, k: nat)
    requires k in Grouped(events).keys
    ensures exists e :: e in events && e.ledger == k
  {
    var init, e := events[..|events| - 1], events[|events| - 1];
    assert e in events;
    if k in Grouped(init).keys { KeysComeFrom(init, k); }
  }

  // ---------- the part of the chain between two ledgers ----------

  lemma {:induction false} BetweenIs(chain: seq<Event>, lo: nat, hi: nat)
    requires Ordered(chain)
    ensures Ordered(Between(chain, lo, hi))
    ensures forall e :: e in Between(chain, lo, hi) <==> e in chain && lo <= e.ledger <= hi
  {
    if chain != [] {
      BetweenIs(chain[..|chain| - 1], lo, hi);
      assert chain == chain[..|chain| - 1] + [chain[|chain| - 1]];
    }
  }

  lemma {:induction false} BetweenJoins(chain: seq<Event>, lo: nat, mid: nat, hi: nat)
    requires Ordered(chain) && lo <= mid + 1 && mid <= hi
    ensures Between(chain, lo, hi) == Between(chain, lo, mid) + Between(chain, mid + 1, hi)
  {
    if chain != [] {
      var init, e := chain[..|chain| - 1], chain[|chain| - 1];
      BetweenJoins(init, lo, mid, hi);
      if e.ledger <= mid { NothingAbove(init, mid + 1, hi); }
    }
  }

  lemma {:induction false} NothingAbove(chain: seq<Event>, lo: nat, hi: nat)
    requires forall e :: e in chain ==> e.ledger < lo || e.ledger > hi
    ensures Between(chain, lo, hi) == []
  {
    if chain != [] {
      assert chain[|chain| - 1] in chain;
      NothingAbove(chain[..|chain| - 1], lo, hi);
    }
  }

  // ---------- every poll ----------

  /** Exactly the events from the start ledger to the cursor were handed over, in order, each once. */
  ghost predicate Sound(db: Db, chain: seq<Event>, start: nat) {
    && db.handed == Between(chain, start, db.cursor)
    && db.rows == InsertRows([], db.handed)
    && (db.cursor == 0 || start <= db.cursor + 1)
  }

  /** An empty answer for a start ledger the network has not reached: the empty range's end becomes the cursor. */
  ghost predicate StartsAhead(db: Db, chain: seq<Event>, start: nat, p: Poll) {
    && !p.crashed && db.cursor == 0 < p.latest && p.latest + 1 < start
    && Answer(db, chain, start, p) == []
  }

  /** Where the cursor goes: to the last ledger of the answer, or to the end of the range when it is empty. */
  function NewCursor(db: Db, chain: seq<Event>, start: nat, p: Poll): nat {
    var answer := Answer(db, chain, start, p);
    if answer == [] then To(db, start, p.latest) else answer[|answer| - 1].ledger
  }

  /** The answer stops short, and the first event it leaves out is not beyond the new cursor. */
  ghost predicate CutsLedger(db: Db, chain: seq<Event>, start: nat, p: Poll) {
    && !p.crashed && db.cursor < p.latest && p.count < |Asked(db, chain, start, p)|
    && Asked(db, chain, start, p)[p.count].ledger <= NewCursor(db, chain, start, p)
  }

  lemma RowsAreBehind(db: Db, chain: seq<Event>, start: nat, r: Event)
    requires Ordered(chain) && Sound(db, chain, start) && r in db.rows
    ensures r.ledger <= db.cursor && start <= r.ledger
  {
    BetweenIs(chain, start, db.cursor);
    RowsComeFrom([], db.handed, r);
  }

  /** Everything up to ledger `to` is a first part of the answer asked for, and where it ends is where the ledgers
      pass `to`. */
  lemma CutIs(chain: seq<Event>, from: nat, to: nat, head: nat, n: nat)
    requires Ordered(chain) && from <= to + 1 && to <= head && n <= |Between(chain, from, head)|
    requires n > 0 ==> Between(chain, from, head)[n - 1].ledger <= to
    ensures var all := Between(chain, from, head);
      Between(chain, from, to) == all[..n] <==> (n < |all| ==> all[n].ledger > to)
  {
    var all, near, far := Between(chain, from, head), Between(chain, from, to), Between(chain, to + 1, head);
    BetweenJoins(chain, from, to, head);
    SplitAt(all, near, far, to, n) by {
      BetweenIs(chain, from, to);
      BetweenIs(chain, to + 1, head);
      assert forall i :: 0 <= i < |near| ==> near[i] in near;
      assert forall i :: 0 <= i < |far| ==> far[i] in far;
    }
  }

  lemma SplitAt(all: seq<Event>, near: seq<Event>, far: seq<Event>, to: nat, n: nat)
    requires all == near + far && n <= |all| && (n > 0 ==> all[n - 1].ledger <= to)
    requires forall i :: 0 <= i < |near| ==> near[i].ledger <= to
    requires forall i :: 0 <= i < |far| ==> far[i].ledger > to
    ensures near == all[..n] <==> (n < |all| ==> all[n].ledger > to)
  {
    assert forall i :: |near| <= i < |all| ==> all[i] == far[i - |near|];
    if n < |near| { assert all[n] == near[n]; }
    else if n < |all| { assert all[n] == far[0]; }
  }

  lemma StartIsEmpty(chain: seq<Event>, start: nat)
    requires start >= 1
    ensures Between(chain, start, 0) == []
  {
    NothingAbove(chain, start, 0);
  }

  /** A range that begins where the promise stood. */
  lemma JoinsSound(db: Db, chain: seq<Event>, start: nat, to: nat)
    requires Ordered(chain) && start >= 1 && Sound(db, chain, start) && db.cursor < to && start <= to + 1
    ensures Between(chain, start, to) == db.handed + Between(chain, From(db, start), to)
  {
    if db.cursor == 0 { StartIsEmpty(chain, start); } else { BetweenJoins(chain, start, db.cursor, to); }
  }

  /** Advancing the cursor with an answer keeps the promise exactly when the answer is that range of the chain. */
  lemma ExtendedIsSoundIff(db: Db, chain: seq<Event>, start: nat, to: nat, answer: seq<Event>)
    requires Ordered(chain) && start >= 1 && Sound(db, chain, start) && db.cursor < to
    ensures Sound(Db(to, InsertRows(db.rows, answer), db.handed + answer), chain, start)
            <==> start <= to + 1 && answer == Between(chain, From(db, start), to)
  {
    InsertRowsAppend([], db.handed, answer);
    if start <= to + 1 {
      JoinsSound(db, chain, start, to);
      var part := Between(chain, From(db, start), to);
      if db.handed + answer == db.handed + part {
        assert answer == (db.handed + answer)[|db.handed|..] == (db.handed + part)[|db.handed|..] == part;
      }
    }
  }

  lemma AnswerIs(db: Db, chain: seq<Event>, start: nat, p: Poll)
    requires Ordered(chain) && Answer(db, chain, start, p) != []
    ensures var answer := Answer(db, chain, start, p);
      && Ordered(answer)
      && forall e :: e in answer ==> From(db, start) <= e.ledger <= p.head
  {
    BetweenIs(chain, From(db, start), p.head);
    assert forall e :: e in Answer(db, chain, start, p) ==> e in Asked(db, chain, start, p);
  }

  /** A working poll moves the cursor forward and hands over its answer. */
  lemma PollIs(db: Db, chain: seq<Event>, start: nat, p: Poll)
    requires Ordered(chain) && start >= 1 && Sound(db, chain, start) && !p.crashed && db.cursor < p.latest <= p.head
    ensures var answer, to := Answer(db, chain, start, p), NewCursor(db, chain, start, p);
      && PollStep(db, chain, start, p) == Db(to, InsertRows(db.rows, answer), db.handed + answer)
      && db.cursor < to <= p.head && (answer != [] ==> From(db, start) <= to)
  {
    var answer := Answer(db, chain, start, p);
    if answer != [] {
      AnswerIs(db, chain, start, p);
      assert answer[|answer| - 1] in answer;
      forall r, e | r in db.rows && e in answer ensures r.ledger < e.ledger { RowsAreBehind(db, chain, start, r); }
      ProcessHandsOver(db, answer);
    }
  }

  /** The new cursor against the answer: the answer is that range of the chain if and only if nothing it leaves out
      lies within. */
  lemma AnswerIsRangeIff(db: Db, chain: seq<Event>, start: nat, p: Poll)
    requires Ordered(chain) && start >= 1 && Sound(db, chain, start) && !p.crashed && db.cursor < p.latest <= p.head
    requires From(db, start) <= NewCursor(db, chain, start, p) + 1
    ensures Answer(db, chain, start, p) == Between(chain, From(db, start), NewCursor(db, chain, start, p))
            <==> !CutsLedger(db, chain, start, p)
  {
    PollIs(db, chain, start, p);
    var all, to := Asked(db, chain, start, p), NewCursor(db, chain, start, p);
    var n := if p.count < |all| then p.count else |all|;
    assert Answer(db, chain, start, p) == all[..n];
    CutIs(chain, From(db, start), to, p.head, n);
  }

  /** A poll keeps the promise if and only if it neither starts ahead of the network nor gets an answer cut within a
      ledger the cursor passes; a poll that is neither idle nor crashed moves the cursor forward. */
  lemma PollIsSoundIff(db: Db, chain: seq<Event>, start: nat, p: Poll)
    requires Ordered(chain) && start >= 1 && p.latest <= p.head && Sound(db, chain, start)
    ensures Sound(PollStep(db, chain, start, p), chain, start)
            <==> !StartsAhead(db, chain, start, p) && !CutsLedger(db, chain, start, p)
    ensures !p.crashed && db.cursor < p.latest ==> PollStep(db, chain, start, p).cursor > db.cursor
    ensures p.crashed || db.cursor >= p.latest ==> PollStep(db, chain, start, p) == db
  {
    if !p.crashed && db.cursor < p.latest {
      var answer, to := Answer(db, chain, start, p), NewCursor(db, chain, start, p);
      PollIs(db, chain, start, p);
      ExtendedIsSoundIff(db, chain, start, to, answer);
      if From(db, start) <= to + 1 { AnswerIsRangeIff(db, chain, start, p); }
    }
  }

  /** What a poll must find: the network has reached the ledger before the start, and the answer is not cut within a
      ledger the cursor passes. */
  ghost predicate Fits(db: Db, chain: seq<Event>, start: nat, p: Poll) {
    start <= p.latest + 1 && p.latest <= p.head && !CutsLedger(db, chain, start, p)
  }

  ghost predicate AllFit(chain: seq<Event>, start: nat, polls: seq<Poll>) {
    polls == []
    || (AllFit(chain, start, polls[..|polls| - 1])
        && Fits(PollRun(EMPTY_DB, chain, start, polls[..|polls| - 1]), chain, start, polls[|polls| - 1]))
  }

  /** Whatever crashes in between, the events handed over are exactly the chain's from the start ledger to the
      cursor. */
  lemma {:induction false} PollsDeliverOnce(chain: seq<Event>, start: nat, polls: seq<Poll>)
    requires Ordered(chain) && start >= 1 && AllFit(chain, start, polls)
    ensures Sound(PollRun(EMPTY_DB, chain, start, polls), chain, start)
  {
    if polls == [] {
      StartIsEmpty(chain, start);
    } else {
      var last := |polls| - 1;
      PollsDeliverOnce(chain, start, polls[..last]);
      PollIsSoundIff(PollRun(EMPTY_DB, chain, start, polls[..last]), chain, start, polls[last]);
    }
  }

  lemma FirstPollSkips(e: Event)
    requires e.ledger == 5
    ensures PollStep(EMPTY_DB, [e], 10, Poll(2, 2, 100, false)) == Db(2, [], [])
    ensures Between([e], 10, 5) == []
  {
    assert [e][..0] == [];
    assert Between([e], 10, 2) == [];
  }

  lemma SecondPollHands(e: Event)
    requires e.ledger == 5
    ensures PollStep(Db(2, [], []), [e], 10, Poll(5, 5, 100, false)).handed == [e]
  {
    assert [e][..0] == [];
    assert Between([e], 3, 5) == [e];
    ProcessHandsOver(Db(2, [], []), [e]);
  }

  /** Should the node answer a start ledger it has not reached with an empty page, two polls hand over an event from
      before the start. */
  lemma StartAheadHandsTooMuch(e: Event)
    requires e.ledger == 5
    ensures PollRun(EMPTY_DB, [e], 10, [Poll(2, 2, 100, false), Poll(5, 5, 100, false)]).handed == [e]
    ensures Between([e], 10, 5) == []
  {
    var polls := [Poll(2, 2, 100, false), Poll(5, 5, 100, false)];
    FirstPollSkips(e);
    assert polls[..1][..0] == [] && PollRun(EMPTY_DB, [e], 10, polls[..1]) == Db(2, [], []);
    SecondPollHands(e);
  }

  /** A page that ends inside a ledger loses the rest of that ledger: the second of two events is never handed over. */
  lemma CutLedgerIsLost(a: Event, b: Event, more: seq<Poll>)
    requires a.ledger == b.ledger == 5
    ensures PollRun(PollStep(EMPTY_DB, [a, b], 1, Poll(5, 5, 1, false)), [a, b], 1, more).handed == [a]
  {
    var chain := [a, b];
    assert chain[..1] == [a] && chain[..1][..0] == [];
    assert Between(chain[..1], 1, 5) == [a];
    assert Between(chain, 1, 5) == [a, b];
    assert Answer(EMPTY_DB, chain, 1, Poll(5, 5, 1, false)) == [a];
    ProcessHandsOver(EMPTY_DB, [a]);
    NothingMore(a, b, Process(EMPTY_DB, [a]), more);
  }

  lemma {:induction false} NothingMore(a: Event, b: Event, db: Db, more: seq<Poll>)
    requires a.ledger == b.ledger == 5 && db.cursor >= 5
    ensures PollRun(db, [a, b], 1, more).handed == db.handed && PollRun(db, [a, b], 1, more).cursor >= 5
  {
    if more != [] {
      var before, p := PollRun(db, [a, b], 1, more[..|more| - 1]), more[|more| - 1];
      NothingMore(a, b, db, more[..|more| - 1]);
      NothingAbove([a, b], before.cursor + 1, p.head);
    }
  }

  // ---------- what a poll asks for, stores and drops ----------

  /** A poll asks from the ledger after the cursor, for at most 200 ledgers and none beyond the latest; an empty answer
      moves the cursor to the last of them and nothing else. */
  lemma EmptyAnswerMoves(db: Db, start: nat, latest: nat)
    requires db.cursor < latest
    ensures var from := if db.cursor == 0 then start else db.cursor + 1;
      var after := Commit(db, start, latest, []);
      && after == db.(cursor := after.cursor)
      && (from + 199 < latest ==> after.cursor == from + 199) && (from + 199 >= latest ==> after.cursor == latest)
  {}

  /** Rows are only added at the end, and every event has a row of its own or one with its key. */
  lemma {:induction false} EveryEventHasARow(rows: seq<Event>, events: seq<Event>)
    ensures rows <= InsertRows(rows, events)
    ensures forall e :: e in events ==>
      || e in InsertRows(rows, events)
      || exists r :: r in InsertRows(rows, events) && r.tx == e.tx && r.topic == e.topic && r.topic != None
  {
    if events != [] {
      var before, last := InsertRows(rows, events[..|events| - 1]), events[|events| - 1];
      EveryEventHasARow(rows, events[..|events| - 1]);
      forall e | e in events
        ensures e in InsertRows(rows, events) || exists r :: r in InsertRows(rows, events) && SameKey(r, e)
      {
        if e == last {
          if i :| 0 <= i < |before| && SameKey(before[i], last) { assert before[i] in InsertRows(rows, events); }
        } else {
          assert e in events[..|events| - 1];
          if r :| r in before && SameKey(r, e) { assert r in InsertRows(rows, events); }
        }
      }
    }
  }

  lemma {:induction false} BeforeIs(rows: seq<Event>, ledger: nat, r: Event)
    ensures r in Before(rows, ledger) <==> r in rows && r.ledger < ledger
  {
    if rows != [] {
      assert rows == rows[..|rows| - 1] + [rows[|rows| - 1]];
      BeforeIs(rows[..|rows| - 1], ledger, r);
    }
  }

  /** Meeting a ledger with a stored transaction the events do not mention drops the rows from that ledger on, and only
      then is a row dropped. */
  lemma ReorganisationDrops(db: Db, ledger: nat, events: seq<Event>, r: Event)
    requires r in db.rows && r !in events
    ensures r in ProcessGroup(db, ledger, events).rows
            <==> || r.ledger < ledger
                 || !(exists q :: q in db.rows && q.ledger == ledger && forall e :: e in events ==> e.tx != q.tx)
  {
    if Reorged(db.rows, ledger, events) {
      var i :| 0 <= i < |db.rows| && db.rows[i].ledger == ledger
               && forall j :: 0 <= j < |events| ==> events[j].tx != db.rows[i].tx;
      assert db.rows[i] in db.rows;
      BeforeIs(db.rows, ledger, r);
      EveryEventHasARow(Before(db.rows, ledger), events);
      if r in InsertRows(Before(db.rows, ledger), events) { RowsComeFrom(Before(db.rows, ledger), events, r); }
    } else {
      EveryEventHasARow(db.rows, events);
    }
  }
}
