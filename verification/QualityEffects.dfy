/** Processing, goals and contamination once more: which calls go through, and what each leaves. */
module QualityEffects {
  import opened Prelude
  import opened Model
  import opened Ordering
  import opened Quality
  import opened MarketEffects

  // ---------- goals ----------

  /** A recycled waste counts towards an open goal for its type or for any; nothing else about the goal changes. */
  predicate GoalAfter(g: Goal, g': Goal, w: Waste) {
    && g'.target == g.target && g'.deadline == g.deadline && g'.wasteType == g.wasteType
    && if !g.achieved && (g.wasteType == None || g.wasteType == Some(w.wasteType)) then
         && g'.current == Capped128(g.current + w.weight)
         && (g'.achieved <==> g'.current >= g.target)
       else g'.current == g.current && g'.achieved == g.achieved
  }

  function Capped128(n: nat): nat { if n < 0x1_0000_0000_0000_0000_0000_0000_0000_0000 then n else U128_MAX }

  lemma {:induction false} AdvanceIs(goals: seq<Goal>, w: Waste)
    ensures var r := AdvanceGoals(goals, w);
      |r| == |goals| && forall i :: 0 <= i < |goals| ==> GoalAfter(goals[i], r[i], w)
  {
    if goals != [] {
      AdvanceIs(goals[..|goals| - 1], w);
      assert GoalAfter(goals[|goals| - 1], Quality.Advanced(goals[|goals| - 1], w), w);
    }
  }

  function OpenAt(goals: seq<Goal>): set<nat> { set i | 0 <= i < |goals| && !goals[i].achieved }

  lemma {:induction false} OpenGoalsAre(goals: seq<Goal>)
    ensures OpenGoals(goals) == |OpenAt(goals)|
  {
    if goals != [] {
      var last: nat := |goals| - 1;
      OpenGoalsAre(goals[..last]);
      assert last !in OpenAt(goals[..last]);
      assert OpenAt(goals) == OpenAt(goals[..last]) + if goals[last].achieved then {} else {last};
    }
  }

  // ---------- which calls go through ----------

  function GoalsOf(s: State, a: Address): seq<Goal> { if a in s.goals then s.goals[a] else [] }

  function LevelsOf(s: State, id: nat): seq<nat> { if id in s.reports then s.reports[id] else [] }

  /** Collected, sorted, processed, recycled, manufactured: only forward, skipping allowed. */
  predicate Forward(from: Status, to: Status) {
    match from
    case Collected => to != Collected
    case Sorted => to == Processed || to == Recycled || to == Manufactured
    case Processed => to == Recycled || to == Manufactured
    case Recycled => to == Manufactured
    case Manufactured => false
  }

  ghost predicate Admits(s: State, now: nat, op: QualityOp) {
    match op
    case Advance(id, a, status) =>
      id in s.store.wastes && s.store.wastes[id].owner == a && Forward(s.store.wastes[id].status, status)
    case Aim(a, target, deadline, _) =>
      && a in s.reg.participants && target > 0 && now + 2_592_000 <= deadline <= now + 31_536_000
      && |OpenAt(GoalsOf(s, a))| < 5
    case Mark(id, a, level) =>
      && level <= 100 && Registered(s.reg, a) && s.reg.participants[a].role == Recycler && id in s.store.wastes
    case Report(id, a, level) => level <= 100 && a in s.reg.participants && id in s.store.wastes
  }

  // ---------- what they leave ----------

  /** One waste changed, to this. */
  ghost predicate OnlyWaste(s: State, s': State, id: nat, w: Waste) {
    && id in s.store.wastes && s'.store == s.store.(wastes := s'.store.wastes)
    && s'.store.wastes.Keys == s.store.wastes.Keys && s'.store.wastes[id] == w
    && forall i :: i in s.store.wastes && i != id ==> s'.store.wastes[i] == s.store.wastes[i]
  }

  /** The waste is marked at this level and on the list once. */
  ghost predicate MarkedAt(s: State, s': State, id: nat, level: nat) {
    && id in s.store.wastes
    && OnlyWaste(s, s', id, s.store.wastes[id].(contaminated := true, contamination := level))
    && s'.contaminated == if id in s.contaminated then s.contaminated else s.contaminated + [id]
  }

  /** One of the levels; more than half are at or below it, at least half at or above. */
  ghost predicate Middle(levels: seq<nat>, m: nat) {
    && m in levels && Count(levels, AtMost(m)) >= |levels| / 2 + 1
    && Count(levels, AtLeast(m)) >= |levels| - |levels| / 2
  }

  /** Recycling counts the weight for its owner: on the account, up to the ceiling, and on the open goals. */
  ghost predicate CountedFor(s: State, s': State, a: Address, w: Waste) {
    && (forall b ::
          && RecycledAt(s'.stats, b)
             == (if b == a then Capped128(RecycledAt(s.stats, a) + w.weight) else RecycledAt(s.stats, b))
          && CarbonAt(s'.stats, b) == CarbonAt(s.stats, b) && (b in s'.stats <==> b in s.stats || b == a))
    && s'.goals.Keys == s.goals.Keys && (forall b :: b in s.goals && b != a ==> s'.goals[b] == s.goals[b])
    && |GoalsOf(s', a)| == |GoalsOf(s, a)|
    && forall i :: 0 <= i < |GoalsOf(s, a)| ==> GoalAfter(GoalsOf(s, a)[i], GoalsOf(s', a)[i], w)
  }

  ghost predicate Leaves(s: State, now: nat, op: QualityOp, s': State) {
    match op
    case Advance(id, a, status) =>
      && id in s.store.wastes && s' == s.(store := s'.store, stats := s'.stats, goals := s'.goals)
      && var w := s.store.wastes[id];
      && OnlyWaste(s, s', id, w.(status := status, stages := w.stages + [status]))
      && if status == Recycled then CountedFor(s, s', a, w) else s'.stats == s.stats && s'.goals == s.goals
    case Aim(a, target, deadline, wt) =>
      s' == s.(goals := s.goals[a := GoalsOf(s, a) + [Goal(target, deadline, wt, 0, false)]])
    case Mark(id, _, level) =>
      s' == s.(store := s'.store, contaminated := s'.contaminated) && MarkedAt(s, s', id, level)
    case Report(id, _, level) =>
      && id in s.store.wastes && s' == s.(store := s'.store, reports := s'.reports, contaminated := s'.contaminated)
      && s'.reports == s.reports[id := LevelsOf(s, id) + [level]]
      && if |LevelsOf(s', id)| >= 3 && !s.store.wastes[id].contaminated then
           exists m :: Middle(LevelsOf(s', id), m) && MarkedAt(s, s', id, m)
         else s'.store == s.store && s'.contaminated == s.contaminated
  }

  lemma AdvanceCallIs(s: State, now: nat, id: nat, a: Address, status: Status)
    ensures var s', op := QualityStep(s, now, Advance(id, a, status)), Advance(id, a, status);
      if Admits(s, now, op) then Leaves(s, now, op, s') else s' == s
  {
    if Admits(s, now, Advance(id, a, status)) {
      MovesOn(s, now, id, a, status);
      if status == Recycled { CountsFor(s, now, id, a); }
    }
  }

  lemma MovesOn(s: State, now: nat, id: nat, a: Address, status: Status)
    requires id in s.store.wastes && s.store.wastes[id].owner == a && Forward(s.store.wastes[id].status, status)
    ensures var s', w := QualityStep(s, now, Advance(id, a, status)), s.store.wastes[id];
      && s' == s.(store := s'.store, stats := s'.stats, goals := s'.goals)
      && OnlyWaste(s, s', id, w.(status := status, stages := w.stages + [status]))
      && (status != Recycled ==> s'.stats == s.stats && s'.goals == s.goals)
  {}

  lemma CountsFor(s: State, now: nat, id: nat, a: Address)
    requires id in s.store.wastes && s.store.wastes[id].owner == a && Forward(s.store.wastes[id].status, Recycled)
    ensures CountedFor(s, QualityStep(s, now, Advance(id, a, Recycled)), a, s.store.wastes[id])
  {
    AdvanceIs(GoalsOf(s, a), s.store.wastes[id]);
  }

  lemma AimIs(s: State, now: nat, a: Address, target: nat, deadline: nat, wt: Option<WasteType>)
    ensures var s', op := QualityStep(s, now, Aim(a, target, deadline, wt)), Aim(a, target, deadline, wt);
      if Admits(s, now, op) then Leaves(s, now, op, s') else s' == s
  {
    OpenGoalsAre(GoalsOf(s, a));
  }

  lemma MarkIs(s: State, now: nat, id: nat, a: Address, level: nat)
    ensures var s', op := QualityStep(s, now, Mark(id, a, level)), Mark(id, a, level);
      if Admits(s, now, op) then Leaves(s, now, op, s') else s' == s
  {}

  lemma ReportIs(s: State, now: nat, id: nat, a: Address, level: nat)
    ensures var s', op := QualityStep(s, now, Report(id, a, level)), Report(id, a, level);
      if Admits(s, now, op) then Leaves(s, now, op, s') else s' == s
  {
    var s', levels := QualityStep(s, now, Report(id, a, level)), LevelsOf(s, id) + [level];
    if Admits(s, now, Report(id, a, level)) && |levels| >= 3 && !s.store.wastes[id].contaminated {
      MedianIsMiddle(levels);
      assert Middle(LevelsOf(s', id), Median(levels)) && MarkedAt(s, s', id, Median(levels));
    }
  }

  /** Every call goes through exactly when it is admitted, and then leaves exactly this. */
  lemma StepIs(s: State, now: nat, op: QualityOp)
    ensures if Admits(s, now, op) then Leaves(s, now, op, QualityStep(s, now, op)) else QualityStep(s, now, op) == s
  {
    match op
    case Advance(id, a, status) => AdvanceCallIs(s, now, id, a, status);
    case Aim(a, target, deadline, wt) => AimIs(s, now, a, target, deadline, wt);
    case Mark(id, a, level) => MarkIs(s, now, id, a, level);
    case Report(id, a, level) => ReportIs(s, now, id, a, level);
  }

  /** There is only one middle level. */
  lemma MiddleIsUnique(levels: seq<nat>, m: nat, n: nat)
    requires levels != [] && Middle(levels, m) && Middle(levels, n) && m <= n
    ensures m == n
  {
    if m < n { BelowAndAbove(levels, m, n); }
  }

  lemma {:induction false} BelowAndAbove(levels: seq<nat>, m: nat, n: nat)
    requires m < n
    ensures Count(levels, AtMost(m)) + Count(levels, AtLeast(n)) <= |levels|
  {
    if levels != [] { BelowAndAbove(levels[..|levels| - 1], m, n); }
  }

  // ---------- refusals ----------

  /** An error a refused call may answer names a check that failed. */
  ghost predicate Blames(s: State, now: nat, op: QualityOp, e: Error) {
    match op
    case Advance(id, a, status) =>
      || (e == WasteNotFound && id !in s.store.wastes)
      || (e == NotWasteOwner && id in s.store.wastes && s.store.wastes[id].owner != a)
      || (e == StatusNotForward && id in s.store.wastes && !Forward(s.store.wastes[id].status, status))
    case Aim(a, target, deadline, _) =>
      || (e == NotRegistered && a !in s.reg.participants)
      || (e == InvalidAmount && (target == 0 || !(now + 2_592_000 <= deadline <= now + 31_536_000)))
      || (e == InvalidAmount && |OpenAt(GoalsOf(s, a))| >= 5)
    case Mark(id, a, level) =>
      || (e == LevelOutOfRange && level > 100) || (e == WasteNotFound && id !in s.store.wastes)
      || (e == NotRegistered && !Registered(s.reg, a))
      || (e == Unauthorized && Registered(s.reg, a) && s.reg.participants[a].role != Recycler)
    case Report(id, a, level) =>
      || (e == LevelOutOfRange && level > 100) || (e == WasteNotFound && id !in s.store.wastes)
      || (e == NotRegistered && a !in s.reg.participants)
  }

  lemma StatusRefusalsAre(s: State, now: nat, id: nat, a: Address, status: Status)
    ensures var r := UpdateStatus(s.store, s.stats, s.goals, id, a, status);
      r.Err? ==> Blames(s, now, Advance(id, a, status), r.error)
  {}

  lemma GoalRefusalsAre(s: State, now: nat, a: Address, target: nat, deadline: nat, wt: Option<WasteType>)
    ensures var r := SetGoal(s.reg, s.goals, now, a, target, deadline, wt);
      r.Err? ==> Blames(s, now, Aim(a, target, deadline, wt), r.error)
  {
    OpenGoalsAre(GoalsOf(s, a));
  }

  lemma LevelRefusalsAre(s: State, now: nat, id: nat, a: Address, level: nat)
    ensures var r := MarkContaminated(s.reg, s.store, s.contaminated, id, a, level);
      r.Err? ==> Blames(s, now, Mark(id, a, level), r.error)
    ensures var r := ReportContamination(s.reg, s.store, s.reports, s.contaminated, id, a, level);
      r.Err? ==> Blames(s, now, Report(id, a, level), r.error)
  {}
}
