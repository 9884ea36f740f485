/** Processing status with recycled weight and goals, and contamination marks and reports. */
module Quality {
  import opened Prelude
  import opened Model
  import opened Ordering

  const MONTH_SECS: nat := 30 * 24 * 60 * 60
  const YEAR_SECS: nat := 365 * 24 * 60 * 60
  const MAX_OPEN_GOALS: nat := 5
  const REPORTS_TO_MARK: nat := 3

  function SaturatingAdd(a: nat, b: nat): nat { if a + b > U128_MAX then U128_MAX else a + b }

  // ---------- processing ----------

  /** One goal's progress when its owner's waste is recycled; achieved goals and other types are left alone. */
  function Advanced(g: Goal, w: Waste): Goal {
    if !g.achieved && (g.wasteType == None || g.wasteType == Some(w.wasteType)) then
      var current := SaturatingAdd(g.current, w.weight);
      g.(current := current, achieved := current >= g.target)
    else g
  }

  function AdvanceGoals(goals: seq<Goal>, w: Waste): seq<Goal> {
    if goals == [] then [] else AdvanceGoals(goals[..|goals| - 1], w) + [Advanced(goals[|goals| - 1], w)]
  }

  function UpdateStatus(st: Store, stats: map<Address, Stats>, goals: map<Address, seq<Goal>>,
                        id: nat, caller: Address, status: Status)
    : Answer<(Store, map<Address, Stats>, map<Address, seq<Goal>>)>
  {
    var w :- Find(st.wastes, id, WasteNotFound);
    :- Need(w.owner == caller, NotWasteOwner);
    :- Need(status.Rank() > w.status.Rank(), StatusNotForward);
    var st' := st.(wastes := st.wastes[id := w.(status := status, stages := w.stages + [status])]);
    if status == Recycled then
      var had := Lookup(stats, caller, NO_STATS);
      Ok((st', stats[caller := had.(recycled := SaturatingAdd(had.recycled, w.weight))],
          if caller in goals then goals[caller := AdvanceGoals(goals[caller], w)] else goals))
    else Ok((st', stats, goals))
  }

  function OpenGoals(goals: seq<Goal>): nat {
    if goals == [] then 0 else OpenGoals(goals[..|goals| - 1]) + if goals[|goals| - 1].achieved then 0 else 1
  }

  function SetGoal(reg: Registry, goals: map<Address, seq<Goal>>, now: nat, a: Address, target: nat, deadline: nat,
                   wasteType: Option<WasteType>): Answer<map<Address, seq<Goal>>>
  {
    if a !in reg.participants then Err(NotRegistered)
    else
      :- Need(target > 0, InvalidAmount);
      :- Need(now + MONTH_SECS <= deadline <= now + YEAR_SECS, InvalidAmount);
      var mine := Lookup(goals, a, []);
      :- Need(OpenGoals(mine) < MAX_OPEN_GOALS, InvalidAmount);
      Ok(goals[a := mine + [Goal(target, deadline, wasteType, 0, false)]])
  }

  // ---------- contamination ----------

  function Listed(list: seq<nat>, id: nat): seq<nat> { if id in list then list else list + [id] }

  function MarkContaminated(reg: Registry, st: Store, list: seq<nat>, id: nat, verifier: Address, level: nat)
    : Answer<(Store, seq<nat>)>
  {
    if level > 100 then Err(LevelOutOfRange)
    else
      :- Need(Registered(reg, verifier), NotRegistered);
      :- Need(reg.participants[verifier].role == Recycler, Unauthorized);
      var w :- Find(st.wastes, id, WasteNotFound);
      Ok((st.(wastes := st.wastes[id := w.(contaminated := true, contamination := level)]), Listed(list, id)))
  }

  /** The third report and every later one marks a clean waste at the median reported level. */
  function ReportContamination(reg: Registry, st: Store, reports: map<nat, seq<nat>>, list: seq<nat>,
                               id: nat, reporter: Address, level: nat)
    : Answer<(Store, map<nat, seq<nat>>, seq<nat>)>
  {
    if level > 100 then Err(LevelOutOfRange)
    else
      :- Need(reporter in reg.participants, NotRegistered);
      var w :- Find(st.wastes, id, WasteNotFound);
      var levels := Lookup(reports, id, []) + [level];
      var reports' := reports[id := levels];
      if |levels| >= REPORTS_TO_MARK && !w.contaminated then
        Ok((st.(wastes := st.wastes[id := w.(contaminated := true, contamination := Median(levels))]),
            reports', Listed(list, id)))
      else Ok((st, reports', list))
  }

  datatype QualityOp =
    | Advance(id: nat, caller: Address, status: Status)
    | Aim(a: Address, target: nat, deadline: nat, wasteType: Option<WasteType>)
    | Mark(id: nat, verifier: Address, level: nat)
    | Report(id: nat, reporter: Address, level: nat)

  function QualityStep(s: State, now: nat, op: QualityOp): State {
    match op
    case Advance(id, a, status) =>
      (match UpdateStatus(s.store, s.stats, s.goals, id, a, status)
       case Ok(r) => s.(store := r.0, stats := r.1, goals := r.2) case Err(_) => s)
    case Aim(a, target, deadline, wt) =>
      (match SetGoal(s.reg, s.goals, now, a, target, deadline, wt) case Ok(g) => s.(goals := g) case Err(_) => s)
    case Mark(id, a, level) =>
      (match MarkContaminated(s.reg, s.store, s.contaminated, id, a, level)
       case Ok(r) => s.(store := r.0, contaminated := r.1) case Err(_) => s)
    case Report(id, a, level) =>
      (match ReportContamination(s.reg, s.store, s.reports, s.contaminated, id, a, level)
       case Ok(r) => s.(store := r.0, reports := r.1, contaminated := r.2) case Err(_) => s)
  }

  // ---------- goals ----------

  /** Achieved means reached, and at most five goals are open. */
  ghost predicate GoalsInv(goals: map<Address, seq<Goal>>) {
    forall a :: a in goals ==> GoodGoals(goals[a])
  }

  ghost predicate GoodGoals(goals: seq<Goal>) {
    && OpenGoals(goals) <= MAX_OPEN_GOALS
    && forall i :: 0 <= i < |goals| ==> (goals[i].achieved <==> goals[i].current >= goals[i].target)
  }

  lemma {:induction false} AdvanceKeepsGoals(goals: seq<Goal>, w: Waste)
    requires forall i :: 0 <= i < |goals| ==> (goals[i].achieved <==> goals[i].current >= goals[i].target)
    ensures var r := AdvanceGoals(goals, w);
      && |r| == |goals| && OpenGoals(r) <= OpenGoals(goals)
      && forall i :: 0 <= i < |r| ==> (r[i].achieved <==> r[i].current >= r[i].target)
  {
    if goals != [] {
      var init := goals[..|goals| - 1];
      AdvanceKeepsGoals(init, w);
      assert AdvanceGoals(goals, w)[..|goals| - 1] == AdvanceGoals(init, w);
    }
  }

  lemma SetKeepsGoals(reg: Registry, goals: map<Address, seq<Goal>>, now: nat, a: Address, target: nat, deadline: nat,
                      wasteType: Option<WasteType>)
    requires GoalsInv(goals) && SetGoal(reg, goals, now, a, target, deadline, wasteType).Ok?
    ensures GoalsInv(SetGoal(reg, goals, now, a, target, deadline, wasteType).value)
  {
    var mine := Lookup(goals, a, []);
    assert (mine + [Goal(target, deadline, wasteType, 0, false)])[..|mine|] == mine;
  }

  lemma StatusKeepsGoals(st: Store, stats: map<Address, Stats>, goals: map<Address, seq<Goal>>,
                         id: nat, caller: Address, status: Status)
    requires GoalsInv(goals) && UpdateStatus(st, stats, goals, id, caller, status).Ok?
    ensures GoalsInv(UpdateStatus(st, stats, goals, id, caller, status).value.2)
  {
    if caller in goals { AdvanceKeepsGoals(goals[caller], st.wastes[id]); }
  }

  lemma StepKeepsGoals(s: State, now: nat, op: QualityOp)
    requires GoalsInv(s.goals)
    ensures GoalsInv(QualityStep(s, now, op).goals)
  {
    match op
    case Advance(id, a, status) =>
      if UpdateStatus(s.store, s.stats, s.goals, id, a, status).Ok? {
        StatusKeepsGoals(s.store, s.stats, s.goals, id, a, status);
      }
    case Aim(a, target, deadline, wt) =>
      if SetGoal(s.reg, s.goals, now, a, target, deadline, wt).Ok? {
        SetKeepsGoals(s.reg, s.goals, now, a, target, deadline, wt);
      }
    case _ =>
  }

  // ---------- stages ----------

  /** A waste's stages climb without repetition and end at its status, so it is recycled at most once. */
  ghost predicate StagesInv(wastes: map<nat, Waste>) {
    forall id :: id in wastes ==> GoodStages(wastes[id])
  }

  ghost predicate GoodStages(w: Waste) {
    && w.stages != [] && w.stages[0] == Collected && w.stages[|w.stages| - 1] == w.status
    && forall i, j :: 0 <= i < j < |w.stages| ==> w.stages[i].Rank() < w.stages[j].Rank()
  }

  lemma RecycledOnce(w: Waste)
    requires GoodStages(w)
    ensures multiset(w.stages)[Recycled] <= 1
    ensures w.status == Recycled ==> Recycled in w.stages
  {
    RankedAreDistinct(w.stages);
  }

  lemma {:induction false} RankedAreDistinct(stages: seq<Status>)
    requires forall i, j :: 0 <= i < j < |stages| ==> stages[i].Rank() < stages[j].Rank()
    ensures multiset(stages)[Recycled] <= 1
  {
    if stages != [] {
      var init := stages[..|stages| - 1];
      assert stages == init + [stages[|stages| - 1]];
      RankedAreDistinct(init);
      if Recycled in init { assert stages[|stages| - 1] != Recycled; }
    }
  }

  // ---------- the contaminated list ----------

  /** The global list holds exactly the contaminated wastes, each once. */
  ghost predicate ContaminationInv(wastes: map<nat, Waste>, list: seq<nat>) {
    Distinct(list) && forall id :: id in list <==> id in wastes && wastes[id].contaminated
  }

  lemma ListKeeps(wastes: map<nat, Waste>, list: seq<nat>, id: nat, w: Waste)
    requires ContaminationInv(wastes, list) && id in wastes && w.contaminated
    ensures ContaminationInv(wastes[id := w], Listed(list, id))
  {
    DistinctSnoc(list, id);
  }

  lemma EditKeepsList(wastes: map<nat, Waste>, list: seq<nat>, id: nat, w: Waste)
    requires ContaminationInv(wastes, list) && id in wastes && w.contaminated == wastes[id].contaminated
    ensures ContaminationInv(wastes[id := w], list)
  {}

  lemma StepKeepsContamination(s: State, now: nat, op: QualityOp)
    requires ContaminationInv(s.store.wastes, s.contaminated)
    ensures ContaminationInv(QualityStep(s, now, op).store.wastes, QualityStep(s, now, op).contaminated)
  {
    match op
    case Advance(id, a, status) =>
      if UpdateStatus(s.store, s.stats, s.goals, id, a, status).Ok? {
        var w := s.store.wastes[id];
        EditKeepsList(s.store.wastes, s.contaminated, id, w.(status := status, stages := w.stages + [status]));
      }
    case Aim(_, _, _, _) =>
    case Mark(id, a, level) =>
      if MarkContaminated(s.reg, s.store, s.contaminated, id, a, level).Ok? {
        ListKeeps(s.store.wastes, s.contaminated, id,
                  s.store.wastes[id].(contaminated := true, contamination := level));
      }
    case Report(id, a, level) =>
      if ReportContamination(s.reg, s.store, s.reports, s.contaminated, id, a, level).Ok? {
        ReportKeepsList(s, id, a, level);
      }
  }

  lemma ReportKeepsList(s: State, id: nat, a: Address, level: nat)
    requires ContaminationInv(s.store.wastes, s.contaminated)
    requires ReportContamination(s.reg, s.store, s.reports, s.contaminated, id, a, level).Ok?
    ensures var r := ReportContamination(s.reg, s.store, s.reports, s.contaminated, id, a, level).value;
      ContaminationInv(r.0.wastes, r.2)
  {
    var r := ReportContamination(s.reg, s.store, s.reports, s.contaminated, id, a, level).value;
    if r.0 != s.store { ListKeeps(s.store.wastes, s.contaminated, id, r.0.wastes[id]); }
  }

  lemma StepKeepsStages(s: State, now: nat, op: QualityOp)
    requires StagesInv(s.store.wastes)
    ensures StagesInv(QualityStep(s, now, op).store.wastes)
  {
    match op
    case Advance(id, a, status) =>
      if UpdateStatus(s.store, s.stats, s.goals, id, a, status).Ok? { StatusKeepsStages(s, id, a, status); }
    case Aim(_, _, _, _) =>
    case _ => MarksOnlyMark(s, now, op);
  }

  lemma StatusKeepsStages(s: State, id: nat, a: Address, status: Status)
    requires StagesInv(s.store.wastes) && UpdateStatus(s.store, s.stats, s.goals, id, a, status).Ok?
    ensures StagesInv(UpdateStatus(s.store, s.stats, s.goals, id, a, status).value.0.wastes)
  {
    assert GoodStages(s.store.wastes[id]);
  }

  // ---------- recycled weight ----------

  function RecycledOf(s: Stats): nat { s.recycled }

  function WeightRecycled(w: Waste): nat { if Recycled in w.stages then w.weight else 0 }

  ghost function RecycledTotal(stats: map<Address, Stats>): nat { MapSum(stats, RecycledOf) }

  ghost function RecycledWeights(wastes: map<nat, Waste>): nat { MapSum(wastes, WeightRecycled) }

  /** What an accepted recycling pushes past the 128-bit ceiling of its caller's account. */
  function Capped(s: State, op: QualityOp): nat {
    match op
    case Advance(id, a, status) =>
      if status == Recycled && UpdateStatus(s.store, s.stats, s.goals, id, a, status).Ok? then
        var sum := Lookup(s.stats, a, NO_STATS).recycled + s.store.wastes[id].weight;
        if sum > U128_MAX then sum - U128_MAX else 0
      else 0
    case _ => 0
  }

  lemma StatusMovesBoth(s: State, id: nat, a: Address, status: Status)
    requires StagesInv(s.store.wastes) && UpdateStatus(s.store, s.stats, s.goals, id, a, status).Ok?
    ensures var r := UpdateStatus(s.store, s.stats, s.goals, id, a, status).value;
      RecycledTotal(r.1) + Capped(s, Advance(id, a, status)) + RecycledWeights(s.store.wastes)
      == RecycledTotal(s.stats) + RecycledWeights(r.0.wastes)
  {
    var r := UpdateStatus(s.store, s.stats, s.goals, id, a, status).value;
    var w := s.store.wastes[id];
    MapSumSet(s.store.wastes, id, r.0.wastes[id], WeightRecycled);
    MapSumAtLeast(s.store.wastes, id, WeightRecycled);
    if status == Recycled {
      assert Recycled !in w.stages;
      MapSumSet(s.stats, a, r.1[a], RecycledOf);
    }
  }

  /** Recycled weight on the accounts and recycled weight of the wastes move together, up to what the ceiling cuts. */
  lemma StepRecycled(s: State, now: nat, op: QualityOp)
    requires StagesInv(s.store.wastes)
    ensures var s' := QualityStep(s, now, op);
      RecycledTotal(s'.stats) + Capped(s, op) + RecycledWeights(s.store.wastes)
      == RecycledTotal(s.stats) + RecycledWeights(s'.store.wastes)
  {
    match op
    case Advance(id, a, status) =>
      if UpdateStatus(s.store, s.stats, s.goals, id, a, status).Ok? { StatusMovesBoth(s, id, a, status); }
    case Aim(_, _, _, _) =>
    case _ => MarksKeepWeights(s, now, op);
  }

  lemma MarksKeepWeights(s: State, now: nat, op: QualityOp)
    requires op.Mark? || op.Report?
    ensures QualityStep(s, now, op).stats == s.stats
    ensures RecycledWeights(QualityStep(s, now, op).store.wastes) == RecycledWeights(s.store.wastes)
  {
    var after := QualityStep(s, now, op).store.wastes;
    MarksOnlyMark(s, now, op);
    MapSumSame(s.store.wastes, after, WeightRecycled);
  }

  /** Marking rewrites only the contamination fields. */
  ghost predicate OnlyMarks(st: Store, after: Store) {
    && after == st.(wastes := after.wastes) && after.wastes.Keys == st.wastes.Keys
    && forall id :: id in after.wastes ==>
      after.wastes[id] == st.wastes[id].(contaminated := after.wastes[id].contaminated,
                                         contamination := after.wastes[id].contamination)
  }

  lemma MarkOne(st: Store, id: nat, level: nat)
    requires id in st.wastes
    ensures OnlyMarks(st, st.(wastes := st.wastes[id := st.wastes[id].(contaminated := true, contamination := level)]))
  {}

  lemma MarksOnlyMark(s: State, now: nat, op: QualityOp)
    requires op.Mark? || op.Report?
    ensures OnlyMarks(s.store, QualityStep(s, now, op).store)
  {
    match op
    case Mark(id, a, level) =>
      if MarkContaminated(s.reg, s.store, s.contaminated, id, a, level).Ok? { MarkOne(s.store, id, level); }
    case Report(id, a, level) =>
      if ReportContamination(s.reg, s.store, s.reports, s.contaminated, id, a, level).Ok? {
        ReportMarks(s.reg, s.store, s.reports, s.contaminated, id, a, level);
      }
  }

  lemma ReportMarks(reg: Registry, st: Store, reports: map<nat, seq<nat>>, list: seq<nat>, id: nat, a: Address,
                    level: nat)
    requires ReportContamination(reg, st, reports, list, id, a, level).Ok?
    ensures OnlyMarks(st, ReportContamination(reg, st, reports, list, id, a, level).value.0)
  {
    MarkOne(st, id, Median(Lookup(reports, id, []) + [level]));
  }
}
