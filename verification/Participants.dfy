/** Registration, roles, and the list of registered addresses. */
module Participants {
  import opened Prelude
  import opened Model
  import opened Custody

  const DECAY_WINDOW_SECS: nat := 30 * 24 * 3600
  const DAY_SECS: nat := 86_400

  function NewParticipant(role: Role, now: nat): Participant {
    Participant(role, true, 0, 0, 0, now, Beginner, Bronze)
  }

  function Register(reg: Registry, now: nat, a: Address, role: Role): Answer<Registry> {
    if Registered(reg, a) then Err(AlreadyRegistered)
    else
      Ok(Registry(reg.participants[a := NewParticipant(role, now)], reg.index + [a]))
  }

  function UpdateRole(reg: Registry, a: Address, role: Role): Answer<Registry> {
    var p :- Find(reg.participants, a, ParticipantNotFound);
    :- Need(p.registered, NotRegistered);
    Ok(reg.(participants := reg.participants[a := p.(role := role)]))
  }

  function Deregister(reg: Registry, a: Address): Answer<Registry> {
    var p :- Find(reg.participants, a, ParticipantNotFound);
    Ok(Registry(reg.participants[a := p.(registered := false)], Without(reg.index, {a})))
  }

  function Penalize(admins: seq<Address>, reg: Registry, admin: Address, a: Address, delta: int): Answer<Registry> {
    if admin !in admins then Err(Unauthorized)
    else
      :- Need(delta < 0, InvalidAmount);
      var p :- Find(reg.participants, a, ParticipantNotFound);
      :- Need(p.reputation + delta + I128_MAX + 1 >= 0, Overflow);
      Ok(reg.(participants := reg.participants[a := p.(reputation := Clamp(p.reputation + delta))]))
  }

  /** Decay of one record: a point a day beyond the window, positive scores only, never below zero. */
  function Decayed(p: Participant, now: nat): Participant {
    var elapsed := if now > p.lastActive then now - p.lastActive else 0;
    if elapsed <= DECAY_WINDOW_SECS || p.reputation <= 0 then p
    else
      var days := (elapsed - DECAY_WINDOW_SECS) / DAY_SECS;
      if days == 0 then p
      else p.(reputation := if p.reputation > days then p.reputation - days else 0, lastActive := now)
  }

  function Decay(reg: Registry, a: Address, now: nat): (Registry, int) {
    if a in reg.participants then
      var p := Decayed(reg.participants[a], now);
      (reg.(participants := reg.participants[a := p]), p.reputation)
    else (reg, 0)
  }

  datatype PeopleOp =
    | Join(a: Address, role: Role)
    | ChangeRole(a: Address, role: Role)
    | Leave(a: Address)
    | Punish(admin: Address, a: Address, delta: int)
    | Idle(a: Address)

  function PeopleStep(admins: seq<Address>, reg: Registry, now: nat, op: PeopleOp): Registry {
    match op
    case Join(a, role) => (match Register(reg, now, a, role) case Ok(r) => r case Err(_) => reg)
    case ChangeRole(a, role) => (match UpdateRole(reg, a, role) case Ok(r) => r case Err(_) => reg)
    case Leave(a) => (match Deregister(reg, a) case Ok(r) => r case Err(_) => reg)
    case Punish(admin, a, delta) => (match Penalize(admins, reg, admin, a, delta) case Ok(r) => r case Err(_) => reg)
    case Idle(a) => Decay(reg, a, now).0
  }

  // ---------- the index is the set of registered addresses ----------

  ghost predicate IndexInv(reg: Registry) {
    && Distinct(reg.index)
    && forall a :: a in reg.index <==> a in reg.participants && reg.participants[a].registered
  }

  lemma StepKeepsIndex(admins: seq<Address>, reg: Registry, now: nat, op: PeopleOp)
    requires IndexInv(reg)
    ensures IndexInv(PeopleStep(admins, reg, now, op))
  {
    if op.Join? { DistinctSnoc(reg.index, op.a); }
  }

  // ---------- reputation ----------

  ghost predicate ReputationInv(reg: Registry) {
    forall a :: a in reg.participants ==> REP_MIN <= reg.participants[a].reputation <= REP_MAX
  }

  lemma StepKeepsReputation(admins: seq<Address>, reg: Registry, now: nat, op: PeopleOp)
    requires ReputationInv(reg)
    ensures ReputationInv(PeopleStep(admins, reg, now, op))
  {}

  lemma RewardKeepsReputation(reg: Registry, a: Address, delta: int, now: nat)
    requires ReputationInv(reg)
    ensures ReputationInv(Reward(reg, a, delta, now))
  {}

  lemma RewardKeepsIndex(reg: Registry, a: Address, delta: int, now: nat)
    requires IndexInv(reg)
    ensures IndexInv(Reward(reg, a, delta, now))
  {}

  /** Decay calls at the given times, nothing else happening in between. */
  function DecayAll(p: Participant, times: seq<nat>): Participant {
    if times == [] then p else Decayed(DecayAll(p, times[..|times| - 1]), times[|times| - 1])
  }

  predicate Ascending(times: seq<nat>) {
    forall i, j :: 0 <= i < j < |times| ==> times[i] <= times[j]
  }

  /** The score one decay call at `now` leaves, as a plain formula. */
  lemma DecayFormula(p: Participant, now: nat)
    ensures var days := if now > p.lastActive + DECAY_WINDOW_SECS
                        then (now - p.lastActive - DECAY_WINDOW_SECS) / DAY_SECS else 0;
      Decayed(p, now).reputation == if p.reputation <= 0 then p.reputation
                                    else if p.reputation > days then p.reputation - days else 0
  {}

  /** Going through an earlier call first loses no more points than going straight to the later one. */
  lemma TwoDecaysLoseLess(p: Participant, early: nat, late: nat)
    requires early <= late
    ensures Decayed(Decayed(p, early), late).reputation >= Decayed(p, late).reputation
  {
    DecayFormula(p, late);
    DecayFormula(Decayed(p, early), late);
    DecayFormula(p, early);
  }

  lemma {:induction false} EarlierDecaysLoseLess(p: Participant, times: seq<nat>, late: nat)
    requires forall i :: 0 <= i < |times| ==> times[i] <= late
    ensures Decayed(DecayAll(p, times), late).reputation >= Decayed(p, late).reputation
  {
    if times != [] {
      var last := |times| - 1;
      EarlierDecaysLoseLess(p, times[..last], late);
      TwoDecaysLoseLess(DecayAll(p, times[..last]), times[last], late);
    }
  }

  /** Any series of decay calls leaves at least what the last of them alone would have left. */
  lemma ManyDecaysLoseLess(p: Participant, times: seq<nat>)
    requires times != [] && Ascending(times)
    ensures DecayAll(p, times).reputation >= Decayed(p, times[|times| - 1]).reputation
  {
    EarlierDecaysLoseLess(p, times[..|times| - 1], times[|times| - 1]);
  }

  /** Decay never turns a positive score negative, never raises a score, and leaves the rest alone. */
  lemma {:induction false} DecayStaysAboveZero(p: Participant, times: seq<nat>)
    ensures p.reputation >= 0 ==> 0 <= DecayAll(p, times).reputation <= p.reputation
    ensures p.reputation < 0 ==> DecayAll(p, times) == p
  {
    if times != [] { DecayStaysAboveZero(p, times[..|times| - 1]); }
  }
}
