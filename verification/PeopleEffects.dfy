/** Registration, roles and reputation once more: which calls go through, and what each leaves. */
module PeopleEffects {
  import opened Prelude
  import opened Model
  import opened Participants

  predicate Admits(admins: seq<Address>, reg: Registry, op: PeopleOp) {
    match op
    case Join(a, role) => !(a in reg.participants && reg.participants[a].registered)
    case ChangeRole(a, role) => a in reg.participants && reg.participants[a].registered
    case Leave(a) => a in reg.participants
    case Punish(admin, a, delta) =>
      && admin in admins && delta < 0 && a in reg.participants
      && reg.participants[a].reputation + delta >= -0x8000_0000_0000_0000_0000_0000_0000_0000
    case Idle(a) => a in reg.participants
  }

  /** Whole days since the last activity beyond thirty. */
  function DaysOver(p: Participant, now: nat): nat {
    if now > p.lastActive + 2_592_000 then (now - p.lastActive - 2_592_000) / 86_400 else 0
  }

  function AtLeastThis(n: int, bound: int): int { if n < bound then bound else n }

  /** One record, changed to this. */
  ghost predicate OnlyRecord(reg: Registry, reg': Registry, a: Address, p: Participant) {
    && reg'.index == reg.index && reg'.participants.Keys == reg.participants.Keys && a in reg.participants
    && reg'.participants[a] == p
    && forall b :: b in reg.participants && b != a ==> reg'.participants[b] == reg.participants[b]
  }

  ghost predicate Leaves(reg: Registry, now: nat, op: PeopleOp, reg': Registry) {
    match op
    case Join(a, role) =>
      && reg'.participants == reg.participants[a := Participant(role, true, 0, 0, 0, now, Beginner, Bronze)]
      && reg'.index == reg.index + [a]
    case ChangeRole(a, role) =>
      a in reg.participants && OnlyRecord(reg, reg', a, reg.participants[a].(role := role))
    case Leave(a) =>
      && a in reg.participants && reg'.index == Without(reg.index, {a})
      && OnlyRecord(reg.(index := reg'.index), reg', a, reg.participants[a].(registered := false))
    case Punish(_, a, delta) =>
      && a in reg.participants
      && var p := reg.participants[a];
      var score := p.reputation + delta;
      OnlyRecord(reg, reg', a, p.(reputation := if score > 10_000 then 10_000 else AtLeastThis(score, -1_000)))
    case Idle(a) =>
      && a in reg.participants
      && var p := reg.participants[a];
      OnlyRecord(reg, reg', a,
                 if p.reputation > 0 && DaysOver(p, now) > 0 then
                   p.(reputation := AtLeastThis(p.reputation - DaysOver(p, now), 0), lastActive := now)
                 else p)
  }

  /** Every call goes through exactly when it is admitted, and then leaves exactly this. */
  lemma StepIs(admins: seq<Address>, reg: Registry, now: nat, op: PeopleOp)
    ensures if Admits(admins, reg, op) then Leaves(reg, now, op, PeopleStep(admins, reg, now, op))
            else PeopleStep(admins, reg, now, op) == reg
  {}

  /** An error a refused call answers names a check that failed. */
  lemma RefusalsAre(admins: seq<Address>, reg: Registry, now: nat, admin: Address, a: Address, role: Role, delta: int)
    ensures var r := Register(reg, now, a, role); r.Err? ==> r.error == AlreadyRegistered
    ensures var r := UpdateRole(reg, a, role);
      r.Err? ==> r.error == if a in reg.participants then NotRegistered else ParticipantNotFound
    ensures var r := Deregister(reg, a); r.Err? ==> r.error == ParticipantNotFound
    ensures var r := Penalize(admins, reg, admin, a, delta);
      r.Err? ==>
        || (r.error == Unauthorized && admin !in admins) || (r.error == InvalidAmount && delta >= 0)
        || (r.error == ParticipantNotFound && a !in reg.participants)
        || (r.error == Overflow && a in reg.participants)
    ensures Decay(reg, a, now).1 == if a in reg.participants then Decay(reg, a, now).0.participants[a].reputation else 0
  {}
}
