/** Minted carbon against verified materials over whole runs of the contract. */
module MintRuns {
  import opened Model
  import opened CustodyIndex
  import opened Materials
  import C = Carbon
  import opened Runs
  import opened Reachable
  import CustodyRuns
  import ValueRuns

  /** Credits minted for materials that were verified already. */
  function Reminted(s: State, c: Call): nat {
    match c.op case OnMaterial(op) => MintedAgain(s, c.now, op) case _ => 0
  }

  lemma OthersMintNothing(s: State, c: Call)
    requires !c.op.OnMaterial?
    ensures Step(s, c).market.totalCarbon == s.market.totalCarbon
    ensures Step(s, c).store.materials == s.store.materials
  {
    CustodyRuns.OthersKeepMaterials(s, c);
    if c.op.OnCarbon? { CarbonMintsNothing(s, c.op.carbon); } else { ValueRuns.OthersKeepCarbon(s, c); }
  }

  lemma CarbonMintsNothing(s: State, op: C.CarbonOp)
    ensures CarbonCall(s, op).market.totalCarbon == s.market.totalCarbon
  {}

  lemma StepMintsRuns(s: State, c: Call)
    requires IdsInv(s.store)
    ensures MintedFor(s, Step(s, c), Reminted(s, c))
  {
    if c.op.OnMaterial? { StepMintsFor(s, c.now, c.op.material); } else { OthersMintNothing(s, c); }
  }

  /** Along every run the credits ever minted are those of the verified materials plus what verifying them again minted:
      the former alone if and only if no material worth credits was verified twice. */
  lemma {:induction false} CreditsAreEarned(admin: Address, calls: seq<Call>)
    ensures var s := Run(Genesis(admin), calls);
      s.market.totalCarbon == VerifiedCredits(s.store.materials) + Flow(Genesis(admin), calls, Reminted)
  {
    if calls != [] {
      CreditsAreEarned(admin, calls[..|calls| - 1]);
      RunIsSound(admin, calls[..|calls| - 1]);
      StepMintsRuns(Run(Genesis(admin), calls[..|calls| - 1]), calls[|calls| - 1]);
    }
  }
}
