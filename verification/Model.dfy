/** The records the contract keeps in storage, and the groups of entries each area reads. */
module Model {
  import opened Prelude

  datatype Address = Address(strkey: string)

  datatype Role = Recycler | Collector | Manufacturer {
    predicate CanCollect() { Recycler? || Collector? }

    predicate CanManufacture() { Manufacturer? }

    /** How far along the chain a role sits; every permitted route climbs. */
    function Stage(): nat {
      match this
      case Recycler => 0
      case Collector => 1
      case Manufacturer => 2
    }
  }

  datatype WasteType = Paper | PetPlastic | Plastic | Metal | Glass | Organic | Electronic {
    /** Grams of CO2 equivalent per kilogram of waste. */
    function CarbonRate(): nat {
      match this
      case Paper => 1800
      case PetPlastic => 2500
      case Plastic => 2500
      case Metal => 3200
      case Glass => 800
      case Organic => 500
      case Electronic => 4000
    }

    /** The environmental impact score of this weight fits its integer; computing it is part of creating a waste. */
    predicate Scores(weight: nat) {
      match this
      case Paper => weight * 10 <= U128_MAX
      case PetPlastic => weight * 30 <= U128_MAX
      case Plastic => weight * 25 <= U128_MAX
      case Metal => weight * 40 <= U128_MAX
      case Glass => weight * 15 <= U128_MAX
      case Organic => weight * 5 <= U128_MAX
      case Electronic => weight * 50 <= U128_MAX
    }

    function PointRate(): nat {
      match this
      case Paper => 1
      case PetPlastic => 3
      case Plastic => 2
      case Metal => 5
      case Glass => 2
      case Organic => 1
      case Electronic => 6
    }
  }

  datatype Error =
    | Unauthorized | NotRegistered | AlreadyRegistered | NotManufacturer
    | NotWasteOwner | WasteNotFound | MaterialNotFound | IncentiveNotFound | ParticipantNotFound
    | InvalidAmount | InvalidWeight | InvalidPercentage | InsufficientBalance
    | CharityNotSet | TokenAddressNotSet | PaymentFailed
    | WasteDeactivated | WasteFrozen | WasteExpired | WasteReservedByOther
    | WasteAlreadyReserved | WasteNotReserved | NotReserver
    | IncentiveInactive | InsufficientBudget | MaterialNotVerified | NoRewardAvailable
    | InvalidTransferRoute | SelfTransfer | Overflow | NotCreator
    | TooFewSplits | TooManySplits | WeightMismatch
    | TooFewWastes | TooManyWastes | WasteTypeMismatch | LocationMismatch
    | TransferNotFound | NotRecipient | TransferNotPending | TransferExpired
    | InsufficientCarbonCredits | InvalidListing | ListingNotFound | ListingInactive | NotListingSeller
    | AdminListEmpty | LastAdmin | AdminNotFound | BadThreshold
    | ProposalNotFound | ProposalExecuted | ProposalExpired | AlreadyApproved | InsufficientApprovals
    | StatusNotForward | LevelOutOfRange

  type Answer<+T> = Result<T, Error>

  // ---------- participants ----------

  /** Certification and tier multipliers, in percent. */
  datatype Certification = Beginner | Intermediate | Advanced | Expert {
    function Multiplier(): nat {
      match this
      case Beginner => 100
      case Intermediate => 110
      case Advanced => 125
      case Expert => 150
    }
  }

  function CertificationFor(processed: nat): Certification {
    if processed <= 10 then Beginner
    else if processed <= 50 then Intermediate
    else if processed <= 200 then Advanced
    else Expert
  }

  datatype Tier = Bronze | Silver | Gold | Platinum {
    function Multiplier(): nat {
      match this
      case Bronze => 100
      case Silver => 110
      case Gold => 125
      case Platinum => 150
    }
  }

  function TierFor(processed: nat): Tier {
    if processed >= 2_000_000 then Platinum
    else if processed >= 500_000 then Gold
    else if processed >= 100_000 then Silver
    else Bronze
  }

  datatype Participant = Participant(
    role: Role, registered: bool, processed: nat, tokens: nat,
    reputation: int, lastActive: nat, certification: Certification, tier: Tier)

  /** Participant records and the list of registered addresses (`PART_IDX`). */
  datatype Registry = Registry(participants: map<Address, Participant>, index: seq<Address>)

  predicate Registered(reg: Registry, a: Address) {
    a in reg.participants && reg.participants[a].registered
  }

  /** Both parties registered, and the roles follow the supply chain. */
  predicate ValidRoute(reg: Registry, from: Address, to: Address) {
    && Registered(reg, from) && Registered(reg, to)
    && match (reg.participants[from].role, reg.participants[to].role)
       case (Recycler, Collector) => true
       case (Recycler, Manufacturer) => true
       case (Collector, Manufacturer) => true
       case _ => false
  }

  // ---------- waste ----------

  datatype Status = Collected | Sorted | Processed | Recycled | Manufactured {
    function Rank(): nat {
      match this
      case Collected => 0
      case Sorted => 1
      case Processed => 2
      case Recycled => 3
      case Manufactured => 4
    }
  }

  /** A version 2 waste item; `stages` is its processing history. */
  datatype Waste = Waste(
    wasteType: WasteType, weight: nat, owner: Address, latitude: int, longitude: int,
    active: bool, frozen: bool, expiresAt: nat,
    reservedBy: Option<Address>, reservedUntil: Option<nat>,
    contaminated: bool, contamination: nat,
    status: Status, stages: seq<Status>)
  {
    predicate Expired(now: nat) { expiresAt != 0 && now >= expiresAt }

    predicate Reserved(now: nat) {
      reservedBy.Some? && reservedUntil.Some? && reservedUntil.value > now
    }

    predicate ReservedAgainst(to: Address, now: nat) {
      Reserved(now) && reservedBy.value != to
    }
  }

  function NewWaste(wasteType: WasteType, weight: nat, owner: Address, latitude: int, longitude: int,
                    expiresAt: nat): Waste {
    Waste(wasteType, weight, owner, latitude, longitude, true, false, expiresAt,
          None, None, false, 0, Collected, [Collected])
  }

  /** A version 1 submission. */
  datatype Material = Material(wasteType: WasteType, weight: nat, submitter: Address, verified: bool)

  datatype Note = Transferred | AdminOverride | Approved | VersionOne | Memo(text: string)

  datatype Transfer = Transfer(
    wasteId: nat, from: Address, to: Address, at: nat, latitude: int, longitude: int, note: Note)

  datatype PendingStatus = Pending | Accepted

  datatype PendingTransfer = PendingTransfer(
    wasteId: nat, from: Address, to: Address, expiresAt: nat, status: PendingStatus,
    latitude: int, longitude: int)

  /** Everything keyed by a waste id. One counter numbers both versions. */
  datatype Store = Store(
    count: nat,
    materials: map<nat, Material>,            // "waste"
    transfers: map<nat, seq<Transfer>>,       // "transfers", version 1
    wastes: map<nat, Waste>,                  // "waste_v2"
    lists: map<Address, seq<nat>>,            // "participant_wastes"
    history: map<nat, seq<Transfer>>,         // "transfer_history", version 2
    pendingCount: nat,
    pending: map<nat, PendingTransfer>)       // "pending_xfr"

  function OwnedBy(st: Store, a: Address): seq<nat> { Lookup(st.lists, a, []) }

  function HistoryOf(st: Store, id: nat): seq<Transfer> { Lookup(st.history, id, []) }

  /** The reward paths read version 2 history first and fall back to version 1. */
  function TransferHistory(st: Store, id: nat): seq<Transfer> {
    if id in st.history then st.history[id] else Lookup(st.transfers, id, [])
  }

  // ---------- statistics and the carbon market ----------

  datatype Stats = Stats(carbon: nat, recycled: nat)

  const NO_STATS := Stats(0, 0)

  /** An entry is created the first time an address is seen. */
  function Touch(stats: map<Address, Stats>, a: Address): map<Address, Stats> {
    stats[a := Lookup(stats, a, NO_STATS)]
  }

  datatype Listing = Listing(seller: Address, amount: nat, price: nat, active: bool)

  datatype Market = Market(
    totalCarbon: nat, listingCount: nat, listings: map<nat, Listing>, index: seq<nat>)

  // ---------- rewards ----------

  datatype RewardConfig = RewardConfig(collector: nat, owner: nat)

  datatype Incentive = Incentive(
    rewarder: Address, wasteType: WasteType, points: nat,
    total: nat, remaining: nat, active: bool)

  datatype Funds = Funds(
    totalTokens: nat, config: RewardConfig, incentiveCount: nat, incentives: map<nat, Incentive>)

  // ---------- administration ----------

  datatype AdminAction =
    | ReplaceAdmins(admins: seq<Address>)
    | ChangePercentages(collector: nat, owner: nat)
    | RetireWaste(id: nat)

  datatype Proposal = Proposal(
    action: AdminAction, proposer: Address, approvers: seq<Address>, executed: bool, createdAt: nat)

  datatype Gov = Gov(
    admins: seq<Address>, threshold: nat, proposalCount: nat, proposals: map<nat, Proposal>)

  // ---------- goals ----------

  datatype Goal = Goal(target: nat, deadline: nat, wasteType: Option<WasteType>, current: nat, achieved: bool)

  // ---------- the whole contract ----------

  datatype State = State(
    reg: Registry, store: Store, stats: map<Address, Stats>, market: Market, funds: Funds, gov: Gov,
    goals: map<Address, seq<Goal>>, reports: map<nat, seq<nat>>, contaminated: seq<nat>)

  const MAX_WASTE_WEIGHT: nat := 1_000_000_000
}
