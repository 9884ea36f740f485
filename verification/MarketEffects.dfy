/** The carbon market account by account: which calls go through, and whose credits each moves. */
module MarketEffects {
  import opened Prelude
  import opened Model
  import opened Carbon

  function CarbonAt(stats: map<Address, Stats>, a: Address): nat { if a in stats then stats[a].carbon else 0 }

  function RecycledAt(stats: map<Address, Stats>, a: Address): nat { if a in stats then stats[a].recycled else 0 }

  predicate Admits(stats: map<Address, Stats>, market: Market, op: CarbonOp) {
    match op
    case Redeem(a, amount) => 0 < amount <= CarbonAt(stats, a)
    case List(a, amount, price) => 0 < amount <= CarbonAt(stats, a) && price > 0 && market.listingCount < U64_MAX
    case Unlist(id, a) =>
      && id in market.listings && market.listings[id].active && market.listings[id].seller == a
      && CarbonAt(stats, a) + market.listings[id].amount <= U128_MAX
    case Buy(id, a, tokenSet, paid) =>
      && id in market.listings && market.listings[id].active && market.listings[id].seller != a && tokenSet && paid
      && market.listings[id].amount * market.listings[id].price <= I128_MAX
      && CarbonAt(stats, a) + market.listings[id].amount <= U128_MAX
  }

  /** Credits an admitted call brings to an account: the listing's amount, to its seller or to its buyer. */
  function Gained(market: Market, op: CarbonOp, a: Address): nat {
    match op
    case Unlist(id, seller) => if a == seller && id in market.listings then market.listings[id].amount else 0
    case Buy(id, buyer, _, _) => if a == buyer && id in market.listings then market.listings[id].amount else 0
    case _ => 0
  }

  /** Credits it takes from an account: those redeemed or put up for sale. */
  function GivenUp(op: CarbonOp, a: Address): nat {
    match op
    case Redeem(b, amount) => if a == b then amount else 0
    case List(b, amount, _) => if a == b then amount else 0
    case _ => 0
  }

  /** Every account: up by what it gained, down by what it gave up; recycled weight untouched. */
  ghost predicate Accounts(stats: map<Address, Stats>, market: Market, op: CarbonOp, after: map<Address, Stats>) {
    forall a ::
      && CarbonAt(after, a) + GivenUp(op, a) == CarbonAt(stats, a) + Gained(market, op, a)
      && RecycledAt(after, a) == RecycledAt(stats, a)
      && (a in after <==> a in stats || a == Caller(op))
  }

  function Caller(op: CarbonOp): Address {
    match op
    case Redeem(a, _) => a
    case List(a, _, _) => a
    case Unlist(_, a) => a
    case Buy(_, a, _, _) => a
  }

  /** The listing is closed and off the index; every other listing is as it was. */
  ghost predicate Closed(market: Market, after: Market, id: nat) {
    && id in market.listings && after.listings.Keys == market.listings.Keys
    && after.listings[id] == market.listings[id].(active := false)
    && (forall i :: i in market.listings && i != id ==> after.listings[i] == market.listings[i])
    && after.index == Without(market.index, {id}) && after.listingCount == market.listingCount
  }

  ghost predicate Listings(market: Market, op: CarbonOp, after: Market) {
    && after.totalCarbon == market.totalCarbon
    && match op
       case Redeem(_, _) => after == market
       case List(a, amount, price) =>
         && price >= 0 && after.listingCount == market.listingCount + 1
         && after.listings == market.listings[after.listingCount := Listing(a, amount, price, true)]
         && after.index == market.index + [after.listingCount]
       case Unlist(id, _) => Closed(market, after, id)
       case Buy(id, _, _, _) => Closed(market, after, id)
  }

  /** Every market call goes through exactly when it is admitted, and then moves exactly these credits. */
  lemma StepIs(stats: map<Address, Stats>, market: Market, op: CarbonOp)
    ensures var r := CarbonStep(stats, market, op);
      if Admits(stats, market, op) then Accounts(stats, market, op, r.0) && Listings(market, op, r.1)
      else r == (stats, market)
  {
    match op
    case Redeem(a, amount) => RedeemIs(stats, market, a, amount);
    case List(a, amount, price) => ListIs(stats, market, a, amount, price);
    case Unlist(id, a) => UnlistIs(stats, market, id, a);
    case Buy(id, a, tokenSet, paid) => BuyIs(stats, market, id, a, tokenSet, paid);
  }

  ghost predicate Does(stats: map<Address, Stats>, market: Market, op: CarbonOp) {
    var r := CarbonStep(stats, market, op);
    if Admits(stats, market, op) then Accounts(stats, market, op, r.0) && Listings(market, op, r.1)
    else r == (stats, market)
  }

  lemma RedeemIs(stats: map<Address, Stats>, market: Market, a: Address, amount: nat)
    ensures Does(stats, market, Redeem(a, amount))
  {}

  lemma ListIs(stats: map<Address, Stats>, market: Market, a: Address, amount: nat, price: int)
    ensures Does(stats, market, List(a, amount, price))
  {}

  lemma UnlistIs(stats: map<Address, Stats>, market: Market, id: nat, a: Address)
    ensures Does(stats, market, Unlist(id, a))
  {}

  lemma BuyIs(stats: map<Address, Stats>, market: Market, id: nat, a: Address, tokenSet: bool, paid: bool)
    ensures Does(stats, market, Buy(id, a, tokenSet, paid))
  {}

  lemma AnswersAre(stats: map<Address, Stats>, market: Market, id: nat, a: Address, amount: nat, price: int,
                   tokenSet: bool, paid: bool)
    ensures RedeemCredits(stats, a, amount).Ok? <==> Admits(stats, market, Redeem(a, amount))
    ensures CreateListing(stats, market, a, amount, price).Ok? <==> Admits(stats, market, List(a, amount, price))
    ensures CreateListing(stats, market, a, amount, price).Ok? ==>
      CreateListing(stats, market, a, amount, price).value.2 == market.listingCount + 1
    ensures CancelListing(stats, market, id, a).Ok? <==> Admits(stats, market, Unlist(id, a))
    ensures PurchaseListing(stats, market, id, a, tokenSet, paid).Ok?
            <==> Admits(stats, market, Buy(id, a, tokenSet, paid))
  {}

  // ---------- refusals ----------

  /** An error a refused call may answer names a check that failed. */
  predicate Blames(stats: map<Address, Stats>, market: Market, op: CarbonOp, e: Error) {
    match op
    case Redeem(a, amount) => (e == InvalidAmount && amount == 0) || ShortOf(stats, a, amount, e)
    case List(a, amount, price) =>
      || (e == InvalidListing && (amount == 0 || price <= 0))
      || (e == Overflow && market.listingCount >= U64_MAX)
      || ShortOf(stats, a, amount, e)
    case Unlist(id, a) =>
      || (e == NotListingSeller && id in market.listings && market.listings[id].seller != a)
      || Unreleasable(stats, market, id, a, e)
    case Buy(id, a, tokenSet, paid) =>
      || (e == InvalidListing && id in market.listings && market.listings[id].seller == a)
      || (e == TokenAddressNotSet && !tokenSet) || (e == PaymentFailed && !paid)
      || (e == Overflow && id in market.listings
          && market.listings[id].amount * market.listings[id].price > I128_MAX)
      || Unreleasable(stats, market, id, a, e)
  }

  predicate ShortOf(stats: map<Address, Stats>, a: Address, amount: nat, e: Error) {
    (e == NotRegistered && a !in stats) || (e == InsufficientCarbonCredits && CarbonAt(stats, a) < amount)
  }

  predicate Unreleasable(stats: map<Address, Stats>, market: Market, id: nat, a: Address, e: Error) {
    || (e == ListingNotFound && id !in market.listings)
    || (e == ListingInactive && id in market.listings && !market.listings[id].active)
    || (e == Overflow && id in market.listings && CarbonAt(stats, a) + market.listings[id].amount > U128_MAX)
  }

  lemma RefusalsAre(stats: map<Address, Stats>, market: Market, a: Address, amount: nat, price: int)
    ensures var r := RedeemCredits(stats, a, amount); r.Err? ==> Blames(stats, market, Redeem(a, amount), r.error)
    ensures var r := CreateListing(stats, market, a, amount, price);
      r.Err? ==> Blames(stats, market, List(a, amount, price), r.error)
  {}

  lemma ReleaseRefusalsAre(stats: map<Address, Stats>, market: Market, id: nat, a: Address, tokenSet: bool, paid: bool)
    ensures var r := CancelListing(stats, market, id, a); r.Err? ==> Blames(stats, market, Unlist(id, a), r.error)
    ensures var r := PurchaseListing(stats, market, id, a, tokenSet, paid);
      r.Err? ==> Blames(stats, market, Buy(id, a, tokenSet, paid), r.error)
  {}
}
