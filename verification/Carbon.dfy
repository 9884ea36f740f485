/** The carbon-credit market: escrowed listings over the balances kept in participants' statistics. */
module Carbon {
  import opened Prelude
  import opened Model

  function RedeemCredits(stats: map<Address, Stats>, a: Address, amount: nat): Answer<map<Address, Stats>> {
    if amount <= 0 then Err(InvalidAmount)
    else
      var had :- Find(stats, a, NotRegistered);
      :- Need(amount <= had.carbon, InsufficientCarbonCredits);
      Ok(stats[a := had.(carbon := had.carbon - amount)])
  }

  function CreateListing(stats: map<Address, Stats>, market: Market, seller: Address, amount: nat, price: int)
    : Answer<(map<Address, Stats>, Market, nat)>
  {
    if !(amount > 0 && price > 0) then Err(InvalidListing)
    else
      var had :- Find(stats, seller, NotRegistered);
      :- Need(amount <= had.carbon, InsufficientCarbonCredits);
      :- Need(market.listingCount < U64_MAX, Overflow);
      var id: nat := market.listingCount + 1;
      Ok((stats[seller := had.(carbon := had.carbon - amount)],
          market.(listingCount := id, listings := market.listings[id := Listing(seller, amount, price, true)],
                  index := market.index + [id]),
          id))
  }

  /** Close a listing and credit its amount to `a`; the index forgets it. */
  function Release(stats: map<Address, Stats>, market: Market, id: nat,
                   a: Address): Answer<(map<Address, Stats>, Market)>
    requires id in market.listings
  {
    var l := market.listings[id];
    var had := Lookup(stats, a, NO_STATS);
    :- Need(had.carbon + l.amount <= U128_MAX, Overflow);
    Ok((stats[a := had.(carbon := had.carbon + l.amount)],
        market.(listings := market.listings[id := l.(active := false)], index := Without(market.index, {id}))))
  }

  function CancelListing(stats: map<Address, Stats>, market: Market, id: nat, seller: Address)
    : Answer<(map<Address, Stats>, Market)>
  {
    var l :- Find(market.listings, id, ListingNotFound);
    :- Need(l.active, ListingInactive);
    :- Need(l.seller == seller, NotListingSeller);
    Release(stats, market, id, seller)
  }

  /** The token payment to the seller is the token contract's business: it succeeds (`paid`) or aborts the call. */
  function PurchaseListing(stats: map<Address, Stats>, market: Market, id: nat, buyer: Address, tokenSet: bool,
                           paid: bool)
    : Answer<(map<Address, Stats>, Market)>
  {
    var l :- Find(market.listings, id, ListingNotFound);
    :- Need(l.active, ListingInactive);
    :- Need(l.seller != buyer, InvalidListing);
    :- Need(tokenSet, TokenAddressNotSet);
    :- Need(l.amount * l.price <= I128_MAX, Overflow);
    :- Need(paid, PaymentFailed);
    Release(stats, market, id, buyer)
  }

  datatype CarbonOp =
    | Redeem(a: Address, amount: nat)
    | List(seller: Address, amount: nat, price: int)
    | Unlist(id: nat, seller: Address)
    | Buy(id: nat, buyer: Address, tokenSet: bool, paid: bool)

  function CarbonStep(stats: map<Address, Stats>, market: Market, op: CarbonOp): (map<Address, Stats>, Market) {
    match op
    case Redeem(a, amount) =>
      (match RedeemCredits(stats, a, amount) case Ok(r) => (r, market) case Err(_) => (stats, market))
    case List(a, amount, price) =>
      (match CreateListing(stats, market, a, amount, price) case Ok(r) => (r.0, r.1) case Err(_) => (stats, market))
    case Unlist(id, a) => (match CancelListing(stats, market, id, a) case Ok(r) => r case Err(_) => (stats, market))
    case Buy(id, a, tokenSet, paid) =>
      (match PurchaseListing(stats, market, id, a, tokenSet, paid) case Ok(r) => r case Err(_) => (stats, market))
  }

  // ---------- the index ----------

  ghost predicate Ascending(s: seq<nat>) {
    forall i, j :: 0 <= i < j < |s| ==> s[i] < s[j]
  }

  /** The index lists the active listings and nothing else, in ascending order of id. */
  ghost predicate MarketInv(market: Market) {
    && (forall id :: id in market.listings ==> 1 <= id <= market.listingCount)
    && (forall id :: id in market.index <==> id in market.listings && market.listings[id].active)
    && Ascending(market.index)
  }

  lemma {:induction false} WithoutAscends(s: seq<nat>, drop: set<nat>)
    requires Ascending(s)
    ensures Ascending(Without(s, drop))
  {
    if s != [] {
      var last := |s| - 1;
      WithoutAscends(s[..last], drop);
      var r := Without(s[..last], drop);
      forall i | 0 <= i < |r| ensures r[i] < s[last] {
        assert r[i] in r && r[i] in s[..last];
      }
    }
  }

  lemma ReleaseKeepsMarket(stats: map<Address, Stats>, market: Market, id: nat, a: Address)
    requires MarketInv(market) && id in market.listings && Release(stats, market, id, a).Ok?
    ensures MarketInv(Release(stats, market, id, a).value.1)
  {
    WithoutAscends(market.index, {id});
  }

  lemma ListKeepsMarket(stats: map<Address, Stats>, market: Market, a: Address, amount: nat, price: int)
    requires MarketInv(market) && CreateListing(stats, market, a, amount, price).Ok?
    ensures MarketInv(CreateListing(stats, market, a, amount, price).value.1)
  {
    forall i | 0 <= i < |market.index| ensures market.index[i] <= market.listingCount {
      assert market.index[i] in market.index;
    }
  }

  lemma StepKeepsMarket(stats: map<Address, Stats>, market: Market, op: CarbonOp)
    requires MarketInv(market)
    ensures MarketInv(CarbonStep(stats, market, op).1)
  {
    match op
    case Redeem(_, _) =>
    case List(a, amount, price) =>
      if CreateListing(stats, market, a, amount, price).Ok? { ListKeepsMarket(stats, market, a, amount, price); }
    case Unlist(id, a) =>
      if CancelListing(stats, market, id, a).Ok? { ReleaseKeepsMarket(stats, market, id, a); }
    case Buy(id, a, tokenSet, paid) =>
      if PurchaseListing(stats, market, id, a, tokenSet, paid).Ok? { ReleaseKeepsMarket(stats, market, id, a); }
  }

  /** The listings a query shows: those on the index that exist and are active. */
  function OnSale(listings: map<nat, Listing>, index: seq<nat>): seq<Listing> {
    if index == [] then []
    else
      var id := index[|index| - 1];
      OnSale(listings, index[..|index| - 1])
      + if id in listings && listings[id].active then [listings[id]] else []
  }

  /** With a good index the query skips nothing: one active listing for each id, in ascending order of id. */
  lemma {:induction false} NothingIsSkipped(listings: map<nat, Listing>, index: seq<nat>)
    requires forall id :: id in index ==> id in listings && listings[id].active
    ensures |OnSale(listings, index)| == |index|
    ensures forall i :: 0 <= i < |index| ==> index[i] in listings && OnSale(listings, index)[i] == listings[index[i]]
  {
    if index != [] {
      assert index == index[..|index| - 1] + [index[|index| - 1]];
      NothingIsSkipped(listings, index[..|index| - 1]);
    }
  }

  // ---------- conservation ----------

  function CarbonOf(s: Stats): nat { s.carbon }

  function Escrow(l: Listing): nat { if l.active then l.amount else 0 }

  ghost function Balances(stats: map<Address, Stats>): nat { MapSum(stats, CarbonOf) }

  /** Every credit in existence: on an account or in an active listing. */
  ghost function Supply(stats: map<Address, Stats>, market: Market): nat {
    Balances(stats) + MapSum(market.listings, Escrow)
  }

  lemma WriteCarbon(stats: map<Address, Stats>, a: Address, after: Stats)
    ensures Balances(stats[a := after]) + Lookup(stats, a, NO_STATS).carbon == Balances(stats) + after.carbon
  {
    MapSumSet(stats, a, after, CarbonOf);
    if a in stats { MapSumAtLeast(stats, a, CarbonOf); }
  }

  lemma TouchKeepsCarbon(stats: map<Address, Stats>, a: Address)
    ensures Balances(Touch(stats, a)) == Balances(stats)
  {
    WriteCarbon(stats, a, Lookup(stats, a, NO_STATS));
  }

  ghost function Burned(stats: map<Address, Stats>, op: CarbonOp): nat {
    match op
    case Redeem(a, amount) => if RedeemCredits(stats, a, amount).Ok? then amount else 0
    case _ => 0
  }

  lemma ReleaseKeepsSupply(stats: map<Address, Stats>, market: Market, id: nat, a: Address)
    requires id in market.listings && market.listings[id].active && Release(stats, market, id, a).Ok?
    ensures var r := Release(stats, market, id, a).value; Supply(r.0, r.1) == Supply(stats, market)
  {
    var l, had := market.listings[id], Lookup(stats, a, NO_STATS);
    WriteCarbon(stats, a, had.(carbon := had.carbon + l.amount));
    MapSumSet(market.listings, id, l.(active := false), Escrow);
    MapSumAtLeast(market.listings, id, Escrow);
  }

  lemma ListKeepsSupply(stats: map<Address, Stats>, market: Market, a: Address, amount: nat, price: int)
    requires MarketInv(market) && CreateListing(stats, market, a, amount, price).Ok?
    ensures var r := CreateListing(stats, market, a, amount, price).value; Supply(r.0, r.1) == Supply(stats, market)
  {
    var id: nat := market.listingCount + 1;
    WriteCarbon(stats, a, stats[a].(carbon := stats[a].carbon - amount));
    MapSumSet(market.listings, id, Listing(a, amount, price, true), Escrow);
  }

  /** Listing, cancelling and buying conserve the supply; redeeming takes out exactly the amount redeemed. */
  lemma StepSupply(stats: map<Address, Stats>, market: Market, op: CarbonOp)
    requires MarketInv(market)
    ensures var r := CarbonStep(stats, market, op);
      && Supply(r.0, r.1) + Burned(stats, op) == Supply(stats, market)
      && r.1.totalCarbon == market.totalCarbon
  {
    match op
    case Redeem(a, amount) =>
      if RedeemCredits(stats, a, amount).Ok? { WriteCarbon(stats, a, stats[a].(carbon := stats[a].carbon - amount)); }
    case List(a, amount, price) =>
      if CreateListing(stats, market, a, amount, price).Ok? { ListKeepsSupply(stats, market, a, amount, price); }
    case Unlist(id, a) =>
      if CancelListing(stats, market, id, a).Ok? { ReleaseKeepsSupply(stats, market, id, a); }
    case Buy(id, a, tokenSet, paid) =>
      if PurchaseListing(stats, market, id, a, tokenSet, paid).Ok? { ReleaseKeepsSupply(stats, market, id, a); }
  }

  /** While the supply fits 128 bits, crediting a released listing cannot overflow. */
  lemma ReleaseNeverOverflows(stats: map<Address, Stats>, market: Market, id: nat, a: Address)
    requires id in market.listings && market.listings[id].active && Supply(stats, market) <= U128_MAX
    ensures Release(stats, market, id, a).Ok?
  {
    MapSumAtLeast(market.listings, id, Escrow);
    if a in stats { MapSumAtLeast(stats, a, CarbonOf); }
  }
}
