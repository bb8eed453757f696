/** `rules/building.py`, `rules/auction.py` and `rules/trade.py`. */
module PropertyRules {
  import opened GameTypes
  import opened Seqs
  import opened Worth
  import opened Payments

  // ---------------------------------------------------------------- building and mortgages

  /** `can_build_on`; the comparison with the minimum level of the group is spelled out. */
  predicate CanBuildOn(g: Config, s: State, who: Seat, p: int)
    requires who < |s.players|
  {
    var t := TileAt(s.tiles, p);
    var space := SpaceAt(g, p);
    && t.owner == Some(who)
    && space.kind == Property && space.color.Some?
    && !t.mortgaged && !t.hasHotel
    && HasMonopoly(g, s.tiles, who, p)
    && (forall q | 1 <= q <= |g.board| && SameGroup(g, p, q) :: Level(t) <= Level(TileAt(s.tiles, q)))
    && (if Level(t) >= 4 then s.bankHotels > 0 else s.bankHouses > 0)
    && s.players[who].balance >= space.houseCost
  }

  /** `can_sell_on`. */
  predicate CanSellOn(g: Config, s: State, who: Seat, p: int) {
    var t := TileAt(s.tiles, p);
    var space := SpaceAt(g, p);
    && t.owner == Some(who)
    && space.kind == Property && space.color.Some?
    && (t.houses != 0 || t.hasHotel)
    && (forall q | 1 <= q <= |g.board| && SameGroup(g, p, q) :: Level(TileAt(s.tiles, q)) <= Level(t))
  }

  /** `can_mortgage`. */
  predicate CanMortgage(g: Config, s: State, who: Seat, p: int) {
    var t := TileAt(s.tiles, p);
    && t.owner == Some(who) && !t.mortgaged
    && !(t.houses > 0 || t.hasHotel)
    && (SpaceAt(g, p).kind == Property ==>
          forall q | 1 <= q <= |g.board| && SameGroup(g, p, q) ::
            !(TileAt(s.tiles, q).houses > 0 || TileAt(s.tiles, q).hasHotel))
    && IsPurchasable(g, p)
  }

  /** `can_unmortgage`. */
  predicate CanUnmortgage(g: Config, s: State, who: Seat, p: int)
    requires who < |s.players|
  {
    var t := TileAt(s.tiles, p);
    t.owner == Some(who) && t.mortgaged && s.players[who].balance >= SpaceAt(g, p).unmortgageCost
  }

  /** Replaces one tile, pays or charges its owner, and refreshes every net worth. */
  function Rework(g: Config, s: State, who: Seat, p: int, t: Tile, gain: int): State
    requires who < |s.players|
  {
    var tiles := SetTile(s.tiles, p, t);
    var owner := s.players[who];
    s.(players := RefreshAll(g, tiles, s.players[who := owner.(balance := owner.balance + gain)]), tiles := tiles)
  }

  function BuildHouseOn(g: Config, s: State, who: Seat, p: int): State
    requires who < |s.players|
  {
    var t := TileAt(s.tiles, p);
    var cost := SpaceAt(g, p).houseCost;
    if t.houses == 4 then
      Rework(g, s, who, p, t.(houses := 0, hasHotel := true), -cost)
        .(bankHouses := s.bankHouses + 4, bankHotels := s.bankHotels - 1)
    else
      Rework(g, s, who, p, t.(houses := t.houses + 1), -cost).(bankHouses := s.bankHouses - 1)
  }

  function SellHouseOn(g: Config, s: State, who: Seat, p: int): State
    requires who < |s.players|
  {
    var t := TileAt(s.tiles, p);
    var credit := SpaceAt(g, p).houseCost / 2;
    if t.hasHotel then
      Rework(g, s, who, p, t.(houses := 4, hasHotel := false), credit)
        .(bankHouses := s.bankHouses - 4, bankHotels := s.bankHotels + 1)
    else
      Rework(g, s, who, p, t.(houses := t.houses - 1), credit).(bankHouses := s.bankHouses + 1)
  }

  function MortgageOn(g: Config, s: State, who: Seat, p: int): State
    requires who < |s.players|
  {
    Rework(g, s, who, p, TileAt(s.tiles, p).(mortgaged := true), SpaceAt(g, p).mortgageValue)
  }

  function UnmortgageOn(g: Config, s: State, who: Seat, p: int): State
    requires who < |s.players|
  {
    Rework(g, s, who, p, TileAt(s.tiles, p).(mortgaged := false), -SpaceAt(g, p).unmortgageCost)
  }

  /** `has_any_buildable`, `has_any_mortgageable` and `has_any_unmortgageable`. */
  predicate HasAnyBuildable(g: Config, s: State, who: Seat)
    requires who < |s.players|
  {
    exists p | p in s.players[who].owned :: CanBuildOn(g, s, who, p)
  }

  predicate HasAnyMortgageable(g: Config, s: State, who: Seat)
    requires who < |s.players|
  {
    exists p | p in s.players[who].owned :: CanMortgage(g, s, who, p)
  }

  predicate HasAnyUnmortgageable(g: Config, s: State, who: Seat)
    requires who < |s.players|
  {
    exists p | p in s.players[who].owned :: CanUnmortgage(g, s, who, p)
  }

  // ---------------------------------------------------------------- auction

  function StartAuction(s: State, p: int, now: int): State {
    s.(auction := Some(Auction(p, [], 0, None, AUCTION_DURATION_MS, now)),
       turn := s.turn.(phase := Auctioning, pending := None))
  }

  predicate CanPlaceBid(s: State, who: Seat, amount: int)
    requires who < |s.players|
  {
    && s.auction.Some? && s.turn.phase == Auctioning
    && !s.players[who].bankrupt && s.players[who].balance >= amount
    && amount > s.auction.value.highest
  }

  function AddBid(s: State, who: Seat, amount: int): State
    requires s.auction.Some?
  {
    var a := s.auction.value;
    s.(auction := Some(a.(bids := a.bids + [Bid(who, amount)], highest := amount, leader := Some(who))))
  }

  /** A player takes the tile for the price; `owned` is the new sorted list of positions. */
  function Acquire(g: Config, s: State, who: Seat, p: int, price: int, owned: seq<int>): State
    requires who < |s.players|
  {
    var buyer := s.players[who];
    var tiles := SetTile(s.tiles, p, TileAt(s.tiles, p).(owner := Some(who)));
    s.(tiles := tiles,
       players := s.players[who := Refreshed(g, tiles, buyer.(balance := buyer.balance - price, owned := owned))])
  }

  /** `resolve_auction`. */
  function ResolveAuction(g: Config, s: State): State
    requires s.auction.Some? && s.auction.value.leader.Some? ==> s.auction.value.leader.value < |s.players|
  {
    if s.auction.None? then s
    else
      var a := s.auction.value;
      var s1 := if a.leader.None? then s
                else Acquire(g, s, a.leader.value, a.position, a.highest,
                             SortedSet(s.players[a.leader.value].owned + [a.position]));
      s1.(players := RefreshAll(g, s1.tiles, s1.players), auction := None,
          turn := s.turn.(phase := if s.turn.streak > 0 then PreRoll else PostRoll))
  }

  predicate AuctionExpired(s: State, now: int) {
    s.auction.Some? && s.auction.value.remaining - (now - s.auction.value.startedAt) <= 0
  }

  // ---------------------------------------------------------------- trade

  datatype Verdict = Valid | Illegal | Missing

  /** The checks `validate_trade_offer` makes on the offered positions, in order. */
  function CheckPositions(tiles: seq<Tile>, who: Seat, positions: seq<int>): Verdict {
    if positions == [] then Valid
    else
      var p := positions[0];
      var t := TileAt(tiles, p);
      if !(1 <= p <= |tiles|) then Missing
      else if t.owner != Some(who) || t.houses > 0 || t.hasHotel then Illegal
      else CheckPositions(tiles, who, positions[1..])
  }

  /** `validate_trade_offer`. */
  function ValidateOffer(s: State, who: Seat, offer: TradeOffer): Verdict {
    if who >= |s.players| then Missing
    else if offer.money > s.players[who].balance || offer.jailCards > s.players[who].jailCards then Illegal
    else CheckPositions(s.tiles, who, offer.positions)
  }

  lemma {:induction false} CheckedPositions(tiles: seq<Tile>, who: Seat, positions: seq<int>)
    ensures CheckPositions(tiles, who, positions).Valid? <==>
            forall k :: 0 <= k < |positions| ==>
              && 1 <= positions[k] <= |tiles| && TileAt(tiles, positions[k]).owner == Some(who)
              && !(TileAt(tiles, positions[k]).houses > 0 || TileAt(tiles, positions[k]).hasHotel)
  {
    if positions != [] {
      CheckedPositions(tiles, who, positions[1..]);
      assert forall k :: 1 <= k < |positions| ==> positions[k] == positions[1..][k - 1];
      assert forall k :: 0 <= k < |positions| - 1 ==> positions[1..][k] == positions[k + 1];
    }
  }

  /** `propose_trade` once its guards have passed. */
  function OpenTrade(s: State, proposer: Seat, target: Seat, offer: TradeOffer, request: TradeOffer, env: Env): State {
    s.(trade := Some(Trade(env.freshId, proposer, target, offer, request, false, env.now + TRADE_DURATION_MS)),
       turn := s.turn.(phase := Negotiating, tradeOffers := s.turn.tradeOffers + 1))
  }

  function CloseTrade(s: State): State {
    s.(trade := None, turn := s.turn.(phase := PostRoll))
  }

  /** The elements of `xs` that are not in `gone`. */
  function Without(xs: seq<int>, gone: seq<int>): (r: seq<int>)
    ensures forall y :: y in r <==> y in xs && y !in gone
  {
    if xs == [] then []
    else if xs[0] in gone then Without(xs[1..], gone)
    else [xs[0]] + Without(xs[1..], gone)
  }

  /** The tiles after all of `positions` change hands. */
  function Reassign(tiles: seq<Tile>, positions: seq<int>, to: Option<Seat>): (r: seq<Tile>)
    ensures |r| == |tiles|
  {
    seq(|tiles|, k requires 0 <= k < |tiles| =>
      if k + 1 in positions then tiles[k].(owner := to) else tiles[k])
  }

  /** The exchange of `_execute_trade`, without its checks. */
  function Exchange(g: Config, s: State, t: Trade): State
    requires t.proposer < |s.players| && t.target < |s.players|
  {
    var a := s.players[t.proposer];
    var b := s.players[t.target];
    var tiles := Reassign(Reassign(s.tiles, t.offer.positions, Some(t.target)), t.request.positions, Some(t.proposer));
    var aOwned := SortedSet(Without(a.owned, t.offer.positions));
    var bOwned := SortedSet(b.owned + t.offer.positions);
    var a' := a.(owned := SortedSet(aOwned + t.request.positions),
                 balance := a.balance + (t.request.money - t.offer.money),
                 jailCards := a.jailCards + (t.request.jailCards - t.offer.jailCards));
    var b' := b.(owned := SortedSet(Without(bOwned, t.request.positions)),
                 balance := b.balance - (t.request.money - t.offer.money),
                 jailCards := b.jailCards - (t.request.jailCards - t.offer.jailCards));
    CloseTrade(s.(players := RefreshAll(g, tiles, s.players[t.proposer := a'][t.target := b']), tiles := tiles))
  }
}
