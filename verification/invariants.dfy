/** The invariants of orderly runs, and the commands that keep them. */
module Invariants {
  import opened GameTypes
  import opened Seqs
  import opened Soundness
  import opened Worth
  import opened Payments
  import opened PropertyRules
  import opened Elimination
  import opened Handlers

  // ---------------------------------------------------------------- property

  predicate HeldBy(tiles: seq<Tile>, i: Seat, p: int) {
    1 <= p <= |tiles| && TileAt(tiles, p).owner == Some(i)
  }

  /** `owned_positions` and `spaces[].owner_id` are two views of one relation, and every
      `owned_positions` is strictly sorted. */
  ghost predicate Owns(s: State) {
    && (forall i: Seat :: i < |s.players| ==> StrictlySorted(s.players[i].owned))
    && (forall i: Seat, p: int :: i < |s.players| ==> (p in s.players[i].owned <==> HeldBy(s.tiles, i, p)))
  }

  lemma HeldByOne(s: State, p: int)
    requires Owns(s)
    ensures forall i: Seat :: i < |s.players| ==> (p in s.players[i].owned <==> HeldBy(s.tiles, i, p))
  {}

  /** A tile in itself: a hotel replaces the houses, buildings stand on streets, an unowned tile is
      bare, and only purchasable squares are owned. */
  predicate TileOk(g: Config, p: int, t: Tile) {
    && 0 <= t.houses <= 4
    && (t.hasHotel ==> t.houses == 0)
    && (Level(t) > 0 ==> SpaceAt(g, p).color.Some?)
    && (t.owner.None? ==> t == BARE)
    && (t.owner.Some? ==> IsPurchasable(g, p))
  }

  /** Two tiles of one colour group: even building, one owner for all buildings, and no building in a
      group with a mortgaged tile. */
  predicate Even(t: Tile, u: Tile) {
    && Level(t) <= Level(u) + 1
    && (Level(t) > 0 && Level(u) > 0 ==> t.owner == u.owner)
    && (t.mortgaged ==> Level(u) == 0)
  }

  ghost predicate Streets(g: Config, tiles: seq<Tile>) {
    && |tiles| == |g.board|
    && (forall p {:trigger TileOk(g, p, TileAt(tiles, p))} :: OnBoard(g, p) ==> TileOk(g, p, TileAt(tiles, p)))
    && (forall p, q {:trigger Even(TileAt(tiles, p), TileAt(tiles, q))} ::
          OnBoard(g, p) && OnBoard(g, q) && SameGroup(g, p, q) ==> Even(TileAt(tiles, p), TileAt(tiles, q)))
  }

  function Houses(tiles: seq<Tile>): (r: seq<int>)
    ensures |r| == |tiles|
    ensures forall k :: 0 <= k < |r| ==> r[k] == tiles[k].houses
  {
    seq(|tiles|, k requires 0 <= k < |tiles| => tiles[k].houses)
  }

  function Hotels(tiles: seq<Tile>): (r: seq<int>)
    ensures |r| == |tiles|
    ensures forall k :: 0 <= k < |r| ==> r[k] == if tiles[k].hasHotel then 1 else 0
  {
    seq(|tiles|, k requires 0 <= k < |tiles| => if tiles[k].hasHotel then 1 else 0)
  }

  /** Houses and hotels in the bank and on the board together. */
  function AllHouses(s: State): int {
    s.bankHouses + Sum(Houses(s.tiles))
  }

  function AllHotels(s: State): int {
    s.bankHotels + Sum(Hotels(s.tiles))
  }

  ghost predicate Inventory(s: State) {
    AllHouses(s) <= BANK_HOUSES && AllHotels(s) <= BANK_HOTELS && s.bankHotels >= 0
  }

  // ---------------------------------------------------------------- turn and phase

  ghost predicate ForSale(g: Config, s: State, p: int) {
    OnBoard(g, p) && IsPurchasable(g, p) && TileAt(s.tiles, p).owner.None?
  }

  /** Phase and sub-state of a game in progress. */
  ghost predicate Live(g: Config, s: State)
    requires s.turn.current < |s.players|
  {
    var phase := s.turn.phase;
    var p := s.players[s.turn.current];
    && (s.auction.Some? <==> phase == Auctioning)
    && (s.trade.Some? <==> phase == Negotiating)
    && (s.bankruptcy.Some? <==> phase == Bankrupting)
    && phase != GameOver && phase != DrawingCard
    && (s.trade.Some? ==> s.trade.value.proposer == s.turn.current)
    && (s.bankruptcy.Some? ==> s.bankruptcy.value.debtor == s.turn.current && s.bankruptcy.value.owed > 0)
    && !p.bankrupt
    && (phase == PreRoll || phase == Auctioning || s.turn.pending.Some? ==> p.jail.None?)
    && (s.turn.pending.Some? ==> (phase == PostRoll || phase == Negotiating) && ForSale(g, s, s.turn.pending.value))
    && (s.auction.Some? ==> ForSale(g, s, s.auction.value.position))
  }

  ghost predicate Over(s: State) {
    s.turn.phase == GameOver && s.auction.None? && s.trade.None? && s.bankruptcy.None?
  }

  ghost predicate Phases(g: Config, s: State)
    requires s.turn.current < |s.players|
  {
    && s.turn.deadline.Some?
    && (if s.finished then Over(s) else Live(g, s))
  }

  // ---------------------------------------------------------------- auction

  /** Bids rise strictly from above zero, and the recorded leader is the last bidder, who can pay. */
  ghost predicate AuctionOk(s: State) {
    s.auction.Some? ==>
      var a := s.auction.value;
      && (forall j, k :: 0 <= j < k < |a.bids| ==> a.bids[j].amount < a.bids[k].amount)
      && (forall k :: 0 <= k < |a.bids| ==> 0 < a.bids[k].amount)
      && a.remaining == AUCTION_DURATION_MS
      && (if a.bids == [] then a.highest == 0 && a.leader.None?
          else
            var last := a.bids[|a.bids| - 1];
            && a.highest == last.amount && a.leader == Some(last.bidder)
            && last.bidder < |s.players|
            && !s.players[last.bidder].bankrupt && s.players[last.bidder].balance >= last.amount)
  }

  // ---------------------------------------------------------------- who is still in the game

  /** A player is out exactly from the recorded turn on, and an active one has fewer than three strikes. */
  predicate RecordOk(p: Player, number: int, finished: bool) {
    && (p.bankrupt <==> p.eliminatedAt.Some?)
    && (p.bankrupt ==> p.eliminatedAt.value < number || (finished && p.eliminatedAt.value == number))
    && 0 <= p.strikes && (!p.bankrupt ==> p.strikes < MAX_AFK_STRIKES)
    && p.jailCards >= 0
  }

  ghost predicate Roster(s: State) {
    && (forall i :: 0 <= i < |s.players| ==> RecordOk(s.players[i], s.turn.number, s.finished))
    && (forall i, j :: 0 <= i < j < |s.players| && s.players[i].bankrupt && s.players[j].bankrupt ==>
          s.players[i].eliminatedAt != s.players[j].eliminatedAt)
    && (if s.finished then |Survivors(s)| == 1 && s.winner == Some(Survivors(s)[0]) else |Survivors(s)| >= 2)
  }

  /** The amounts the gateway lets into a trade offer. */
  predicate FairOffer(o: TradeOffer) {
    o.money >= 0 && o.jailCards >= 0
  }

  ghost predicate TradeOk(s: State) {
    s.trade.Some? ==> FairOffer(s.trade.value.offer) && FairOffer(s.trade.value.request)
  }

  /** An open debt is more than its debtor has. */
  predicate DebtOpen(s: State) {
    s.bankruptcy.Some? && s.bankruptcy.value.debtor < |s.players| ==>
      s.players[s.bankruptcy.value.debtor].balance < s.bankruptcy.value.owed
  }

  /** Everything that holds on every orderly run of a game with at least two players. */
  ghost predicate Inv(g: Config, s: State) {
    && Good(g, s)
    && Owns(s) && Streets(g, s.tiles) && Inventory(s)
    && WorthFresh(g, s)
    && Phases(g, s) && AuctionOk(s) && TradeOk(s) && Roster(s) && DebtOpen(s)
  }

  // ---------------------------------------------------------------- orderly and advertised commands

  /** The commands that leave the invariants alone, by what can be seen before they are sent. */
  predicate Orderly(s: State, cmd: Command) {
    match cmd
    case ProposeTrade(_, _, offer, request) => IsActivePhase(s.turn.phase) && FairOffer(offer) && FairOffer(request)
    case Surrender(_) => !s.finished && s.auction.None? && s.trade.None? && s.bankruptcy.None?
    case RespondTrade(_, _, response, counter) => response == Counter && counter.Some? ==> FairOffer(counter.value)
    case _ => true
  }

  /** The commands clients are offered: a trade proposal and a surrender are sent only when the action
      set allows them, and the amounts are those the gateway admits.  The engine itself guards the rest. */
  predicate Advertised(g: Config, s: State, cmd: Command)
    requires s.turn.current < |s.players|
  {
    match cmd
    case ProposeTrade(i, _, offer, request) =>
      ComputeActions(g, s, s.turn.current).canTrade && FairOffer(offer) && FairOffer(request)
    case Surrender(_) => ComputeActions(g, s, s.turn.current).canSurrender
    case RespondTrade(_, _, _, counter) => counter.Some? ==> FairOffer(counter.value)
    case _ => true
  }
}
