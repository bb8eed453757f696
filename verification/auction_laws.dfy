/** `rules/auction.py`: an auction from its first bid to its award. */
module AuctionLaws {
  import opened GameTypes
  import opened Seqs
  import opened Soundness
  import opened Worth
  import opened PropertyRules
  import opened Elimination
  import opened Handlers
  import opened Engine
  import opened Invariants
  import opened StepProperty
  import opened StepTable
  import opened Steps
  import opened Setup
  import opened Timers
  import opened TradeLaws

  // ---------------------------------------------------------------- while the auction is open

  /** `b` is `a` with more bids. */
  predicate BidsGrow(a: Auction, b: Auction) {
    && b == a.(bids := b.bids, highest := b.highest, leader := b.leader)
    && |a.bids| <= |b.bids| && b.bids[..|a.bids|] == a.bids
  }

  /** Only the auction, the turn record, the active card and strikes differ. */
  predicate OnlyBids(a: State, b: State) {
    && a.auction.Some? && b.auction.Some? && BidsGrow(a.auction.value, b.auction.value)
    && SameEstate(a, b)
    && b == a.(players := b.players, auction := b.auction, turn := b.turn, activeCard := b.activeCard)
    && b.turn == a.turn.(deadline := b.turn.deadline, actions := b.turn.actions)
  }

  lemma OnlyBidsTrans(a: State, b: State, c: State)
    requires OnlyBids(a, b) && OnlyBids(b, c)
    ensures OnlyBids(a, c)
  {
    var x, y, z := a.auction.value.bids, b.auction.value.bids, c.auction.value.bids;
    assert z[..|y|][..|x|] == z[..|x|];
  }

  /** In the auction phase nobody's turn commands are accepted. */
  lemma NoTurnCommands(g: Config, s: State, cmd: Command, env: Env)
    requires ValidConfig(g) && Good(g, s) && s.turn.phase == Auctioning && s.auction.Some? && s.bankruptcy.None?
    requires !IsSystem(cmd) && !IsOpen(cmd) && cmd.player == s.turn.current && Orderly(s, cmd)
    ensures !Dispatch(g, s, cmd, env).Ok?
  {
    hide ValidConfig, DeckKept, ExecuteMove, ActiveSeats, CanBuildOn, CanSellOn, CanMortgage, CanUnmortgage, Rework, ResolveSurrender;
    SurvivorsInRange(s.players, |s.players|);
  }

  lemma BidStep(g: Config, s: State, cmd: Command, env: Env)
    requires Good(g, s) && s.auction.Some? && s.trade.None? && IsOpen(cmd) && DispatchOpen(g, s, cmd, env).Ok?
    ensures var s1 := ResetStrikes(DispatchOpen(g, s, cmd, env).s, cmd.player);
            s1.turn.current < |s1.players| && OnlyBids(s, Stamp(g, s1, env.now))
    ensures cmd.PlaceBid?
  {
    hide DeckKept, ComputeActions;
  }

  lemma IdleStep(g: Config, s: State, cmd: Command, env: Env)
    requires ValidConfig(g) && Good(g, s) && Core(g, s) && Table(g, s) && s.auction.Some? && s.trade.None? && s.bankruptcy.None?
    requires s.turn.phase == Auctioning && IsSystem(cmd) && !(cmd.AdvanceAuction? && AuctionExpired(s, env.now))
    ensures OnlyBids(s, Apply(g, s, cmd, env).s)
  {
    hide ValidConfig, DeckKept, Core, Table, Wrap;
    WrapQuiet(g, s, s, cmd, env.now);
  }

  lemma AuctionPhase(g: Config, s: State)
    requires Inv(g, s) && s.auction.Some?
    ensures !s.finished && s.turn.phase == Auctioning && s.trade.None? && s.bankruptcy.None? && AuctionOk(s)
  {
    hide DeckKept, ActiveSeats, Streets, Owns, Inventory, WorthFresh;
    assert Phases(g, s);
  }

  /** Until its time is up an auction can neither end nor be disturbed: the only command that changes
      anything of substance is a higher bid. */
  lemma AuctionStep(g: Config, s: State, cmd: Command, env: Env)
    requires ValidConfig(g) && Inv(g, s) && s.auction.Some? && Orderly(s, cmd) && Apply(g, s, cmd, env).Ok?
    requires !(cmd.AdvanceAuction? && AuctionExpired(s, env.now))
    ensures OnlyBids(s, Apply(g, s, cmd, env).s)
    ensures cmd.PlaceBid? || Apply(g, s, cmd, env).s.auction == s.auction
  {
    hide ValidConfig, Good, Core, Table, Inv, HandleSystem, DispatchOpen, Dispatch, Wrap, Stamp, ResetStrikes, Orderly, OnlyBids;
    InvParts(g, s);
    AuctionPhase(g, s);
    if IsSystem(cmd) {
      IdleStep(g, s, cmd, env);
      IdleAuction(g, s, cmd, env);
    } else if IsOpen(cmd) {
      BidStep(g, s, cmd, env);
    } else {
      NoTurnCommands(g, s, cmd, env);
    }
  }

  lemma IdleAuction(g: Config, s: State, cmd: Command, env: Env)
    requires ValidConfig(g) && Good(g, s) && s.auction.Some? && s.trade.None?
    requires s.turn.phase == Auctioning && IsSystem(cmd) && !(cmd.AdvanceAuction? && AuctionExpired(s, env.now))
    ensures Apply(g, s, cmd, env).s.auction == s.auction
  {
    hide ValidConfig, Good, Wrap;
    WrapKeeps(g, s, s, cmd, env.now) by { GoodImpliesRefs(g, s); }
  }

  /** The auction is open after each prefix of the run. */
  ghost predicate StaysOpen(g: Config, s: State, steps: seq<Move>)
    requires ValidConfig(g) && Good(g, s)
  {
    s.auction.Some? && (steps == [] || (StaysOpen(g, s, steps[..|steps| - 1]) && Run(g, s, steps).auction.Some?))
  }

  /** A whole auction: as long as it is open, on any orderly run, property, cash, jail cards, positions
      and the bank stay frozen, and the list of bids only grows. */
  lemma {:induction false} AuctionRun(g: Config, s: State, steps: seq<Move>)
    requires ValidConfig(g) && Inv(g, s) && s.auction.Some? && OrderlyRun(g, s, steps) && StaysOpen(g, s, steps)
    ensures OnlyBids(s, Run(g, s, steps)) && Inv(g, Run(g, s, steps))
  {
    hide ValidConfig, Inv, Apply, Orderly, OnlyBids;
    InvGood(g, s);
    RunInvariant(g, s, steps);
    if steps == [] {
      OnlyBidsRefl(s);
    } else {
      var n := |steps| - 1;
      AuctionRun(g, s, steps[..n]);
      var s' := Run(g, s, steps[..n]);
      InvGood(g, s');
      if Apply(g, s', steps[n].cmd, steps[n].env).Ok? {
        OnlyBidsOpen(s, s');
        if steps[n].cmd.AdvanceAuction? && AuctionExpired(s', steps[n].env.now) {
          ExpiryCloses(g, s', steps[n].cmd, steps[n].env);
        }
        AuctionStep(g, s', steps[n].cmd, steps[n].env);
        OnlyBidsTrans(s, s', Apply(g, s', steps[n].cmd, steps[n].env).s);
      }
    }
  }

  lemma OnlyBidsRefl(s: State)
    requires s.auction.Some?
    ensures OnlyBids(s, s)
  {}

  lemma OnlyBidsOpen(a: State, b: State)
    requires OnlyBids(a, b)
    ensures b.auction.Some?
  {}

  lemma ExpiryCloses(g: Config, s: State, cmd: Command, env: Env)
    requires ValidConfig(g) && Inv(g, s) && s.auction.Some? && cmd.AdvanceAuction? && AuctionExpired(s, env.now)
    ensures Apply(g, s, cmd, env).s.auction.None?
  {
    hide ValidConfig, Good, Inv, Wrap;
    InvParts(g, s);
    SystemGood(g, s, cmd, env);
    AuctionLeaderInRange(g, s);
    WrapKeeps(g, s, ResolveAuction(g, s), cmd, env.now) by { GoodImpliesRefs(g, ResolveAuction(g, s)); }
  }

  // ---------------------------------------------------------------- buying, or passing

  /** From `s` to `s'` player `w` bought bare square `p` for `price`; nothing else about players or squares
      changed. */
  ghost predicate SoldTo(s: State, s': State, w: Seat, p: int, price: int) {
    && w < |s.players| == |s'.players|
    && s'.players[w] == s.players[w].(balance := s.players[w].balance - price, owned := s'.players[w].owned,
                                      netWorth := s'.players[w].netWorth)
    && (forall i :: 0 <= i < |s.players| && i != w ==> s'.players[i] == s.players[i])
    && s'.tiles == SetTile(s.tiles, p, BARE.(owner := Some(w)))
    && (forall i: Seat :: i < |s.players| ==> (p in s'.players[i].owned <==> i == w))
  }

  /** Declining puts the square on offer, and nothing else, up for auction for half a minute, without a bid. */
  lemma PassOpensAuction(g: Config, s: State, env: Env)
    requires ValidConfig(g) && Inv(g, s) && Apply(g, s, PassBuy(s.turn.current), env).Ok?
    ensures var s' := Apply(g, s, PassBuy(s.turn.current), env).s;
            && s.turn.pending.Some? && SameEstate(s, s') && Inv(g, s')
            && s' == s.(players := s'.players, activeCard := s'.activeCard,
                        auction := Some(Auction(s.turn.pending.value, [], 0, None, 30_000, env.now)),
                        turn := s.turn.(phase := Auctioning, pending := None, deadline := s'.turn.deadline, actions := s'.turn.actions))
  {
    hide ValidConfig, Good, Inv, Core, Table, Wrap;
    InvParts(g, s);
    CurrentInRange(g, s);
    var cmd := PassBuy(s.turn.current);
    StepInvariant(g, s, cmd, env);
    OnSaleQuiet(g, s);
    TurnApplied(g, s, cmd, env);
  }

  lemma OnSaleQuiet(g: Config, s: State)
    requires Inv(g, s) && s.turn.pending.Some? && (s.turn.phase == PostRoll || s.turn.phase == MustPayRent)
    ensures s.bankruptcy.None?
  {
    hide DeckKept, ActiveSeats, Streets, Owns, Inventory, WorthFresh;
    assert Phases(g, s);
  }

  /** The offer is taken: nothing is on sale any more, and a roll that doubles had earned comes now. */
  ghost predicate SaleClosed(s: State, s': State) {
    s' == s.(players := s'.players, tiles := s'.tiles, activeCard := s'.activeCard,
             turn := s.turn.(phase := if s.turn.streak > 0 then PreRoll else s.turn.phase, pending := None,
                             deadline := s'.turn.deadline, actions := s'.turn.actions))
  }

  lemma SaleStamped(s: State, s1: State, s': State, i: Seat)
    requires SaleClosed(s, s1)
    requires var s2 := ResetStrikes(s1, i);
             s' == s2.(activeCard := s'.activeCard, turn := s2.turn.(deadline := s'.turn.deadline, actions := s'.turn.actions))
    ensures SaleClosed(s, s')
  {}

  /** Buying: the buyer pays the printed price out of cash at hand and becomes the one owner of the square that
      was on offer; no other player or square changes, and a roll deferred by doubles is granted now. */
  lemma Bought(g: Config, s: State, p: int, env: Env)
    requires ValidConfig(g) && Inv(g, s) && Apply(g, s, BuyProperty(s.turn.current, p), env).Ok?
    ensures s.turn.current < |s.players|
    ensures var s' := Apply(g, s, BuyProperty(s.turn.current, p), env).s;
            && s.turn.pending == Some(p) && OnBoard(g, p) && SpaceAt(g, p).price.Some?
            && SpaceAt(g, p).price.value <= s.players[s.turn.current].balance
            && SoldTo(ResetStrikes(s, s.turn.current), s', s.turn.current, p, SpaceAt(g, p).price.value)
            && SaleClosed(s, s') && Inv(g, s')
  {
    hide ValidConfig, Good, Inv, Apply, Dispatch, SoldTo, SaleClosed, ResetStrikes;
    InvParts(g, s);
    CurrentInRange(g, s);
    var i := s.turn.current;
    var cmd := BuyProperty(i, p);
    BuyDispatched(g, s, p, env);
    BuyHandled(g, s, p);
    TurnApplied(g, s, cmd, env);
    StepInvariant(g, s, cmd, env);
    SaleStamped(s, Buy(g, s, i, p).s, Apply(g, s, cmd, env).s, i);
    ResetSold(s, Buy(g, s, i, p).s, Apply(g, s, cmd, env).s, i, p, SpaceAt(g, p).price.value);
  }

  lemma BuyDispatched(g: Config, s: State, p: int, env: Env)
    requires ValidConfig(g) && Inv(g, s) && Good(g, s) && s.turn.current < |s.players|
    requires Apply(g, s, BuyProperty(s.turn.current, p), env).Ok?
    ensures Dispatch(g, s, BuyProperty(s.turn.current, p), env) == Buy(g, s, s.turn.current, p)
    ensures Buy(g, s, s.turn.current, p).Ok? && Buy(g, s, s.turn.current, p).s.bankruptcy.None?
  {
    hide ValidConfig, Good, Inv, Wrap, Assets, Sorted;
    OnSaleQuiet(g, s);
  }

  lemma ResetSold(s: State, s1: State, s': State, i: Seat, p: int, price: int)
    requires SoldTo(s, s1, i, p, price)
    requires s'.players == ResetStrikes(s1, i).players && s'.tiles == ResetStrikes(s1, i).tiles
    ensures SoldTo(ResetStrikes(s, i), s', i, p, price)
  {}

  lemma BuyHandled(g: Config, s: State, p: int)
    requires ValidConfig(g) && Inv(g, s) && Buy(g, s, s.turn.current, p).Ok?
    ensures var s' := Buy(g, s, s.turn.current, p).s;
            && s.turn.pending == Some(p) && OnBoard(g, p) && SpaceAt(g, p).price.Some?
            && SpaceAt(g, p).price.value <= s.players[s.turn.current].balance
            && SoldTo(s, s', s.turn.current, p, SpaceAt(g, p).price.value)
            && SaleClosed(s, s')
  {
    hide ValidConfig, DeckKept, Table, Assets, Sorted, Streets, Inventory, WorthFresh;
    InvParts(g, s);
    var i := s.turn.current;
    var s' := Buy(g, s, i, p).s;
    BuyOnBoard(g, s, p);
    OwnedAfterBuying(g, s, p);
    assert TileAt(s.tiles, p) == BARE by { OnSaleBare(g, s, p); }
  }

  lemma OnSaleBare(g: Config, s: State, p: int)
    requires Core(g, s) && OnBoard(g, p) && TileAt(s.tiles, p).owner.None?
    ensures TileAt(s.tiles, p) == BARE && |s.tiles| == |g.board|
  {
    assert TileOk(g, p, TileAt(s.tiles, p));
  }

  lemma OwnedAfterBuying(g: Config, s: State, p: int)
    requires Good(g, s) && Core(g, s) && OnBoard(g, p) && Buy(g, s, s.turn.current, p).Ok?
    ensures var s' := Buy(g, s, s.turn.current, p).s;
            |s'.players| == |s.players| && forall i: Seat :: i < |s.players| ==> (p in s'.players[i].owned <==> i == s.turn.current)
  {
    hide Good, Core, Buy;
    CurrentInRange(g, s);
    BuyCore(g, s, s.turn.current, p);
    var s' := Buy(g, s, s.turn.current, p).s;
    CoreParts(g, s');
    HeldByOne(s', p);
    BoughtTile(g, s, p) by { OnSaleSize(g, s); }
  }

  lemma OnSaleSize(g: Config, s: State)
    requires Core(g, s)
    ensures |s.tiles| == |g.board|
  {}

  lemma BoughtTile(g: Config, s: State, p: int)
    requires Good(g, s) && OnBoard(g, p) && Buy(g, s, s.turn.current, p).Ok?
    ensures var s' := Buy(g, s, s.turn.current, p).s;
            |s'.players| == |s.players| && |s'.tiles| == |s.tiles| && TileAt(s'.tiles, p).owner == Some(s.turn.current)
  {
    hide DeckKept, Assets, Sorted;
  }

  // ---------------------------------------------------------------- the award

  /** The state in which an expired auction leaves the game, before stamps. */
  lemma AwardApplied(g: Config, s: State, env: Env)
    requires ValidConfig(g) && Inv(g, s) && AuctionExpired(s, env.now)
    ensures var s' := Apply(g, s, AdvanceAuction, env).s;
            var s1 := ResolveAuction(g, s);
            s' == s1.(activeCard := s'.activeCard, turn := s1.turn.(deadline := s'.turn.deadline, actions := s'.turn.actions))
            && s'.activeCard == s.activeCard
  {
    hide ValidConfig, Good, Core, Table, Inv, Wrap, ResolveAuction;
    InvParts(g, s);
    SystemGood(g, s, AdvanceAuction, env);
    SystemTable(g, s, AdvanceAuction, env);
    AuctionPhase(g, s);
    var s1 := ResolveAuction(g, s);
    AuctionLeaderInRange(g, s);
    ResolvedAuction(g, s);
    GoodImpliesRefs(g, s1);
    WrapQuiet(g, s, s1, AdvanceAuction, env.now);
    WrapKeeps(g, s, s1, AdvanceAuction, env.now);
  }

  lemma AuctionLeaderInRange(g: Config, s: State)
    requires Good(g, s) && s.auction.Some?
    ensures s.auction.value.leader.Some? ==> s.auction.value.leader.value < |s.players|
  {}

  lemma ResolvedAuction(g: Config, s: State)
    requires Good(g, s) && s.auction.Some? && s.bankruptcy.None?
    ensures ResolveAuction(g, s).bankruptcy.None? && ResolveAuction(g, s).activeCard == s.activeCard
  {
    hide DeckKept, Assets, SortedSet;
  }

  /** With no bids, nothing but the auction and the turn record changes. */
  lemma NoBidsNoChange(g: Config, s: State, env: Env)
    requires ValidConfig(g) && Inv(g, s) && AuctionExpired(s, env.now) && s.auction.value.bids == []
    ensures var s' := Apply(g, s, AdvanceAuction, env).s;
            && s' == s.(auction := None, turn := s'.turn)
            && s'.turn == s.turn.(phase := if s.turn.streak > 0 then PreRoll else PostRoll,
                                  deadline := s'.turn.deadline, actions := s'.turn.actions)
  {
    hide ValidConfig, Good, Inv, Apply, Assets;
    InvParts(g, s);
    AuctionPhase(g, s);
    FreshIdle(g, s) by { CoreParts(g, s); }
    AwardApplied(g, s, env);
  }

  lemma FreshIdle(g: Config, s: State)
    requires WorthFresh(g, s)
    ensures RefreshAll(g, s.tiles, s.players) == s.players
  {
    hide Assets;
    forall i | 0 <= i < |s.players| ensures RefreshAll(g, s.tiles, s.players)[i] == s.players[i] {}
  }

  lemma LastBidHighest(s: State)
    requires AuctionOk(s) && s.auction.Some? && s.auction.value.bids != []
    ensures var a := s.auction.value;
            var last := a.bids[|a.bids| - 1];
            && a.leader == Some(last.bidder) && a.highest == last.amount && last.amount > 0
            && last.bidder < |s.players| && s.players[last.bidder].balance >= last.amount
            && (forall k :: 0 <= k < |a.bids| - 1 ==> a.bids[k].amount < last.amount)
  {}

  /** From `s` to `s'` the last bidder, whose bid is higher than every other, bought the auctioned square
      for that bid out of cash at hand. */
  ghost predicate SoldToBest(s: State, s': State)
    requires s.auction.Some? && s.auction.value.bids != []
  {
    var bids := s.auction.value.bids;
    var w := bids[|bids| - 1].bidder;
    var price := bids[|bids| - 1].amount;
    && (forall k :: 0 <= k < |bids| ==> bids[k].amount <= price)
    && w < |s.players| && price <= s.players[w].balance
    && SoldTo(s, s', w, s.auction.value.position, price)
    && s' == s.(players := s'.players, tiles := s'.tiles, auction := None,
                turn := s.turn.(phase := if s.turn.streak > 0 then PreRoll else PostRoll,
                                deadline := s'.turn.deadline, actions := s'.turn.actions))
  }

  /** The award.  The last bidder, whose bid is higher than every other, pays that bid out of cash at
      hand, and becomes the one and only owner of the square; nobody else and no other square changes. */
  lemma Awarded(g: Config, s: State, env: Env)
    requires ValidConfig(g) && Inv(g, s) && AuctionExpired(s, env.now) && s.auction.value.bids != []
    ensures SoldToBest(s, Apply(g, s, AdvanceAuction, env).s) && Inv(g, Apply(g, s, AdvanceAuction, env).s)
  {
    hide ValidConfig, Good, Inv, Core, Table, Apply, AuctionOk, ResolveAuction, Streets, Owns;
    InvParts(g, s);
    AuctionPhase(g, s);
    LastBidHighest(s);
    AwardApplied(g, s, env);
    SystemApplies(g, s, AdvanceAuction, env);
    StepInvariant(g, s, AdvanceAuction, env);
    var s' := Apply(g, s, AdvanceAuction, env).s;
    InvParts(g, s');
    CoreParts(g, s');
    SaleBare(g, s);
    AwardedState(g, s);
    HeldByOne(s', s.auction.value.position);
  }

  lemma SystemApplies(g: Config, s: State, cmd: Command, env: Env)
    requires ValidConfig(g) && Good(g, s) && IsSystem(cmd)
    ensures Apply(g, s, cmd, env).Ok?
  {
    hide ValidConfig, Good, Wrap, HandleSystem;
  }

  lemma SaleBare(g: Config, s: State)
    requires Inv(g, s) && s.auction.Some?
    ensures OnBoard(g, s.auction.value.position) && TileAt(s.tiles, s.auction.value.position) == BARE
  {
    hide DeckKept, ActiveSeats, Owns, Inventory, WorthFresh;
    assert Phases(g, s);
    assert TileOk(g, s.auction.value.position, TileAt(s.tiles, s.auction.value.position));
  }

  lemma AwardedState(g: Config, s: State)
    requires Core(g, s) && s.auction.Some? && s.auction.value.leader.Some? && s.auction.value.leader.value < |s.players|
    requires OnBoard(g, s.auction.value.position) && TileAt(s.tiles, s.auction.value.position).owner.None?
    ensures var s' := ResolveAuction(g, s);
            var a := s.auction.value;
            var w := a.leader.value;
            && |s'.players| == |s.players| && |s'.tiles| == |s.tiles| == |g.board| && s'.auction.None?
            && s'.players[w] == s.players[w].(balance := s.players[w].balance - a.highest, owned := s'.players[w].owned,
                                              netWorth := s'.players[w].netWorth)
            && (forall i :: 0 <= i < |s.players| && i != w ==> s'.players[i] == s.players[i])
            && s'.tiles == SetTile(s.tiles, a.position, TileAt(s.tiles, a.position).(owner := Some(w)))
            && s' == s.(players := s'.players, tiles := s'.tiles, auction := None,
                        turn := s.turn.(phase := if s.turn.streak > 0 then PreRoll else PostRoll))
  {
    hide Assets, SortedSet, Streets, Inventory;
    var a := s.auction.value;
    var w := a.leader.value;
    var owned := SortedSet(s.players[w].owned + [a.position]);
    StreetsSize(g, s.tiles);
    AcquireFresh(g, s, w, a.position, a.highest, owned);
    FreshIdle(g, Acquire(g, s, w, a.position, a.highest, owned));
  }
}
