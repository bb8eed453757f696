/** How commands are refused: what is an illegal move, and what is a square, seat or player that does not exist. */
module Refusals {
  import opened GameTypes
  import opened Seqs
  import opened Soundness
  import opened Worth
  import opened PropertyRules
  import opened Elimination
  import opened Handlers
  import opened Engine
  import opened CommandLaws
  import opened Rotation
  import opened Timers
  import opened Offers
  import opened Accounts
  import opened Decisions

  /** One position the offer may name: on the board, the player's, and unbuilt. */
  predicate MayOffer(s: State, who: Seat, p: int) {
    var t := TileAt(s.tiles, p);
    1 <= p <= |s.tiles| && t.owner == Some(who) && t.houses <= 0 && !t.hasHotel
  }

  /** Some position is off the board, and all before it may be offered. */
  predicate FirstOff(s: State, who: Seat, positions: seq<int>, k: nat) {
    k < |positions| && !(1 <= positions[k] <= |s.tiles|) && forall j :: 0 <= j < k ==> MayOffer(s, who, positions[j])
  }

  lemma {:induction false} MissingPosition(s: State, who: Seat, positions: seq<int>)
    ensures CheckPositions(s.tiles, who, positions).Missing? <==> exists k: nat :: FirstOff(s, who, positions, k)
  {
    if positions != [] {
      var rest := positions[1..];
      MissingPosition(s, who, rest);
      if exists k: nat :: FirstOff(s, who, positions, k) {
        var k: nat :| FirstOff(s, who, positions, k);
        if k > 0 {
          assert MayOffer(s, who, positions[0]);
          assert forall j :: 0 <= j < k - 1 ==> rest[j] == positions[j + 1];
          assert FirstOff(s, who, rest, k - 1);
        }
      }
      if MayOffer(s, who, positions[0]) && exists k: nat :: FirstOff(s, who, rest, k) {
        var k: nat :| FirstOff(s, who, rest, k);
        assert forall j :: 1 <= j <= k ==> positions[j] == rest[j - 1];
        assert FirstOff(s, who, positions, k + 1);
      }
      if !(1 <= positions[0] <= |s.tiles|) {
        assert FirstOff(s, who, positions, 0);
      }
    }
  }

  /** The first thing wrong with the offer is a seat or a square that does not exist. */
  ghost predicate Astray(s: State, who: Seat, offer: TradeOffer) {
    || who >= |s.players|
    || (offer.money <= s.players[who].balance && offer.jailCards <= s.players[who].jailCards
        && exists k: nat :: FirstOff(s, who, offer.positions, k))
  }

  lemma AstrayMissing(s: State, who: Seat, offer: TradeOffer)
    ensures ValidateOffer(s, who, offer).Missing? <==> Astray(s, who, offer)
  {
    hide CheckPositions, FirstOff;
    MissingPosition(s, who, offer.positions);
  }

  /** The commands that name something that does not exist, and are refused for nothing before that. */
  ghost predicate Lost(g: Config, s: State, cmd: Command)
    requires s.turn.current < |s.players|
  {
    match cmd
    case PlaceBid(i, _) => s.auction.Some? && s.turn.phase == Auctioning && i >= |s.players|
    case RespondTrade(i, id, response, counter) =>
      && s.trade.Some? && s.trade.value.id == id
      && var t := s.trade.value;
         (match response
          case Reject => false
          case Counter => i == t.target && counter.Some? && Astray(s, t.proposer, counter.value)
          case Accept =>
            (i == t.proposer || i == t.target)
            && (Astray(s, t.proposer, t.offer) || (Holds(s, t.proposer, t.offer) && Astray(s, t.target, t.request))))
    case ProposeTrade(i, target, offer, request) =>
      && i == s.turn.current && i != target && s.trade.None? && s.turn.tradeOffers < MAX_TRADE_OFFERS_PER_TURN
      && (target >= |s.players| || Astray(s, i, offer) || (Holds(s, i, offer) && Astray(s, target, request)))
    case BuildHouse(i, p) => i == s.turn.current && IsBuildPhase(s.turn.phase) && !OnBoard(g, p)
    case SellHouse(i, p) => i == s.turn.current && IsBuildPhase(s.turn.phase) && !OnBoard(g, p)
    case Mortgage(i, p) => i == s.turn.current && IsBuildPhase(s.turn.phase) && !OnBoard(g, p)
    case Unmortgage(i, p) => i == s.turn.current && IsBuildPhase(s.turn.phase) && !OnBoard(g, p)
    case EndTurn(i) =>
      && i == s.turn.current && (s.turn.phase == PostRoll || s.turn.phase == MustPayRent || s.turn.phase == Bankrupting)
      && s.turn.pending.None? && s.bankruptcy.None? && s.players[i].bankrupt
    case _ => false
  }

  /** In any well-formed state: a command fails for a look-up exactly if it is lost in this sense; every other refusal is
      the engine's own. */
  lemma FaultsExact(g: Config, s: State, cmd: Command, env: Env)
    requires ValidConfig(g) && Good(g, s)
    ensures s.turn.current < |s.players|
    ensures Apply(g, s, cmd, env).Fault? <==> Lost(g, s, cmd)
  {
    hide ValidConfig, Good, DispatchOpen, Dispatch, Wrap, ResetStrikes, Stamp, Lost, HandleSystem;
    CurrentInRange(g, s);
    if IsOpen(cmd) {
      OpenFaults(g, s, cmd, env);
    } else if !IsSystem(cmd) && cmd.player == s.turn.current {
      TurnFaults(g, s, cmd, env);
    } else {
      NeverLost(g, s, cmd);
    }
  }

  lemma NeverLost(g: Config, s: State, cmd: Command)
    requires s.turn.current < |s.players| && !IsOpen(cmd) && (IsSystem(cmd) || cmd.player != s.turn.current)
    ensures !Lost(g, s, cmd)
  {
    hide Astray, Holds;
  }

  lemma OpenFaults(g: Config, s: State, cmd: Command, env: Env)
    requires Good(g, s) && IsOpen(cmd) && s.turn.current < |s.players|
    ensures DispatchOpen(g, s, cmd, env).Fault? <==> Lost(g, s, cmd)
  {
    hide DeckKept, ValidateOffer, Astray, Holds, Exchange;
    if cmd.RespondTrade? && s.trade.Some? {
      var t := s.trade.value;
      AstrayMissing(s, t.proposer, t.offer);
      AstrayMissing(s, t.target, t.request);
      HoldsValid(s, t.proposer, t.offer);
      if cmd.counter.Some? {
        AstrayMissing(s, t.proposer, cmd.counter.value);
      }
    }
  }

  lemma TurnFaults(g: Config, s: State, cmd: Command, env: Env)
    requires ValidConfig(g) && Good(g, s) && s.turn.current < |s.players|
    requires !IsSystem(cmd) && !IsOpen(cmd) && cmd.player == s.turn.current
    ensures Dispatch(g, s, cmd, env).Fault? <==> Lost(g, s, cmd)
  {
    hide ValidConfig, DeckKept, ValidateOffer, Astray, Holds, Roll, Buy, ResolveBankruptcy, ResolveSurrender, CanBuildOn, CanSellOn, CanMortgage,
         CanUnmortgage, BuildHouseOn, SellHouseOn, MortgageOn, UnmortgageOn, NextInList, ActiveSeats;
    if cmd.ProposeTrade? {
      AstrayMissing(s, cmd.player, cmd.offer);
      AstrayMissing(s, cmd.target, cmd.request);
      HoldsValid(s, cmd.player, cmd.offer);
    } else if cmd.RollDice? || cmd.BuyProperty? {
      NoFaults(g, s, cmd, env);
    } else if cmd.EndTurn? {
      SurvivorsInRange(s.players, |s.players|);
    }
  }

  lemma NoFaults(g: Config, s: State, cmd: Command, env: Env)
    requires ValidConfig(g) && Good(g, s) && s.turn.current < |s.players|
    requires cmd.RollDice? || cmd.BuyProperty?
    requires cmd.player == s.turn.current
    ensures !Dispatch(g, s, cmd, env).Fault?
  {
    hide ValidConfig, DeckKept, ExecuteMove, Acquire, Sorted;
  }

  // ---------------------------------------------------------------- offers in any state

  /** In any well-formed state, reached in order or not: what is on offer may be bought or passed exactly after the roll, or
      while rent is being settled; buying keeps that phase unless doubles have earned a roll. */
  lemma OfferAnywhere(g: Config, s: State, p: int, env: Env)
    requires ValidConfig(g) && Good(g, s)
    ensures s.turn.current < |s.players|
    ensures var i := s.turn.current;
            var open := s.turn.phase == PostRoll || s.turn.phase == MustPayRent;
            var buy := Apply(g, s, BuyProperty(i, p), env);
            && (Apply(g, s, PassBuy(i), env).Ok? <==> open && s.turn.pending.Some?)
            && (buy.Ok? <==> open && s.turn.pending == Some(p) && IsPurchasable(g, p) && TileAt(s.tiles, p).owner.None?
                             && SpaceAt(g, p).price.Some? && SpaceAt(g, p).price.value <= s.players[i].balance)
            && (buy.Ok? && s.bankruptcy.None? && |Survivors(s)| >= 2 ==>
                  buy.s.turn.phase == if s.turn.streak > 0 then PreRoll else s.turn.phase)
  {
    hide ValidConfig, Good, Apply, Dispatch, ActiveSeats, IsPurchasable;
    CurrentInRange(g, s);
    var i := s.turn.current;
    AcceptsHandler(g, s, BuyProperty(i, p), env);
    AcceptsHandler(g, s, PassBuy(i), env);
    OfferHandled(g, s, p, env);
    if Apply(g, s, BuyProperty(i, p), env).Ok? && s.bankruptcy.None? && |Survivors(s)| >= 2 {
      BoughtPhase(g, s, p, env);
    }
  }

  lemma OfferHandled(g: Config, s: State, p: int, env: Env)
    requires ValidConfig(g) && Good(g, s) && s.turn.current < |s.players|
    ensures var i := s.turn.current;
            var open := s.turn.phase == PostRoll || s.turn.phase == MustPayRent;
            var buy := Dispatch(g, s, BuyProperty(i, p), env);
            && (Dispatch(g, s, PassBuy(i), env).Ok? <==> open && s.turn.pending.Some?)
            && (buy.Ok? <==> open && s.turn.pending == Some(p) && IsPurchasable(g, p) && TileAt(s.tiles, p).owner.None?
                             && SpaceAt(g, p).price.Some? && SpaceAt(g, p).price.value <= s.players[i].balance)
            && (buy.Ok? ==>
                  && |buy.s.players| == |s.players|
                  && (forall j :: 0 <= j < |s.players| ==> buy.s.players[j].bankrupt == s.players[j].bankrupt)
                  && buy.s.bankruptcy == s.bankruptcy && buy.s.finished == s.finished
                  && buy.s.turn.phase == if s.turn.streak > 0 then PreRoll else s.turn.phase)
  {
    hide ValidConfig, DeckKept, Assets, Sorted;
  }

  lemma BoughtPhase(g: Config, s: State, p: int, env: Env)
    requires ValidConfig(g) && Good(g, s) && s.turn.current < |s.players| && s.bankruptcy.None? && |Survivors(s)| >= 2
    requires Apply(g, s, BuyProperty(s.turn.current, p), env).Ok?
    ensures Apply(g, s, BuyProperty(s.turn.current, p), env).s.turn.phase == if s.turn.streak > 0 then PreRoll else s.turn.phase
  {
    hide ValidConfig, Good, Dispatch, Wrap, ActiveSeats, Payable;
    var i := s.turn.current;
    var cmd := BuyProperty(i, p);
    AcceptsHandler(g, s, cmd, env);
    OfferHandled(g, s, p, env);
    DispatchGood(g, s, cmd, env);
    var s1 := Dispatch(g, s, cmd, env).s;
    var s2 := ResetStrikes(s1, i);
    ResetGood(g, s1, i);
    GoodImpliesRefs(g, s2);
    ActiveFrame(s.players, s2.players, |s.players|);
    assert !Payable(s2) by { ResetBankruptcy(s1, i); NoDebt(s2); }
    WrapTurn(g, s, s2, cmd, env.now);
  }

  lemma NoDebt(s: State)
    requires s.bankruptcy.None?
    ensures !Payable(s)
  {}
}
