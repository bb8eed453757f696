/** `actions.py` against the engine: what players are offered and what the engine accepts. */
module Offers {
  import opened GameTypes
  import opened Seqs
  import opened Soundness
  import opened Worth
  import opened Payments
  import opened PropertyRules
  import opened Elimination
  import opened Handlers
  import opened Engine
  import opened Invariants
  import opened ExchangeLaws
  import opened Timers

  predicate Accepts(g: Config, s: State, cmd: Command, env: Env)
    requires ValidConfig(g) && Good(g, s)
  {
    Apply(g, s, cmd, env).Ok?
  }

  /** `apply` accepts a command of the current player exactly when its handler does. */
  lemma AcceptsHandler(g: Config, s: State, cmd: Command, env: Env)
    requires ValidConfig(g) && Good(g, s) && !IsSystem(cmd) && !IsOpen(cmd) && cmd.player == s.turn.current
    ensures Accepts(g, s, cmd, env) <==> Dispatch(g, s, cmd, env).Ok?
  {
    hide ValidConfig, Good, Dispatch, Wrap, ResetStrikes;
  }

  lemma LiveOf(g: Config, s: State)
    requires Inv(g, s) && !s.finished
    ensures s.turn.current < |s.players| && Live(g, s)
  {
    hide DeckKept, ActiveSeats, Streets, Owns, Inventory, WorthFresh;
  }

  // ---------------------------------------------------------------- rolling and ending the turn

  lemma CurrentSurvives(s: State)
    requires s.turn.current < |s.players| && !s.players[s.turn.current].bankrupt
    ensures s.turn.current in Survivors(s)
    ensures forall k :: 0 <= k < |Survivors(s)| ==> Survivors(s)[k] < |s.players|
  {
    hide ActiveSeats;
    SurvivorsInRange(s.players, |s.players|);
  }

  /** Rolling is offered exactly when it is accepted, and so is ending the turn. */
  lemma RollAndEnd(g: Config, s: State, env: Env)
    requires ValidConfig(g) && Inv(g, s) && !s.finished
    ensures s.turn.current < |s.players|
    ensures var offered := ComputeActions(g, s, s.turn.current);
            && (offered.canRoll <==> Accepts(g, s, RollDice(s.turn.current), env))
            && (offered.canEndTurn <==> Accepts(g, s, EndTurn(s.turn.current), env))
  {
    hide ValidConfig, DeckKept, Apply, ExecuteMove, ActiveSeats, Streets, Owns, Inventory, WorthFresh,
         HasAnyBuildable, HasAnyMortgageable, HasAnyUnmortgageable, Roster;
    LiveOf(g, s);
    AcceptsHandler(g, s, RollDice(s.turn.current), env);
    AcceptsHandler(g, s, EndTurn(s.turn.current), env);
    CurrentSurvives(s);
  }

  // ---------------------------------------------------------------- jail

  /** The fine and the card are accepted exactly when they are offered to a prisoner, as long as the server
      is set to the fine the offer is computed with. */
  lemma WaysOutOfJail(g: Config, s: State, env: Env)
    requires ValidConfig(g) && Inv(g, s) && !s.finished
    ensures s.turn.current < |s.players|
    ensures var offered := ComputeActions(g, s, s.turn.current);
            var jailed := s.players[s.turn.current].jail.Some?;
            && (Accepts(g, s, UseJailCard(s.turn.current), env) <==> offered.canUseJailCard && jailed)
            && (g.jailFine == JAIL_FINE ==> (Accepts(g, s, PayJailFine(s.turn.current), env) <==> offered.canPayJailFine && jailed))
  {
    hide ValidConfig, DeckKept, Apply, ActiveSeats, Streets, Owns, Inventory, WorthFresh,
         HasAnyBuildable, HasAnyMortgageable, HasAnyUnmortgageable, Roster, Assets;
    LiveOf(g, s);
    AcceptsHandler(g, s, UseJailCard(s.turn.current), env);
    AcceptsHandler(g, s, PayJailFine(s.turn.current), env);
  }

  // ---------------------------------------------------------------- buying and bidding

  /** Buying is accepted exactly when it is offered and affordable. */
  lemma Buying(g: Config, s: State, p: int, env: Env)
    requires ValidConfig(g) && Inv(g, s) && !s.finished
    ensures s.turn.current < |s.players|
    ensures OnBoard(g, p) && IsPurchasable(g, p) ==> SpaceAt(g, p).price.Some?
    ensures Accepts(g, s, BuyProperty(s.turn.current, p), env)
            <==> ComputeActions(g, s, s.turn.current).canBuy && s.turn.pending == Some(p)
                 && SpaceAt(g, p).price.Some? && s.players[s.turn.current].balance >= SpaceAt(g, p).price.value
  {
    hide DeckKept, Apply, ActiveSeats, Streets, Owns, Inventory, WorthFresh,
         HasAnyBuildable, HasAnyMortgageable, HasAnyUnmortgageable, Roster, Acquire, Sorted;
    LiveOf(g, s);
    AcceptsHandler(g, s, BuyProperty(s.turn.current, p), env);
    assert OnBoard(g, p) ==> SpaceOk(g, p);
  }

  /** A player is offered to bid exactly when some bid of theirs would be accepted and they do not hold the
      highest bid already; the whole balance is then such a bid. */
  lemma BiddingOffer(g: Config, s: State, who: Seat, env: Env)
    requires ValidConfig(g) && Inv(g, s) && s.auction.Some? && who < |s.players|
    ensures ComputeActions(g, s, who).canBid
            <==> s.auction.value.leader != Some(who) && exists amount :: Accepts(g, s, PlaceBid(who, amount), env)
    ensures ComputeActions(g, s, who).canBid ==> Accepts(g, s, PlaceBid(who, s.players[who].balance), env)
  {
    hide ValidConfig, DeckKept, ActiveSeats, Streets, Owns, Inventory, WorthFresh, ResetStrikes, Stamp;
    LiveOf(g, s) by { assert !s.finished by { AuctionRuns(g, s); } }
    assert Accepts(g, s, PlaceBid(who, s.players[who].balance), env)
           <==> !s.players[who].bankrupt && s.players[who].balance > s.auction.value.highest;
  }

  lemma AuctionRuns(g: Config, s: State)
    requires Inv(g, s) && s.auction.Some?
    ensures !s.finished
  {
    hide DeckKept, ActiveSeats, Streets, Owns, Inventory, WorthFresh;
    assert Phases(g, s);
  }

  // ---------------------------------------------------------------- building and mortgages

  lemma CoreOf(g: Config, s: State)
    requires Inv(g, s)
    ensures Good(g, s) && Owns(s) && |s.tiles| == |g.board|
  {
    hide ActiveSeats, Inventory, WorthFresh;
  }

  /** Where the engine accepts building and mortgage commands of the current player. */
  lemma WorkAccepted(g: Config, s: State, p: int, env: Env)
    requires ValidConfig(g) && Good(g, s) && Owns(s) && |s.tiles| == |g.board| && s.turn.current < |s.players|
    ensures var i := s.turn.current;
            var here := IsBuildPhase(s.turn.phase) && p in s.players[i].owned;
            && (Accepts(g, s, BuildHouse(i, p), env) <==> here && CanBuildOn(g, s, i, p))
            && (Accepts(g, s, Mortgage(i, p), env) <==> here && CanMortgage(g, s, i, p))
            && (Accepts(g, s, Unmortgage(i, p), env) <==> here && CanUnmortgage(g, s, i, p))
  {
    hide ValidConfig, Good, Accepts, HasMonopoly, Owns, Rework;
    var i := s.turn.current;
    HeldByOne(s, p);
    AcceptsHandler(g, s, BuildHouse(i, p), env);
    AcceptsHandler(g, s, Mortgage(i, p), env);
    AcceptsHandler(g, s, Unmortgage(i, p), env);
  }

  /** Building is offered exactly when the engine accepts building somewhere. */
  lemma BuildingOffer(g: Config, s: State, env: Env)
    requires ValidConfig(g) && Inv(g, s) && !s.finished
    ensures s.turn.current < |s.players|
    ensures ComputeActions(g, s, s.turn.current).canBuild <==> exists p :: Accepts(g, s, BuildHouse(s.turn.current, p), env)
  {
    hide ValidConfig, Inv, Good, Accepts, CanBuildOn, Owns, HasAnyMortgageable, HasAnyUnmortgageable;
    CoreOf(g, s);
    CurrentInRange(g, s);
    var i := s.turn.current;
    forall p ensures Accepts(g, s, BuildHouse(i, p), env) <==> IsBuildPhase(s.turn.phase) && p in s.players[i].owned && CanBuildOn(g, s, i, p) {
      WorkAccepted(g, s, p, env);
    }
    if HasAnyBuildable(g, s, i) && IsBuildPhase(s.turn.phase) {
      var p :| p in s.players[i].owned && CanBuildOn(g, s, i, p);
      assert Accepts(g, s, BuildHouse(i, p), env);
    }
  }

  /** And so are mortgaging and unmortgaging. */
  lemma MortgageOffers(g: Config, s: State, env: Env)
    requires ValidConfig(g) && Inv(g, s) && !s.finished
    ensures s.turn.current < |s.players|
    ensures ComputeActions(g, s, s.turn.current).canMortgage <==> exists p :: Accepts(g, s, Mortgage(s.turn.current, p), env)
    ensures ComputeActions(g, s, s.turn.current).canUnmortgage <==> exists p :: Accepts(g, s, Unmortgage(s.turn.current, p), env)
  {
    hide ValidConfig, Inv, Good, Accepts, CanMortgage, CanUnmortgage, Owns, HasAnyBuildable;
    CoreOf(g, s);
    CurrentInRange(g, s);
    var i := s.turn.current;
    forall p
      ensures Accepts(g, s, Mortgage(i, p), env) <==> IsBuildPhase(s.turn.phase) && p in s.players[i].owned && CanMortgage(g, s, i, p)
      ensures Accepts(g, s, Unmortgage(i, p), env) <==> IsBuildPhase(s.turn.phase) && p in s.players[i].owned && CanUnmortgage(g, s, i, p)
    {
      WorkAccepted(g, s, p, env);
    }
    if HasAnyMortgageable(g, s, i) && IsBuildPhase(s.turn.phase) {
      var p :| p in s.players[i].owned && CanMortgage(g, s, i, p);
      assert Accepts(g, s, Mortgage(i, p), env);
    }
    if HasAnyUnmortgageable(g, s, i) && IsBuildPhase(s.turn.phase) {
      var p :| p in s.players[i].owned && CanUnmortgage(g, s, i, p);
      assert Accepts(g, s, Unmortgage(i, p), env);
    }
  }

  // ---------------------------------------------------------------- trading and giving up

  /** Declaring bankruptcy is offered exactly when it is accepted; giving up is accepted whenever it is offered;
      and when trading is offered, any valid trade with another player may be proposed. */
  lemma TradingAndGivingUp(g: Config, s: State, target: Seat, offer: TradeOffer, request: TradeOffer, env: Env)
    requires ValidConfig(g) && Inv(g, s) && !s.finished
    requires TradeValid(s, Trade(env.freshId, s.turn.current, target, offer, request, false, env.now + TRADE_DURATION_MS))
    ensures s.turn.current < |s.players|
    ensures var offered := ComputeActions(g, s, s.turn.current);
            && (offered.canDeclareBankruptcy <==> Accepts(g, s, DeclareBankruptcy(s.turn.current), env))
            && (offered.canSurrender ==> Accepts(g, s, Surrender(s.turn.current), env))
            && (offered.canTrade ==> Accepts(g, s, ProposeTrade(s.turn.current, target, offer, request), env))
  {
    hide ValidConfig, DeckKept, Apply, ActiveSeats, Streets, Owns, Inventory, WorthFresh, ResolveBankruptcy, ResolveSurrender,
         HasAnyBuildable, HasAnyMortgageable, HasAnyUnmortgageable, Roster, CheckPositions;
    LiveOf(g, s);
    AcceptsHandler(g, s, DeclareBankruptcy(s.turn.current), env);
    AcceptsHandler(g, s, Surrender(s.turn.current), env);
    AcceptsHandler(g, s, ProposeTrade(s.turn.current, target, offer, request), env);
  }

  /** Trading is offered before and after the roll while no trade is open and a proposal is left, and giving up in the four
      phases of the turn itself; and nobody but the player of the turn is offered anything outside an auction. */
  lemma OfferedInTurn(g: Config, s: State, who: Seat)
    requires Inv(g, s) && !s.finished && who < |s.players|
    ensures var offered := ComputeActions(g, s, who);
            var mine := who == s.turn.current;
            && (offered.canTrade <==> mine && (s.turn.phase == PreRoll || s.turn.phase == PostRoll) && s.turn.tradeOffers < MAX_TRADE_OFFERS_PER_TURN)
            && (offered.canSurrender <==> mine && IsActivePhase(s.turn.phase))
            && (!mine && s.auction.None? ==> offered == NO_ACTIONS)
  {
    hide DeckKept, ActiveSeats, Streets, Owns, Inventory, WorthFresh, HasAnyBuildable, HasAnyMortgageable, HasAnyUnmortgageable, Roster;
    LiveOf(g, s);
  }

  // ---------------------------------------------------------------- the stored offer and the clock

  /** After every accepted command the action set stored in the turn is the one computed from the new state, and the
      clock of the turn starts anew. */
  lemma ActionsFresh(g: Config, s: State, cmd: Command, env: Env)
    requires ValidConfig(g) && Good(g, s) && Apply(g, s, cmd, env).Ok?
    ensures var s' := Apply(g, s, cmd, env).s;
            && s'.turn.current < |s'.players|
            && s'.turn.actions == ComputeActions(g, s', s'.turn.current)
            && s'.turn.deadline == Some(env.now + g.turnTimeout)
  {
    hide ValidConfig, Good, HandleSystem, DispatchOpen, Dispatch, ResetStrikes, TrySettleDebt, CheckWin, Stamp, ClearCard;
    CurrentInRange(g, Apply(g, s, cmd, env).s);
    if IsSystem(cmd) {
      SystemGood(g, s, cmd, env);
      WrappedFresh(g, s, HandleSystem(g, s, cmd, env).0, cmd, env.now);
    } else if IsOpen(cmd) {
      DispatchOpenGood(g, s, cmd, env);
      var s1 := DispatchOpen(g, s, cmd, env).s;
      ResetGood(g, s1, cmd.player);
      CurrentInRange(g, ResetStrikes(s1, cmd.player));
      StampFresh(g, ResetStrikes(s1, cmd.player), env.now);
    } else {
      DispatchGood(g, s, cmd, env);
      var s1 := Dispatch(g, s, cmd, env).s;
      ResetGood(g, s1, cmd.player);
      WrappedFresh(g, s, ResetStrikes(s1, cmd.player), cmd, env.now);
    }
  }

  lemma StampFresh(g: Config, s: State, now: int)
    requires s.turn.current < |s.players|
    ensures var s' := Stamp(g, s, now);
            s'.turn.current < |s'.players| && s'.turn.actions == ComputeActions(g, s', s'.turn.current)
            && s'.turn.deadline == Some(now + g.turnTimeout)
  {
    hide HasAnyBuildable, HasAnyMortgageable, HasAnyUnmortgageable;
    SameWork(g, WithDeadline(g, s, now), Stamp(g, s, now), s.turn.current);
  }

  /** What can be built or mortgaged does not depend on the turn record. */
  lemma SameWork(g: Config, a: State, b: State, who: Seat)
    requires who < |a.players| && b == a.(turn := b.turn)
    ensures HasAnyBuildable(g, a, who) == HasAnyBuildable(g, b, who)
    ensures HasAnyMortgageable(g, a, who) == HasAnyMortgageable(g, b, who)
    ensures HasAnyUnmortgageable(g, a, who) == HasAnyUnmortgageable(g, b, who)
  {
    forall p ensures CanBuildOn(g, a, who, p) == CanBuildOn(g, b, who, p) && CanMortgage(g, a, who, p) == CanMortgage(g, b, who, p)
                     && CanUnmortgage(g, a, who, p) == CanUnmortgage(g, b, who, p) {
      hide HasMonopoly;
    }
  }

  lemma WrappedFresh(g: Config, before: State, s: State, cmd: Command, now: int)
    requires Good(g, s)
    ensures var s' := Wrap(g, before, s, cmd, now);
            s'.turn.current < |s'.players| && s'.turn.actions == ComputeActions(g, s', s'.turn.current)
            && s'.turn.deadline == Some(now + g.turnTimeout)
  {
    hide DeckKept, TrySettleDebt, ActiveSeats, Stamp;
    StampFresh(g, CheckWin(TrySettleDebt(g, ClearCard(before, s, cmd))), now);
  }

  // ---------------------------------------------------------------- out of jail

  /** Both ways out work: the prisoner is free, on the same square, and offered to roll next. */
  lemma WayOutWorks(g: Config, s: State, cmd: Command, env: Env)
    requires ValidConfig(g) && Inv(g, s) && Apply(g, s, cmd, env).Ok?
    requires cmd == UseJailCard(s.turn.current) || cmd == PayJailFine(s.turn.current)
    ensures s.turn.current < |s.players|
    ensures var s' := Apply(g, s, cmd, env).s;
            && |s'.players| == |s.players| && s'.turn.current == s.turn.current
            && s'.players[s.turn.current].jail.None? && s'.players[s.turn.current].position == s.players[s.turn.current].position
            && s'.turn.phase == PreRoll && s'.turn.actions.canRoll
  {
    hide ValidConfig, Good, Inv, Apply, Dispatch, ResetStrikes, HasAnyBuildable, HasAnyMortgageable, HasAnyUnmortgageable;
    CoreOf(g, s);
    CurrentInRange(g, s);
    WayOutHandled(g, s, cmd, env);
    TurnApplied(g, s, cmd, env);
    ResetPlace(Dispatch(g, s, cmd, env).s, s.turn.current);
    ActionsFresh(g, s, cmd, env);
  }

  lemma WayOutHandled(g: Config, s: State, cmd: Command, env: Env)
    requires ValidConfig(g) && Inv(g, s) && Good(g, s) && Apply(g, s, cmd, env).Ok? && s.turn.current < |s.players|
    requires cmd == UseJailCard(s.turn.current) || cmd == PayJailFine(s.turn.current)
    ensures Dispatch(g, s, cmd, env).Ok?
    ensures var s1 := Dispatch(g, s, cmd, env).s;
            && |s1.players| == |s.players| && s1.turn.current == s.turn.current && s1.turn.phase == PreRoll && s1.bankruptcy.None?
            && s1.players[s.turn.current].jail.None? && s1.players[s.turn.current].position == s.players[s.turn.current].position
  {
    hide ValidConfig, DeckKept, ActiveSeats, Streets, Owns, Inventory, WorthFresh, Roster, Assets, Wrap, ResetStrikes;
    assert Phases(g, s);
  }

  lemma ResetPlace(s: State, i: Seat)
    requires i < |s.players|
    ensures var r := ResetStrikes(s, i);
            && r.turn == s.turn && |r.players| == |s.players|
            && r.players[i].jail == s.players[i].jail && r.players[i].position == s.players[i].position
  {}

  // ---------------------------------------------------------------- no dead end

  /** A command the engine accepts from a player in every game in progress that is not up for auction. */
  function WayOn(s: State): Command {
    var i := s.turn.current;
    if s.trade.Some? then RespondTrade(i, s.trade.value.id, Reject, None)
    else if s.bankruptcy.Some? then DeclareBankruptcy(i)
    else if s.turn.phase == PreRoll || s.turn.phase == JailDecision then RollDice(i)
    else if s.turn.pending.Some? then PassBuy(i)
    else EndTurn(i)
  }

  /** No dead end: outside an auction, which the clock ends, the current player can always do something. */
  lemma NoDeadEnd(g: Config, s: State, env: Env)
    requires ValidConfig(g) && Inv(g, s) && !s.finished && s.auction.None?
    ensures Accepts(g, s, WayOn(s), env)
  {
    hide ValidConfig, DeckKept, Apply, ActiveSeats, Streets, Owns, Inventory, WorthFresh, ExecuteMove, ResolveBankruptcy, Roster;
    LiveOf(g, s);
    CurrentSurvives(s);
    var cmd := WayOn(s);
    if s.trade.Some? {
      RejectAccepted(g, s, env);
    } else {
      AcceptsHandler(g, s, cmd, env);
    }
  }

  lemma RejectAccepted(g: Config, s: State, env: Env)
    requires ValidConfig(g) && Good(g, s) && s.trade.Some?
    ensures Accepts(g, s, RespondTrade(s.turn.current, s.trade.value.id, Reject, None), env)
  {
    hide ValidConfig, DeckKept, Stamp, ResetStrikes;
  }
}
