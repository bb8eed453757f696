/** The other commands in full: when the engine accepts a bid, an offer or a way out of jail, and all that it does. */
module CommandLaws {
  import opened GameTypes
  import opened Seqs
  import opened Soundness
  import opened Worth
  import opened PropertyRules
  import opened Elimination
  import opened Handlers
  import opened Engine
  import opened Invariants
  import opened ExchangeLaws
  import opened Steps
  import opened Timers
  import opened Offers
  import opened OrderlyLaws
  import opened TradeLaws

  /** The state with stamps of its own, and player `i` without strikes. */
  ghost predicate Acted(s: State, s': State, i: Seat)
    requires i < |s.players|
  {
    && s'.players == s.players[i := s.players[i].(strikes := 0)]
    && s' == s.(players := s'.players, turn := s.turn.(deadline := s'.turn.deadline, actions := s'.turn.actions))
  }

  lemma ResetActed(g: Config, s: State, i: Seat, now: int)
    requires i < |s.players| && s.turn.current < |s.players|
    ensures Acted(s, Stamp(g, ResetStrikes(s, i), now), i)
  {
    hide ComputeActions;
    assert s.players[i].strikes == 0 ==> s.players[i := s.players[i].(strikes := 0)] == s.players;
  }

  // ---------------------------------------------------------------- bids

  /** A bid is accepted exactly from an active player, above the highest so far and within the balance, while an auction is
      open; it becomes the last and highest of the bids, and nothing else changes. */
  lemma BidLaw(g: Config, s: State, i: Seat, amount: int, env: Env)
    requires ValidConfig(g) && Inv(g, s)
    ensures Good(g, s)
    ensures var r := Apply(g, s, PlaceBid(i, amount), env);
            && (r.Ok? <==> s.auction.Some? && i < |s.players| && !s.players[i].bankrupt
                           && s.auction.value.highest < amount <= s.players[i].balance)
            && (r.Ok? ==>
                  var a := s.auction.value;
                  Acted(s.(auction := Some(a.(bids := a.bids + [Bid(i, amount)], highest := amount, leader := Some(i)))), r.s, i))
  {
    hide ValidConfig, DeckKept, Streets, Owns, Inventory, WorthFresh, Roster, Stamp, ResetStrikes, ActiveSeats;
    InvGood(g, s);
    assert Phases(g, s);
    var r := Apply(g, s, PlaceBid(i, amount), env);
    if r.Ok? {
      ResetActed(g, AddBid(s, i, amount), i, env.now);
    }
  }

  // ---------------------------------------------------------------- trades

  /** The player has what the offer promises: the money, the jail cards, and each of the squares, without a building. */
  predicate Holds(s: State, who: Seat, offer: TradeOffer) {
    && who < |s.players| && offer.money <= s.players[who].balance && offer.jailCards <= s.players[who].jailCards
    && (forall k :: 0 <= k < |offer.positions| ==>
          var t := TileAt(s.tiles, offer.positions[k]);
          1 <= offer.positions[k] <= |s.tiles| && t.owner == Some(who) && t.houses <= 0 && !t.hasHotel)
  }

  lemma HoldsValid(s: State, who: Seat, offer: TradeOffer)
    ensures ValidateOffer(s, who, offer).Valid? <==> Holds(s, who, offer)
  {
    hide CheckPositions;
    CheckedPositions(s.tiles, who, offer.positions);
  }

  /** A proposal is accepted exactly while no trade is open and one is left in the turn, to another player, if both have what
      it promises. */
  lemma ProposalAccepted(g: Config, s: State, target: Seat, offer: TradeOffer, request: TradeOffer, env: Env)
    requires ValidConfig(g) && Good(g, s)
    ensures var i := s.turn.current;
            Apply(g, s, ProposeTrade(i, target, offer, request), env).Ok?
            <==> s.trade.None? && s.turn.tradeOffers < MAX_TRADE_OFFERS_PER_TURN && target != i
                 && Holds(s, i, offer) && Holds(s, target, request)
  {
    hide ValidConfig, Good, Apply, ValidateOffer, Holds;
    CurrentInRange(g, s);
    AcceptsHandler(g, s, ProposeTrade(s.turn.current, target, offer, request), env);
    HoldsValid(s, s.turn.current, offer);
    HoldsValid(s, target, request);
    HoldsInRange(s, target, request);
  }

  lemma HoldsInRange(s: State, who: Seat, offer: TradeOffer)
    ensures Holds(s, who, offer) ==> who < |s.players|
  {}

  /** What an orderly proposal does: the trade is open for a minute, and one proposal of the turn is used up. */
  lemma ProposalMade(g: Config, s: State, target: Seat, offer: TradeOffer, request: TradeOffer, env: Env)
    requires ValidConfig(g) && Inv(g, s) && Orderly(s, ProposeTrade(s.turn.current, target, offer, request))
    requires Apply(g, s, ProposeTrade(s.turn.current, target, offer, request), env).Ok?
    ensures s.turn.current < |s.players|
    ensures var i := s.turn.current;
            var s1 := s.(trade := Some(Trade(env.freshId, i, target, offer, request, false, env.now + 60_000)),
                         turn := s.turn.(phase := Negotiating, tradeOffers := s.turn.tradeOffers + 1), activeCard := None);
            Acted(s1, Apply(g, s, ProposeTrade(i, target, offer, request), env).s, i)
  {
    hide ValidConfig, Good, Inv, Apply, ValidateOffer;
    InvGood(g, s);
    CurrentInRange(g, s);
    OneProtocol(g, s);
    var cmd := ProposeTrade(s.turn.current, target, offer, request);
    AcceptsHandler(g, s, cmd, env);
    TurnApplied(g, s, cmd, env);
    CardCleared(g, s, cmd, env);
    ResetStrikesOnly(Dispatch(g, s, cmd, env).s, s.turn.current);
  }

  lemma ResetStrikesOnly(s: State, i: Seat)
    requires i < |s.players|
    ensures ResetStrikes(s, i) == s.(players := s.players[i := s.players[i].(strikes := 0)])
  {
    assert s.players[i].strikes == 0 ==> s.players[i := s.players[i].(strikes := 0)] == s.players;
  }

  /** The card on display goes with the next command of the player of the turn or of the clock, and stays through trade answers,
      bids, and the ends of auctions and trades. */
  lemma CardCleared(g: Config, s: State, cmd: Command, env: Env)
    requires ValidConfig(g) && Good(g, s) && Apply(g, s, cmd, env).Ok? && !cmd.RollDice?
    ensures var after := Apply(g, s, cmd, env).s.activeCard;
            after == if cmd.RespondTrade? || cmd.PlaceBid? || cmd.AdvanceAuction? || cmd.ExpireTrade? then s.activeCard else None
  {
    hide ValidConfig, Good, HandleSystem, DispatchOpen, Dispatch, Wrap, Stamp, ResetStrikes;
    HandlersKeepCard(g, s, cmd, env);
    if IsSystem(cmd) {
      SystemGood(g, s, cmd, env);
      var s1 := HandleSystem(g, s, cmd, env).0;
      GoodImpliesRefs(g, s1);
      WrapKeeps(g, s, s1, cmd, env.now);
    } else if IsOpen(cmd) {
      var s1 := DispatchOpen(g, s, cmd, env).s;
      DispatchOpenGood(g, s, cmd, env);
      ResetGood(g, s1, cmd.player);
      CurrentInRange(g, ResetStrikes(s1, cmd.player));
      ResetKeepsCard(s1, cmd.player);
      StampKeepsCard(g, ResetStrikes(s1, cmd.player), env.now);
    } else {
      var s1 := Dispatch(g, s, cmd, env).s;
      DispatchGood(g, s, cmd, env);
      ResetGood(g, s1, cmd.player);
      ResetKeepsCard(s1, cmd.player);
      GoodImpliesRefs(g, ResetStrikes(s1, cmd.player));
      WrapKeeps(g, s, ResetStrikes(s1, cmd.player), cmd, env.now);
    }
  }

  lemma ResetKeepsCard(s: State, i: Seat)
    ensures ResetStrikes(s, i).activeCard == s.activeCard
  {}

  lemma StampKeepsCard(g: Config, s: State, now: int)
    requires s.turn.current < |s.players|
    ensures Stamp(g, s, now).activeCard == s.activeCard
  {
    hide ComputeActions;
  }

  lemma HandlersKeepCard(g: Config, s: State, cmd: Command, env: Env)
    requires ValidConfig(g) && Good(g, s) && !cmd.RollDice?
    ensures IsSystem(cmd) ==> HandleSystem(g, s, cmd, env).0.activeCard == s.activeCard
    ensures IsOpen(cmd) && DispatchOpen(g, s, cmd, env).Ok? ==> DispatchOpen(g, s, cmd, env).s.activeCard == s.activeCard
    ensures !IsSystem(cmd) && !IsOpen(cmd) && cmd.player == s.turn.current && Dispatch(g, s, cmd, env).Ok? ==>
              Dispatch(g, s, cmd, env).s.activeCard == s.activeCard
  {
    hide ValidConfig, Good, Dispatch, HandleSystem, DispatchOpen;
    if IsSystem(cmd) {
      SystemKeepsCard(g, s, cmd, env);
    } else if IsOpen(cmd) {
      if DispatchOpen(g, s, cmd, env).Ok? {
        OpenKeepsCard(g, s, cmd, env);
      }
    } else if cmd.player == s.turn.current {
      TurnKeepsCard(g, s, cmd, env);
    }
  }

  lemma SystemKeepsCard(g: Config, s: State, cmd: Command, env: Env)
    requires Good(g, s) && IsSystem(cmd)
    ensures HandleSystem(g, s, cmd, env).0.activeCard == s.activeCard
  {
    hide DeckKept, Assets, SortedSet, ActiveSeats, NextOffset, ReleaseTiles, SplitCash, AppendCards;
  }

  lemma OpenKeepsCard(g: Config, s: State, cmd: Command, env: Env)
    requires Good(g, s) && IsOpen(cmd) && DispatchOpen(g, s, cmd, env).Ok?
    ensures DispatchOpen(g, s, cmd, env).s.activeCard == s.activeCard
  {
    hide DeckKept, Assets, SortedSet, CheckPositions, Reassign, Without;
  }

  lemma TurnKeepsCard(g: Config, s: State, cmd: Command, env: Env)
    requires ValidConfig(g) && Good(g, s) && !cmd.RollDice? && !IsSystem(cmd) && !IsOpen(cmd) && cmd.player == s.turn.current
    ensures Dispatch(g, s, cmd, env).Ok? ==> Dispatch(g, s, cmd, env).s.activeCard == s.activeCard
  {
    hide ValidConfig, Good, Dispatch;
    if cmd.BuildHouse? || cmd.SellHouse? || cmd.Mortgage? || cmd.Unmortgage? {
      WorkKeepsCard(g, s, cmd, env);
    } else if cmd.DeclareBankruptcy? || cmd.Surrender? {
      LeavingKeepsCard(g, s, cmd, env);
    } else {
      OtherKeepsCard(g, s, cmd, env);
    }
  }

  lemma WorkKeepsCard(g: Config, s: State, cmd: Command, env: Env)
    requires ValidConfig(g) && Good(g, s) && !cmd.RollDice? && !IsSystem(cmd) && !IsOpen(cmd) && cmd.player == s.turn.current
    requires cmd.BuildHouse? || cmd.SellHouse? || cmd.Mortgage? || cmd.Unmortgage?
    ensures Dispatch(g, s, cmd, env).Ok? ==> Dispatch(g, s, cmd, env).s.activeCard == s.activeCard
  {
    hide ValidConfig, DeckKept, CanBuildOn, CanSellOn, CanMortgage, CanUnmortgage, RefreshAll, SetTile;
  }

  lemma LeavingKeepsCard(g: Config, s: State, cmd: Command, env: Env)
    requires ValidConfig(g) && Good(g, s) && !cmd.RollDice? && !IsSystem(cmd) && !IsOpen(cmd) && cmd.player == s.turn.current
    requires cmd.DeclareBankruptcy? || cmd.Surrender?
    ensures Dispatch(g, s, cmd, env).Ok? ==> Dispatch(g, s, cmd, env).s.activeCard == s.activeCard
  {
    hide ValidConfig, DeckKept, RefreshAll, SortedSet, ActiveSeats, NextOffset, Reassign, ReleaseTiles, SplitCash, AppendCards, Interest;
  }

  lemma OtherKeepsCard(g: Config, s: State, cmd: Command, env: Env)
    requires ValidConfig(g) && Good(g, s) && !cmd.RollDice? && !IsSystem(cmd) && !IsOpen(cmd) && cmd.player == s.turn.current
    requires !cmd.BuildHouse? && !cmd.SellHouse? && !cmd.Mortgage? && !cmd.Unmortgage? && !cmd.DeclareBankruptcy? && !cmd.Surrender?
    ensures Dispatch(g, s, cmd, env).Ok? ==> Dispatch(g, s, cmd, env).s.activeCard == s.activeCard
  {
    hide ValidConfig, DeckKept, Assets, Sorted, CheckPositions, ActiveSeats;
    if cmd.EndTurn? {
      SurvivorsInRange(s.players, |s.players|);
    }
  }

  /** What an accepted trade does: the squares, the money and the jail cards of each offer change hands, buildings and mortgages
      stay as they are, and the turn goes on after the roll. */
  ghost predicate Traded(s: State, s': State, t: Trade)
    requires t.proposer < |s.players| && t.target < |s.players|
  {
    var cash := t.request.money - t.offer.money;
    var cards := t.request.jailCards - t.offer.jailCards;
    && |s'.tiles| == |s.tiles| && |s'.players| == |s.players|
    && (forall q :: 1 <= q <= |s.tiles| ==>
          TileAt(s'.tiles, q) == if q in t.offer.positions then TileAt(s.tiles, q).(owner := Some(t.target))
                                 else if q in t.request.positions then TileAt(s.tiles, q).(owner := Some(t.proposer))
                                 else TileAt(s.tiles, q))
    && (forall j :: 0 <= j < |s.players| ==>
          var sign := if j == t.proposer then 1 else if j == t.target then -1 else 0;
          var p, p' := s.players[j], s'.players[j];
          p' == p.(balance := p.balance + sign * cash, jailCards := p.jailCards + sign * cards,
                   owned := p'.owned, netWorth := p'.netWorth, strikes := p'.strikes))
    && s' == s.(tiles := s'.tiles, players := s'.players, trade := None,
                turn := s.turn.(phase := PostRoll, deadline := s'.turn.deadline, actions := s'.turn.actions))
  }

  /** Acceptance is for the two parties, exactly while both still have what the trade promises. */
  lemma AcceptLaw(g: Config, s: State, i: Seat, id: int, counter: Option<TradeOffer>, env: Env)
    requires ValidConfig(g) && Inv(g, s)
    ensures Good(g, s)
    ensures var r := Apply(g, s, RespondTrade(i, id, Accept, counter), env);
            && (r.Ok? <==> s.trade.Some? && s.trade.value.id == id && (i == s.trade.value.proposer || i == s.trade.value.target)
                           && Holds(s, s.trade.value.proposer, s.trade.value.offer)
                           && Holds(s, s.trade.value.target, s.trade.value.request))
            && (r.Ok? ==> s.trade.value.proposer < |s.players| && s.trade.value.target < |s.players|
                          && Traded(s, r.s, s.trade.value) && Owns(r.s))
  {
    hide ValidConfig, Good, Inv, Apply, Exchange, ValidateOffer, Holds, Owns, Stamp, ResetStrikes, Traded;
    InvGood(g, s);
    Acceptance(g, s, i, id, counter, env);
    if s.trade.Some? {
      var t := s.trade.value;
      HoldsValid(s, t.proposer, t.offer);
      HoldsValid(s, t.target, t.request);
      TradeRefs(g, s);
      if Apply(g, s, RespondTrade(i, id, Accept, counter), env).Ok? {
        ExchangeTraded(g, s, t);
        StampTraded(g, s, Exchange(g, s, t), t, i, env.now);
        StepInvariant(g, s, RespondTrade(i, id, Accept, counter), env);
        InvOwns(g, Apply(g, s, RespondTrade(i, id, Accept, counter), env).s);
      }
    }
  }

  lemma InvOwns(g: Config, s: State)
    requires Inv(g, s)
    ensures Owns(s)
  {}

  lemma TradeRefs(g: Config, s: State)
    requires Good(g, s) && s.trade.Some?
    ensures s.trade.value.proposer < |s.players| && s.trade.value.target < |s.players| && s.trade.value.proposer != s.trade.value.target
  {}

  lemma ExchangeTraded(g: Config, s: State, t: Trade)
    requires TradeValid(s, t)
    ensures Traded(s, Exchange(g, s, t), t)
  {
    hide Assets, SortedSet, Without, ValidateOffer, Reassign;
    OfferFacts(s, t.proposer, t.offer);
    OfferFacts(s, t.target, t.request);
    forall q | 1 <= q <= |s.tiles|
      ensures TileAt(Exchange(g, s, t).tiles, q) == if q in t.offer.positions then TileAt(s.tiles, q).(owner := Some(t.target))
                                                     else if q in t.request.positions then TileAt(s.tiles, q).(owner := Some(t.proposer))
                                                     else TileAt(s.tiles, q)
    {
      ExchangeTiles(s, t, q);
    }
  }

  lemma StampTraded(g: Config, s: State, s1: State, t: Trade, i: Seat, now: int)
    requires t.proposer < |s.players| && t.target < |s.players| && Traded(s, s1, t) && s1.turn.current < |s1.players|
    ensures Traded(s, Stamp(g, ResetStrikes(s1, i), now), t)
  {
    hide ComputeActions;
  }

  /** A counter offer is for the target, exactly while the proposer has what it asks; it replaces the request and gives the
      trade a new minute. */
  lemma CounterLaw(g: Config, s: State, i: Seat, id: int, counter: Option<TradeOffer>, env: Env)
    requires ValidConfig(g) && Good(g, s)
    ensures var r := Apply(g, s, RespondTrade(i, id, Counter, counter), env);
            && (r.Ok? <==> s.trade.Some? && s.trade.value.id == id && i == s.trade.value.target && counter.Some?
                           && Holds(s, s.trade.value.proposer, counter.value))
            && (r.Ok? ==>
                  i < |s.players|
                  && Acted(s.(trade := Some(s.trade.value.(request := counter.value, countered := true, expiresAt := env.now + 60_000))), r.s, i))
  {
    hide ValidConfig, DeckKept, ValidateOffer, Holds, Stamp, ResetStrikes;
    if s.trade.Some? && counter.Some? {
      var t := s.trade.value;
      HoldsValid(s, t.proposer, counter.value);
      if t.target < |s.players| {
        ResetActed(g, s.(trade := Some(t.(request := counter.value, countered := true, expiresAt := env.now + 60_000))), t.target, env.now);
      }
    }
  }

  // ---------------------------------------------------------------- out of jail

  /** The fine is accepted exactly from a prisoner in the jail decision who has it, and frees for it. */
  lemma FineLaw(g: Config, s: State, env: Env)
    requires ValidConfig(g) && Inv(g, s)
    ensures Good(g, s) && s.turn.current < |s.players|
    ensures var i := s.turn.current;
            var p := s.players[i];
            var r := Apply(g, s, PayJailFine(i), env);
            && (r.Ok? <==> s.turn.phase == JailDecision && p.jail.Some? && p.balance >= g.jailFine)
            && (r.Ok? ==>
                  r.s == s.(players := s.players[i := p.(jail := None, balance := p.balance - g.jailFine, netWorth := p.netWorth - g.jailFine,
                                                         strikes := 0)],
                            activeCard := None, turn := s.turn.(phase := PreRoll, deadline := r.s.turn.deadline, actions := r.s.turn.actions)))
  {
    hide ValidConfig, Good, Inv, Apply, Dispatch;
    InvGood(g, s);
    CurrentInRange(g, s);
    var cmd := PayJailFine(s.turn.current);
    AcceptsHandler(g, s, cmd, env);
    FineHandled(g, s, env);
    if Apply(g, s, cmd, env).Ok? {
      TurnApplied(g, s, cmd, env);
      CardCleared(g, s, cmd, env);
      ResetStrikesOnly(Dispatch(g, s, cmd, env).s, s.turn.current);
    }
  }

  lemma FineHandled(g: Config, s: State, env: Env)
    requires ValidConfig(g) && Inv(g, s) && Good(g, s) && s.turn.current < |s.players|
    ensures var i := s.turn.current;
            var p := s.players[i];
            var r := Dispatch(g, s, PayJailFine(i), env);
            && (r.Ok? <==> s.turn.phase == JailDecision && p.jail.Some? && p.balance >= g.jailFine)
            && (r.Ok? ==>
                  r.s == s.(players := s.players[i := p.(jail := None, balance := p.balance - g.jailFine, netWorth := p.netWorth - g.jailFine)],
                            turn := s.turn.(phase := PreRoll)) && r.s.bankruptcy.None?)
  {
    hide ValidConfig, DeckKept, ActiveSeats, Streets, Owns, Inventory, Roster, Assets;
    assert Phases(g, s) && WorthFresh(g, s);
  }

  /** A jail card is accepted exactly from a prisoner in the jail decision who has one, frees for it, and goes to the bottom of
      the chance deck. */
  lemma JailCardLaw(g: Config, s: State, env: Env)
    requires ValidConfig(g) && Inv(g, s)
    ensures Good(g, s) && s.turn.current < |s.players|
    ensures var i := s.turn.current;
            var p := s.players[i];
            var r := Apply(g, s, UseJailCard(i), env);
            && (r.Ok? <==> s.turn.phase == JailDecision && p.jail.Some? && p.jailCards > 0)
            && (r.Ok? ==>
                  r.s == s.(players := s.players[i := p.(jail := None, jailCards := p.jailCards - 1, strikes := 0)],
                            chanceDeck := s.chanceDeck + [CHANCE_JAIL_CARD], activeCard := None,
                            turn := s.turn.(phase := PreRoll, deadline := r.s.turn.deadline, actions := r.s.turn.actions)))
  {
    hide ValidConfig, Good, Inv, Apply, Dispatch;
    InvGood(g, s);
    CurrentInRange(g, s);
    var cmd := UseJailCard(s.turn.current);
    AcceptsHandler(g, s, cmd, env);
    JailCardHandled(g, s, env);
    if Apply(g, s, cmd, env).Ok? {
      TurnApplied(g, s, cmd, env);
      CardCleared(g, s, cmd, env);
      ResetStrikesOnly(Dispatch(g, s, cmd, env).s, s.turn.current);
    }
  }

  lemma JailCardHandled(g: Config, s: State, env: Env)
    requires ValidConfig(g) && Inv(g, s) && Good(g, s) && s.turn.current < |s.players|
    ensures var i := s.turn.current;
            var p := s.players[i];
            var r := Dispatch(g, s, UseJailCard(i), env);
            && (r.Ok? <==> s.turn.phase == JailDecision && p.jail.Some? && p.jailCards > 0)
            && (r.Ok? ==>
                  r.s == s.(players := s.players[i := p.(jail := None, jailCards := p.jailCards - 1)],
                            chanceDeck := s.chanceDeck + [CHANCE_JAIL_CARD], turn := s.turn.(phase := PreRoll)) && r.s.bankruptcy.None?)
  {
    hide ValidConfig, DeckKept, ActiveSeats, Streets, Owns, Inventory, Roster, Assets;
    assert Phases(g, s) && WorthFresh(g, s);
  }

  // ---------------------------------------------------------------- what they announce

  /** What the other commands of the player of the turn announce: a purchase with its price, and a square that is declined. */
  lemma CommandEvents(g: Config, s: State, cmd: Command, env: Env)
    requires ValidConfig(g) && Good(g, s) && Apply(g, s, cmd, env).Ok?
    requires !cmd.RollDice? && !cmd.EndTurn? && !cmd.Surrender? && !cmd.TurnTimeout?
    ensures cmd.PassBuy? ==> s.turn.pending.Some?
    ensures cmd.BuyProperty? ==> SpaceAt(g, cmd.position).price.Some?
    ensures Apply(g, s, cmd, env).events == if cmd.BuyProperty? then [PropertyBought(s.turn.current, cmd.position, SpaceAt(g, cmd.position).price.value)]
                                            else if cmd.PassBuy? then [BuyDeclined(s.turn.current, s.turn.pending.value)]
                                            else []
  {
    hide ValidConfig, Good, Wrap, Stamp, ResetStrikes, HandleSystem, DispatchOpen, Dispatch;
    CurrentInRange(g, s);
    HandledEvents(g, s, cmd, env);
  }

  lemma HandledEvents(g: Config, s: State, cmd: Command, env: Env)
    requires ValidConfig(g) && Good(g, s) && s.turn.current < |s.players|
    requires !cmd.RollDice? && !cmd.EndTurn? && !cmd.Surrender? && !cmd.TurnTimeout?
    ensures IsSystem(cmd) ==> HandleSystem(g, s, cmd, env).1 == []
    ensures IsOpen(cmd) && DispatchOpen(g, s, cmd, env).Ok? ==> DispatchOpen(g, s, cmd, env).events == []
    ensures !IsSystem(cmd) && !IsOpen(cmd) && cmd.player == s.turn.current && Dispatch(g, s, cmd, env).Ok? ==>
              && (cmd.PassBuy? ==> s.turn.pending.Some?) && (cmd.BuyProperty? ==> SpaceAt(g, cmd.position).price.Some?)
              && Dispatch(g, s, cmd, env).events
                 == if cmd.BuyProperty? then [PropertyBought(s.turn.current, cmd.position, SpaceAt(g, cmd.position).price.value)]
                    else if cmd.PassBuy? then [BuyDeclined(s.turn.current, s.turn.pending.value)]
                    else []
  {
    hide ValidConfig, DeckKept, Acquire, Exchange, ResolveBankruptcy, ResolveAuction, ValidateOffer, CanBuildOn, CanSellOn, CanMortgage, CanUnmortgage,
         BuildHouseOn, SellHouseOn, MortgageOn, UnmortgageOn, Assets, Sorted;
  }
}
