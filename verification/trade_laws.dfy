/** `rules/trade.py`: an accepted trade can always be undone by the mirrored trade, exactly. */
module TradeLaws {
  import opened GameTypes
  import opened Seqs
  import opened Soundness
  import opened Worth
  import opened PropertyRules
  import opened Elimination
  import opened Handlers
  import opened Engine
  import opened Invariants
  import opened ExchangeLaws
  import opened StepProperty
  import opened StepTable
  import opened Steps
  import opened Timers

  /** The trade that gives everything back. */
  function Mirror(t: Trade): Trade {
    t.(offer := t.request, request := t.offer)
  }

  /** After the exchange both sides of the mirrored trade check out. */
  lemma MirrorValid(g: Config, s: State, t: Trade)
    requires TradeValid(s, t)
    ensures TradeValid(Exchange(g, s, t), Mirror(t))
  {
    hide Assets, SortedSet, Without, CheckPositions;
    var s' := Exchange(g, s, t);
    OfferFacts(s, t.proposer, t.offer);
    OfferFacts(s, t.target, t.request);
    PositionsOnBoard(s, t.proposer, t.offer);
    PositionsOnBoard(s, t.target, t.request);
    forall q | 1 <= q <= |s.tiles| ensures TileAt(s'.tiles, q) == if q in t.request.positions then TileAt(s.tiles, q).(owner := Some(t.proposer))
                                 else if q in t.offer.positions then TileAt(s.tiles, q).(owner := Some(t.target))
                                 else TileAt(s.tiles, q) {
      ExchangeTiles(s, t, q);
    }
    CheckedPositions(s'.tiles, t.proposer, t.request.positions);
    CheckedPositions(s'.tiles, t.target, t.offer.positions);
  }

  lemma PositionsOnBoard(s: State, who: Seat, offer: TradeOffer)
    requires ValidateOffer(s, who, offer).Valid?
    ensures forall k :: 0 <= k < |offer.positions| ==> 1 <= offer.positions[k] <= |s.tiles|
  {
    CheckedPositions(s.tiles, who, offer.positions);
  }

  lemma TilesRestored(g: Config, s: State, t: Trade)
    requires TradeValid(s, t)
    ensures Exchange(g, Exchange(g, s, t), Mirror(t)).tiles == s.tiles
  {
    hide Assets, SortedSet, Without, ValidateOffer;
    var s' := Exchange(g, s, t);
    var s'' := Exchange(g, s', Mirror(t));
    OfferFacts(s, t.proposer, t.offer);
    OfferFacts(s, t.target, t.request);
    MirrorValid(g, s, t);
    forall q | 1 <= q <= |s.tiles| ensures TileAt(s''.tiles, q) == TileAt(s.tiles, q) {
      ExchangeTiles(s, t, q);
      ExchangeTiles(s', Mirror(t), q);
    }
    forall k | 0 <= k < |s.tiles| ensures s''.tiles[k] == s.tiles[k] {
      assert TileAt(s''.tiles, k + 1) == TileAt(s.tiles, k + 1);
    }
  }

  /** Membership in the lists of the two parties comes back. */
  lemma OwnedRestored(g: Config, s: State, t: Trade)
    requires TradeValid(s, t) && Owns(s)
    ensures var s'' := Exchange(g, Exchange(g, s, t), Mirror(t));
            s''.players[t.proposer].owned == s.players[t.proposer].owned
            && s''.players[t.target].owned == s.players[t.target].owned
  {
    hide Assets, SortedSet, Without, ValidateOffer, Exchange, Owns, StrictlySorted, Reassign;
    var s' := Exchange(g, s, t);
    ExchangedTurn(g, s, t);
    MirrorValid(g, s, t);
    ExchangedTurn(g, s', Mirror(t));
    var s'' := Exchange(g, s', Mirror(t));
    ExchangeOwned(g, s, t);
    ExchangeOwned(g, s', Mirror(t));
    Disjoint(s, t);
    SortedUnique(s''.players[t.proposer].owned, s.players[t.proposer].owned);
    SortedUnique(s''.players[t.target].owned, s.players[t.target].owned);
  }

  /** Each side owns what it offers, and nothing the other side offers. */
  lemma Disjoint(s: State, t: Trade)
    requires TradeValid(s, t) && Owns(s)
    ensures StrictlySorted(s.players[t.proposer].owned) && StrictlySorted(s.players[t.target].owned)
    ensures forall q :: q in t.offer.positions ==>
              q in s.players[t.proposer].owned && q !in s.players[t.target].owned && q !in t.request.positions
    ensures forall q :: q in t.request.positions ==> q in s.players[t.target].owned && q !in s.players[t.proposer].owned
  {
    hide ValidateOffer, StrictlySorted;
    OfferFacts(s, t.proposer, t.offer);
    OfferFacts(s, t.target, t.request);
    forall q | q in t.offer.positions ensures HeldBy(s.tiles, t.proposer, q) {
      var k :| 0 <= k < |t.offer.positions| && t.offer.positions[k] == q;
    }
    forall q | q in t.request.positions ensures HeldBy(s.tiles, t.target, q) {
      var k :| 0 <= k < |t.request.positions| && t.request.positions[k] == q;
    }
  }

  /** The round trip: a trade followed by its mirror restores every tile and every player - cash,
      properties, jail cards and net worth - exactly. */
  lemma RoundTrip(g: Config, s: State, t: Trade)
    requires TradeValid(s, t) && Owns(s) && WorthFresh(g, s)
    ensures TradeValid(Exchange(g, s, t), Mirror(t))
    ensures Exchange(g, Exchange(g, s, t), Mirror(t)) == CloseTrade(s)
  {
    hide Assets, SortedSet, Without, ValidateOffer, Owns, Reassign;
    MirrorValid(g, s, t);
    TilesRestored(g, s, t);
    OwnedRestored(g, s, t);
    var s'' := Exchange(g, Exchange(g, s, t), Mirror(t));
    forall i | 0 <= i < |s.players| ensures s''.players[i] == s.players[i] {
      assert s''.players[i] == s.players[i].(netWorth := s''.players[i].netWorth);
    }
    assert s''.players == s.players;
  }

  // ---------------------------------------------------------------- through the engine

  /** When the engine accepts an acceptance, and what it makes of it. */
  lemma Acceptance(g: Config, s: State, i: Seat, id: int, counter: Option<TradeOffer>, env: Env)
    requires ValidConfig(g) && Good(g, s)
    ensures var r := Apply(g, s, RespondTrade(i, id, Accept, counter), env);
            && (r.Ok? <==> s.trade.Some? && s.trade.value.id == id && TradeValid(s, s.trade.value)
                           && (i == s.trade.value.proposer || i == s.trade.value.target))
            && (r.Ok? ==> var s1 := ResetStrikes(Exchange(g, s, s.trade.value), i);
                          s1.turn.current < |s1.players| && r.s == Stamp(g, s1, env.now))
  {
    hide ValidConfig, DeckKept, CheckPositions, Stamp, ResetStrikes, Exchange;
    var r := Apply(g, s, RespondTrade(i, id, Accept, counter), env);
    if r.Ok? {
      ExchangeGood(g, s, s.trade.value);
      ResetGood(g, Exchange(g, s, s.trade.value), i);
      CurrentInRange(g, ResetStrikes(Exchange(g, s, s.trade.value), i));
    }
  }

  /** Rejecting is accepted from any seat whatever, party to the trade or not, exactly while a trade of that id
      is open; it closes the trade, the turn goes on after the roll, and nothing else changes. */
  lemma Rejection(g: Config, s: State, i: Seat, id: int, counter: Option<TradeOffer>, env: Env)
    requires ValidConfig(g) && Good(g, s)
    ensures var r := Apply(g, s, RespondTrade(i, id, Reject, counter), env);
            && (r.Ok? <==> s.trade.Some? && s.trade.value.id == id)
            && (r.Ok? ==>
                  SameEstate(s, r.s)
                  && r.s == s.(players := r.s.players, trade := None,
                               turn := s.turn.(phase := PostRoll, deadline := r.s.turn.deadline, actions := r.s.turn.actions)))
  {
    hide ValidConfig, DeckKept, ComputeActions;
  }

  /** Equal players and tiles, up to strikes. */
  predicate SameEstate(a: State, b: State) {
    && a.tiles == b.tiles && |a.players| == |b.players|
    && forall i :: 0 <= i < |a.players| ==> b.players[i] == a.players[i].(strikes := b.players[i].strikes)
  }

  lemma SameEstateTrans(a: State, b: State, c: State)
    requires SameEstate(a, b) && SameEstate(b, c)
    ensures SameEstate(a, c)
  {}

  /** Strikes and turn records play no part in an exchange. */
  lemma ExchangeFrame(g: Config, a: State, b: State, t: Trade, id: int, expiresAt: int, countered: bool)
    requires SameEstate(a, b) && TradeValid(a, t)
    ensures var t' := t.(id := id, expiresAt := expiresAt, countered := countered);
            TradeValid(b, t') && SameEstate(Exchange(g, a, t), Exchange(g, b, t'))
  {
    hide Assets, SortedSet, Without, CheckPositions, Reassign;
    var t' := t.(id := id, expiresAt := expiresAt, countered := countered);
    var x, y := Exchange(g, a, t), Exchange(g, b, t');
    forall i | 0 <= i < |x.players| ensures y.players[i] == x.players[i].(strikes := y.players[i].strikes) {
      assert b.players[i] == a.players[i].(strikes := b.players[i].strikes);
    }
  }

  /** The handler of a proposal whose guards pass. */
  lemma Proposed(g: Config, s: State, target: Seat, offer: TradeOffer, request: TradeOffer, env: Env)
    requires ValidConfig(g) && Good(g, s) && s.trade.None? && s.turn.tradeOffers < MAX_TRADE_OFFERS_PER_TURN
    requires TradeValid(s, Trade(env.freshId, s.turn.current, target, offer, request, false, env.now + TRADE_DURATION_MS))
    ensures Dispatch(g, s, ProposeTrade(s.turn.current, target, offer, request), env)
            == Ok(OpenTrade(s, s.turn.current, target, offer, request, env), [])
  {
    hide ValidConfig, DeckKept, CheckPositions;
  }

  lemma OpenedEstate(g: Config, before: State, s: State, cmd: Command, target: Seat, offer: TradeOffer, request: TradeOffer, env: Env)
    requires s.turn.current < |s.players| && s.bankruptcy.None?
    requires var s2 := ResetStrikes(OpenTrade(s, s.turn.current, target, offer, request, env), s.turn.current);
             GoodRefs(g, s2) && Table(g, s2)
    ensures var s2 := ResetStrikes(OpenTrade(s, s.turn.current, target, offer, request, env), s.turn.current);
            var s3 := Wrap(g, before, s2, cmd, env.now);
            && SameEstate(s, s3)
            && s3.trade == Some(Trade(env.freshId, s.turn.current, target, offer, request, false, env.now + TRADE_DURATION_MS))
  {
    hide Table, Wrap;
    WrapQuiet(g, before, ResetStrikes(OpenTrade(s, s.turn.current, target, offer, request, env), s.turn.current), cmd, env.now);
  }

  /** What proposing a trade does. */
  lemma Proposal(g: Config, s: State, target: Seat, offer: TradeOffer, request: TradeOffer, env: Env)
    requires ValidConfig(g) && Inv(g, s) && !s.finished && s.trade.None? && s.bankruptcy.None?
    requires s.turn.phase == PostRoll && s.turn.tradeOffers < MAX_TRADE_OFFERS_PER_TURN
    requires FairOffer(offer) && FairOffer(request)
    requires TradeValid(s, Trade(env.freshId, s.turn.current, target, offer, request, false, env.now + TRADE_DURATION_MS))
    ensures var r := Apply(g, s, ProposeTrade(s.turn.current, target, offer, request), env);
            && r.Ok? && Inv(g, r.s) && SameEstate(s, r.s)
            && r.s.trade == Some(Trade(env.freshId, s.turn.current, target, offer, request, false, env.now + TRADE_DURATION_MS))
  {
    hide ValidConfig, Good, Inv, Dispatch, Wrap, Core, Table, OpenTrade, ResetStrikes, SameEstate, ValidateOffer,
         HasAnyBuildable, HasAnyMortgageable, HasAnyUnmortgageable;
    InvParts(g, s);
    CurrentInRange(g, s);
    var i := s.turn.current;
    var cmd := ProposeTrade(i, target, offer, request);
    var s1 := OpenTrade(s, i, target, offer, request, env);
    Proposed(g, s, target, offer, request, env);
    StepInvariant(g, s, cmd, env);
    DispatchGood(g, s, cmd, env);
    DispatchCore(g, s, cmd, env);
    DispatchTable(g, s, cmd, env);
    ResetGood(g, s1, i);
    ResetInv(g, s1, i);
    GoodImpliesRefs(g, ResetStrikes(s1, i));
    OpenedEstate(g, s, s, cmd, target, offer, request, env);
  }

  /** A trade belongs to the turn of its proposer. */
  lemma ProposersTurn(g: Config, s: State)
    requires Inv(g, s) && s.trade.Some?
    ensures s.trade.value.proposer == s.turn.current
  {
    hide DeckKept, ActiveSeats, Streets, Owns, Inventory, WorthFresh;
    assert Phases(g, s);
  }

  lemma TooManyOffers(g: Config, s: State, cmd: Command, env: Env)
    requires ValidConfig(g) && Good(g, s) && cmd.ProposeTrade? && s.turn.tradeOffers >= MAX_TRADE_OFFERS_PER_TURN
    ensures !Apply(g, s, cmd, env).Ok?
  {
    hide ValidConfig, Good, Wrap, ResetStrikes;
  }

  /** The round trip as three commands: accept the open trade, propose its mirror, accept that.  The mirror can be proposed
      exactly while the turn has an offer left, and then every tile and every player is back where it was (only inactivity
      strikes may have been reset). */
  lemma TradeUndone(g: Config, s: State, i: Seat, j: Seat, counter: Option<TradeOffer>, env1: Env, env2: Env, env3: Env)
    requires ValidConfig(g) && Inv(g, s) && s.trade.Some? && TradeValid(s, s.trade.value)
    requires i == s.trade.value.proposer || i == s.trade.value.target
    requires j == s.trade.value.proposer || j == s.trade.value.target
    ensures var t := s.trade.value;
            var r1 := Apply(g, s, RespondTrade(i, t.id, Accept, counter), env1);
            r1.Ok? && Good(g, r1.s) &&
            var r2 := Apply(g, r1.s, ProposeTrade(t.proposer, t.target, t.request, t.offer), env2);
            (r2.Ok? <==> s.turn.tradeOffers < MAX_TRADE_OFFERS_PER_TURN)
            && (r2.Ok? ==>
                  Good(g, r2.s)
                  && var r3 := Apply(g, r2.s, RespondTrade(j, env2.freshId, Accept, counter), env3);
                     r3.Ok? && SameEstate(s, r3.s))
  {
    hide ValidConfig, Good, Inv, Apply, Exchange, Owns, Stamp, ResetStrikes, SameEstate, ValidateOffer;
    InvParts(g, s);
    ProposersTurn(g, s);
    var t := s.trade.value;
    Acceptance(g, s, i, t.id, counter, env1);
    var s1 := Apply(g, s, RespondTrade(i, t.id, Accept, counter), env1).s;
    Negotiated(g, s, i, t.id, counter, env1);
    InvParts(g, s1);
    if s.turn.tradeOffers < MAX_TRADE_OFFERS_PER_TURN {
      MirrorTraded(g, s, s1, j, counter, env2, env3);
    } else {
      TooManyOffers(g, s1, ProposeTrade(t.proposer, t.target, t.request, t.offer), env2);
    }
  }

  /** The second and third command, from the state after the first. */
  lemma MirrorTraded(g: Config, s: State, s1: State, j: Seat, counter: Option<TradeOffer>, env2: Env, env3: Env)
    requires ValidConfig(g) && Inv(g, s) && s.trade.Some? && TradeValid(s, s.trade.value)
    requires s.trade.value.proposer == s1.turn.current && s1.turn.tradeOffers < MAX_TRADE_OFFERS_PER_TURN
    requires Inv(g, s1) && SameEstate(Exchange(g, s, s.trade.value), s1)
    requires s1.trade.None? && s1.bankruptcy.None? && !s1.finished && s1.turn.phase == PostRoll
    requires FairOffer(s.trade.value.offer) && FairOffer(s.trade.value.request)
    requires j == s.trade.value.proposer || j == s.trade.value.target
    ensures var t := s.trade.value;
            var r2 := Apply(g, s1, ProposeTrade(t.proposer, t.target, t.request, t.offer), env2);
            r2.Ok? && Good(g, r2.s) &&
            var r3 := Apply(g, r2.s, RespondTrade(j, env2.freshId, Accept, counter), env3);
            r3.Ok? && SameEstate(s, r3.s)
  {
    hide ValidConfig, Good, Inv, Apply, Exchange, Owns, Stamp, ResetStrikes, SameEstate, ValidateOffer;
    InvParts(g, s);
    InvParts(g, s1);
    var t := s.trade.value;
    RoundTrip(g, s, t) by { CoreParts(g, s); }
    var m := Mirror(t);
    var m2 := m.(id := env2.freshId, countered := false, expiresAt := env2.now + TRADE_DURATION_MS);
    ExchangeFrame(g, Exchange(g, s, t), s1, m, m2.id, m2.expiresAt, m2.countered);
    Proposal(g, s1, t.target, t.request, t.offer, env2);
    var s2 := Apply(g, s1, ProposeTrade(t.proposer, t.target, t.request, t.offer), env2).s;
    ExchangeFrame(g, s1, s2, m2, m2.id, m2.expiresAt, m2.countered);
    InvParts(g, s2);
    Acceptance(g, s2, j, m2.id, counter, env3);
    AcceptedEstate(g, Exchange(g, s2, m2), j, env3.now);
    ClosedEstate(s, Exchange(g, Exchange(g, s, t), m));
    SameEstateTrans(s, Exchange(g, Exchange(g, s, t), m), Exchange(g, s1, m2));
    SameEstateTrans(s, Exchange(g, s1, m2), Exchange(g, s2, m2));
    SameEstateTrans(s, Exchange(g, s2, m2), Apply(g, s2, RespondTrade(j, m2.id, Accept, counter), env3).s);
  }

  lemma ClosedEstate(s: State, s': State)
    requires s' == CloseTrade(s)
    ensures SameEstate(s, s')
  {}

  lemma AcceptedEstate(g: Config, s: State, i: Seat, now: int)
    requires s.turn.current < |s.players|
    ensures SameEstate(s, Stamp(g, ResetStrikes(s, i), now))
    ensures Stamp(g, ResetStrikes(s, i), now).turn.phase == s.turn.phase
    ensures Stamp(g, ResetStrikes(s, i), now).turn.tradeOffers == s.turn.tradeOffers
    ensures Stamp(g, ResetStrikes(s, i), now).turn.current == s.turn.current
    ensures Stamp(g, ResetStrikes(s, i), now).trade == s.trade && Stamp(g, ResetStrikes(s, i), now).bankruptcy == s.bankruptcy
    ensures Stamp(g, ResetStrikes(s, i), now).finished == s.finished
  {
    hide ComputeActions;
  }

  /** The state after an accepted trade. */
  lemma Negotiated(g: Config, s: State, i: Seat, id: int, counter: Option<TradeOffer>, env: Env)
    requires ValidConfig(g) && Inv(g, s) && s.trade.Some? && Apply(g, s, RespondTrade(i, id, Accept, counter), env).Ok?
    ensures var r := Apply(g, s, RespondTrade(i, id, Accept, counter), env);
            && Inv(g, r.s) && SameEstate(Exchange(g, s, s.trade.value), r.s)
            && r.s.trade.None? && r.s.bankruptcy.None? && !r.s.finished
            && r.s.turn.phase == PostRoll && r.s.turn.tradeOffers == s.turn.tradeOffers && r.s.turn.current == s.turn.current
            && FairOffer(s.trade.value.offer) && FairOffer(s.trade.value.request)
  {
    hide ValidConfig, Good, Apply, Streets, Owns, Inventory, WorthFresh, ActiveSeats, Stamp, ResetStrikes, SameEstate, Core, ValidateOffer, Exchange;
    InvParts(g, s);
    var cmd := RespondTrade(i, id, Accept, None);
    Acceptance(g, s, i, id, counter, env);
    Acceptance(g, s, i, id, None, env);
    StepInvariant(g, s, cmd, env);
    assert TradeOk(s) && Phases(g, s);
    ExchangedTurn(g, s, s.trade.value);
    AcceptedEstate(g, Exchange(g, s, s.trade.value), i, env.now);
  }

  lemma ExchangedTurn(g: Config, s: State, t: Trade)
    requires TradeValid(s, t)
    ensures Exchange(g, s, t) == s.(players := Exchange(g, s, t).players, tiles := Exchange(g, s, t).tiles, trade := None,
                                    turn := s.turn.(phase := PostRoll))
    ensures |Exchange(g, s, t).players| == |s.players|
  {}
}
