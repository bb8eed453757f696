/** Exactly which commands keep the invariants, and that the commands clients are offered are among them. */
module OrderlyLaws {
  import opened GameTypes
  import opened Soundness
  import opened Worth
  import opened Payments
  import opened Landing
  import opened PropertyRules
  import opened Elimination
  import opened Handlers
  import opened Engine
  import opened Rotation
  import opened Invariants
  import opened SurrenderLaws
  import opened Steps
  import opened Timers
  import opened Accounts

  // ---------------------------------------------------------------- what is offered is orderly

  /** Clients are offered orderly commands only. */
  lemma AdvertisedIsOrderly(g: Config, s: State, cmd: Command)
    requires Inv(g, s) && s.turn.current < |s.players| && Advertised(g, s, cmd)
    ensures Orderly(s, cmd)
  {
    hide DeckKept, HasAnyBuildable, HasAnyMortgageable, HasAnyUnmortgageable, ActiveSeats, Streets, Owns, Inventory, WorthFresh;
    assert Phases(g, s);
  }

  // ---------------------------------------------------------------- two protocols at once

  lemma OneProtocol(g: Config, s: State)
    requires Inv(g, s)
    ensures s.trade.Some? ==> !s.finished && s.auction.None? && s.bankruptcy.None?
    ensures s.trade.Some? ==> FairOffer(s.trade.value.offer) && FairOffer(s.trade.value.request)
    ensures s.turn.phase != Auctioning ==> s.auction.None?
    ensures s.turn.phase != Negotiating ==> s.trade.None?
    ensures s.turn.phase != Bankrupting ==> s.bankruptcy.None?
    ensures s.finished ==> |Survivors(s)| == 1 && s.turn.phase == GameOver
    ensures !s.finished ==> s.turn.current < |s.players| && !s.players[s.turn.current].bankrupt && |Survivors(s)| >= 2
    ensures s.bankruptcy.Some? ==> s.turn.phase == Bankrupting && s.bankruptcy.value.debtor == s.turn.current
                                   && s.bankruptcy.value.owed > 0 && !Payable(s)
    ensures !s.finished && s.trade.None? && !IsActivePhase(s.turn.phase) ==> s.auction.Some? || s.bankruptcy.Some?
  {
    hide DeckKept, ActiveSeats, Streets, Owns, Inventory, WorthFresh;
    assert Phases(g, s) && Roster(s) && TradeOk(s);
  }

  // ---------------------------------------------------------------- proposals and counter offers

  lemma ProposalOutcome(g: Config, s: State, cmd: Command, env: Env)
    requires ValidConfig(g) && Good(g, s) && cmd.ProposeTrade? && Apply(g, s, cmd, env).Ok? && !Payable(s)
    ensures var s' := Apply(g, s, cmd, env).s;
            && s.trade.None? && s'.trade.Some? && s'.trade.value.offer == cmd.offer && s'.trade.value.request == cmd.request
            && s'.auction == s.auction && s'.bankruptcy == s.bankruptcy && (s.finished ==> s'.finished)
  {
    hide ValidConfig, DeckKept, CheckPositions, Wrap, Payable;
    var s1 := Dispatch(g, s, cmd, env).s;
    var s2 := ResetStrikes(s1, cmd.player);
    DispatchGood(g, s, cmd, env);
    ResetGood(g, s1, cmd.player);
    GoodImpliesRefs(g, s2);
    WrapKeeps(g, s, s2, cmd, env.now);
    WrapFinished(g, s, s2, cmd, env.now);
    assert Payable(s2) == Payable(s) by { SamePayable(s, s2); }
    WrapBankruptcy(g, s, s2, cmd, env.now);
  }

  lemma SamePayable(a: State, b: State)
    requires a.bankruptcy == b.bankruptcy && |a.players| == |b.players|
    requires forall i :: 0 <= i < |a.players| ==> a.players[i].balance == b.players[i].balance
    ensures Payable(a) == Payable(b)
  {}

  /** The end of `apply` never reopens a finished game. */
  lemma WrapFinished(g: Config, before: State, s: State, cmd: Command, now: int)
    requires GoodRefs(g, s)
    ensures s.finished ==> Wrap(g, before, s, cmd, now).finished
  {
    hide ActiveSeats, ComputeActions, Transfer;
    if s.bankruptcy.Some? {
      TransferFrame(g, ClearCard(before, s, cmd), s.bankruptcy.value.debtor, s.bankruptcy.value.creditor, s.bankruptcy.value.owed);
    }
  }

  lemma CounterOutcome(g: Config, s: State, cmd: Command, env: Env)
    requires ValidConfig(g) && Good(g, s) && cmd.RespondTrade? && cmd.response == Counter && Apply(g, s, cmd, env).Ok?
    ensures var s' := Apply(g, s, cmd, env).s;
            cmd.counter.Some? && s'.trade.Some? && s'.trade.value.request == cmd.counter.value
  {
    hide ValidConfig, DeckKept, CheckPositions, ComputeActions;
  }

  // ---------------------------------------------------------------- surrenders

  /** What a surrender leaves of the protocols, before the end of `apply`. */
  lemma SurrenderOutcome(g: Config, s: State, who: Seat)
    requires who < |s.players| && !s.players[who].bankrupt && who == s.turn.current && |Survivors(s)| >= 1
    ensures var s' := ResolveSurrender(g, s, who);
            && |s'.players| == |s.players| && |Survivors(s')| == |Survivors(s)| - 1
            && s'.auction == s.auction && s'.trade == s.trade && s'.bankruptcy == s.bankruptcy
            && s'.players[who].balance == 0 && (s.finished ==> s'.finished)
            && (!s.finished && |Survivors(s)| >= 2 ==>
                  s'.turn.phase == GameOver || s'.turn.phase == PreRoll || s'.turn.phase == JailDecision)
  {
    hide ActiveSeats, AdvanceOff, LeaveTable;
    LeaveShape(g, s, who);
    OutFrame(g, s, who);
    ActiveRemove(s.players, LeaveTable(g, s, who).players, who, |s.players|);
    var mid := CheckWin(LeaveTable(g, s, who));
    if !mid.finished && |Survivors(s)| >= 2 {
      FreshTurn(mid, who);
    }
    SurrenderFinishes(g, s, who);
  }

  lemma SurrenderFinishes(g: Config, s: State, who: Seat)
    requires who < |s.players|
    ensures s.finished ==> ResolveSurrender(g, s, who).finished
  {
    hide ActiveSeats, NextOffset, LeaveTable;
    LeaveShape(g, s, who);
  }

  /** The end of `apply` when no debt can be paid. */
  lemma WrapUnpaid(g: Config, before: State, s: State, cmd: Command, now: int)
    requires GoodRefs(g, s) && !Payable(s)
    ensures var s' := Wrap(g, before, s, cmd, now);
            && s'.players == s.players && (s'.turn.phase == s.turn.phase || s'.turn.phase == GameOver)
  {
    hide ActiveSeats, ComputeActions, Transfer;
  }

  lemma AcceptedSurrender(g: Config, s: State, cmd: Command, env: Env)
    requires ValidConfig(g) && Good(g, s) && cmd.Surrender? && Apply(g, s, cmd, env).Ok?
    ensures cmd.player == s.turn.current && s.turn.current < |s.players| && !s.players[s.turn.current].bankrupt
    ensures var s2 := ResetStrikes(ResolveSurrender(g, s, s.turn.current), s.turn.current);
            Good(g, s2) && Apply(g, s, cmd, env).s == Wrap(g, s, s2, cmd, env.now)
  {
    hide ValidConfig, DeckKept, ResolveSurrender, Wrap;
    SurrenderGood(g, s, s.turn.current);
    ResetGood(g, ResolveSurrender(g, s, s.turn.current), s.turn.current);
  }

  /** An accepted surrender that is not orderly leaves a protocol of the old turn open, or a finished game without
      a survivor. */
  lemma DisorderlySurrender(g: Config, s: State, cmd: Command, env: Env)
    requires ValidConfig(g) && Inv(g, s) && cmd.Surrender? && Apply(g, s, cmd, env).Ok? && !Orderly(s, cmd)
    ensures !Inv(g, Apply(g, s, cmd, env).s)
  {
    hide ValidConfig, Good, Inv, Apply, Wrap, ResolveSurrender, ActiveSeats, Payable, ResetStrikes;
    InvGood(g, s);
    OneProtocol(g, s);
    AcceptedSurrender(g, s, cmd, env);
    var who := s.turn.current;
    var s1 := ResolveSurrender(g, s, who);
    var s2 := ResetStrikes(s1, who);
    var s' := Apply(g, s, cmd, env).s;
    SurrenderOutcome(g, s, who);
    ResetQuiet(s1, who);
    NothingToPay(s, s2);
    GoodImpliesRefs(g, s2);
    WrapKeeps(g, s, s2, cmd, env.now);
    WrapUnpaid(g, s, s2, cmd, env.now);
    WrapBankruptcy(g, s, s2, cmd, env.now);
    WrapFinished(g, s, s2, cmd, env.now);
    assert Survivors(s') == Survivors(s2);
    if Inv(g, s') {
      OneProtocol(g, s');
      assert false;
    }
  }

  lemma ResetQuiet(s: State, i: Seat)
    ensures var r := ResetStrikes(s, i);
            && r.auction == s.auction && r.trade == s.trade && r.bankruptcy == s.bankruptcy && r.finished == s.finished
            && |r.players| == |s.players| && Survivors(r) == Survivors(s)
            && (forall j :: 0 <= j < |s.players| ==> r.players[j].balance == s.players[j].balance)
  {
    hide ActiveSeats;
    ActiveFrame(s.players, ResetStrikes(s, i).players, |s.players|);
  }

  lemma NothingToPay(s: State, s': State)
    requires s.bankruptcy == s'.bankruptcy
    requires s.bankruptcy.Some? ==>
               var d := s.bankruptcy.value.debtor; s.bankruptcy.value.owed > 0 && d < |s'.players| && s'.players[d].balance == 0
    ensures !Payable(s')
  {}

  // ---------------------------------------------------------------- the exact condition

  lemma DisorderlyTrade(g: Config, s: State, cmd: Command, env: Env)
    requires ValidConfig(g) && Inv(g, s) && (cmd.ProposeTrade? || cmd.RespondTrade?) && Apply(g, s, cmd, env).Ok? && !Orderly(s, cmd)
    ensures !Inv(g, Apply(g, s, cmd, env).s)
  {
    hide ValidConfig, Good, Inv, Apply, ActiveSeats, Payable;
    InvGood(g, s);
    OneProtocol(g, s);
    var s' := Apply(g, s, cmd, env).s;
    if cmd.ProposeTrade? {
      assert !Payable(s) by { NoDebtPayable(s); }
      ProposalOutcome(g, s, cmd, env);
    } else {
      CounterOutcome(g, s, cmd, env);
    }
    if Inv(g, s') {
      OneProtocol(g, s');
      assert false;
    }
  }

  /** Which accepted commands keep the invariants: exactly the orderly ones.  A trade may be proposed in a phase of
      the turn itself and with amounts that are not negative, a counter offer needs such amounts, and a surrender
      needs a game in progress with no auction, trade or bankruptcy open; nothing else can do harm. */
  lemma StepExact(g: Config, s: State, cmd: Command, env: Env)
    requires ValidConfig(g) && Inv(g, s) && Apply(g, s, cmd, env).Ok?
    ensures Inv(g, Apply(g, s, cmd, env).s) <==> Orderly(s, cmd)
  {
    hide ValidConfig, Good, Inv, Apply;
    InvGood(g, s);
    if Orderly(s, cmd) {
      StepInvariant(g, s, cmd, env);
    } else if cmd.Surrender? {
      DisorderlySurrender(g, s, cmd, env);
    } else {
      DisorderlyTrade(g, s, cmd, env);
    }
  }

  // ---------------------------------------------------------------- the condition is met and missed

  /** A valid, fair proposal of the current player is accepted in any phase whatever, and keeps the invariants exactly in the
      four phases of the turn itself. */
  lemma ProposalAnywhere(g: Config, s: State, target: Seat, offer: TradeOffer, request: TradeOffer, env: Env)
    requires ValidConfig(g) && Inv(g, s) && s.trade.None? && s.turn.tradeOffers < MAX_TRADE_OFFERS_PER_TURN
    requires TradeFits(s, s.turn.current, target, offer, request) && FairOffer(offer) && FairOffer(request)
    ensures var r := Apply(g, s, ProposeTrade(s.turn.current, target, offer, request), env);
            r.Ok? && (Inv(g, r.s) <==> IsActivePhase(s.turn.phase))
  {
    hide ValidConfig, Good, Inv, Dispatch, Wrap, ResetStrikes;
    InvGood(g, s);
    var cmd := ProposeTrade(s.turn.current, target, offer, request);
    assert Dispatch(g, s, cmd, env).Ok? by { ProposalHandled(g, s, target, offer, request, env); }
    StepExact(g, s, cmd, env);
  }

  predicate TradeFits(s: State, i: Seat, target: Seat, offer: TradeOffer, request: TradeOffer) {
    i != target && ValidateOffer(s, i, offer).Valid? && ValidateOffer(s, target, request).Valid?
  }

  lemma ProposalHandled(g: Config, s: State, target: Seat, offer: TradeOffer, request: TradeOffer, env: Env)
    requires ValidConfig(g) && Good(g, s) && s.trade.None? && s.turn.tradeOffers < MAX_TRADE_OFFERS_PER_TURN
    requires TradeFits(s, s.turn.current, target, offer, request)
    ensures Dispatch(g, s, ProposeTrade(s.turn.current, target, offer, request), env).Ok?
  {
    hide ValidConfig, DeckKept, CheckPositions;
  }

  /** An active current player may surrender in any phase whatever, and keeps the invariants exactly in a game in progress
      with no protocol open. */
  lemma SurrenderAnywhere(g: Config, s: State, env: Env)
    requires ValidConfig(g) && Inv(g, s) && s.turn.current < |s.players| && !s.players[s.turn.current].bankrupt
    ensures var r := Apply(g, s, Surrender(s.turn.current), env);
            r.Ok? && (Inv(g, r.s) <==> !s.finished && s.auction.None? && s.trade.None? && s.bankruptcy.None?)
  {
    hide ValidConfig, Good, Inv, Dispatch, Wrap, ResetStrikes;
    InvGood(g, s);
    assert Dispatch(g, s, Surrender(s.turn.current), env).Ok? by { SurrenderHandled(g, s, env); }
    StepExact(g, s, Surrender(s.turn.current), env);
  }

  lemma SurrenderHandled(g: Config, s: State, env: Env)
    requires ValidConfig(g) && Good(g, s) && s.turn.current < |s.players| && !s.players[s.turn.current].bankrupt
    ensures Dispatch(g, s, Surrender(s.turn.current), env).Ok?
  {
    hide ValidConfig, DeckKept, ResolveSurrender;
  }
}
