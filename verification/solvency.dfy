/** Who can be overdrawn, and by what. */
module Solvency {
  import opened GameTypes
  import opened Seqs
  import opened Soundness
  import opened Worth
  import opened Payments
  import opened Landing
  import opened PropertyRules
  import opened Elimination
  import opened Handlers
  import opened Engine
  import opened Invariants
  import opened ExchangeLaws
  import opened StepProperty
  import opened StepRoll
  import opened Steps
  import opened Timers
  import opened Accounts
  import opened OrderlyLaws
  import opened Foresight
  import opened Setup

  /** Nobody is overdrawn, and an open debt is a positive amount. */
  predicate Solvent(s: State) {
    && (forall i :: 0 <= i < |s.players| ==> s.players[i].balance >= 0)
    && (s.bankruptcy.Some? ==> s.bankruptcy.value.owed > 0)
  }

  /** The amounts of the mode are what their names say: nobody is charged by a credit. */
  predicate Sensible(g: Config) {
    && g.goSalary >= 0
    && (forall p | 1 <= p <= |g.board| :: SpaceAt(g, p).houseCost >= 0 && SpaceAt(g, p).mortgageValue >= 0)
    && (forall id | id in g.cards :: SensibleEffect(g.cards[id]))
  }

  predicate SensibleEffect(e: Effect) {
    match e
    case Collect(amount) => amount >= 0
    case CollectFromEach(amount) => amount >= 0
    case PayEach(amount) => amount >= 0
    case _ => true
  }

  // ---------------------------------------------------------------- the roll

  lemma CreditSolvent(g: Config, s: State, i: Seat, amount: int)
    requires Solvent(s) && i < |s.players| && s.players[i].balance + amount >= 0
    ensures Solvent(Credited(g, s, i, amount))
  {
    hide Assets;
  }

  lemma CreditSeats(g: Config, s: State, i: Seat, amount: int)
    requires i < |s.players|
    ensures |Credited(g, s, i, amount).players| == |s.players|
    ensures forall j :: 0 <= j < |s.players| ==>
              Credited(g, s, i, amount).players[j].balance == s.players[j].balance + (if j == i then amount else 0)
  {
    hide Assets;
  }

  lemma SameBalances(g: Config, a: State, b: State)
    requires |a.players| == |b.players| && a.bankruptcy == b.bankruptcy
    requires forall j :: 0 <= j < |a.players| ==> b.players[j].balance == a.players[j].balance
    ensures Solvent(a) ==> Solvent(b)
  {}

  lemma {:induction false} FateSensible(g: Config, chance: seq<CardId>, chest: seq<CardId>, p: int, cash: int, depth: nat, multiplier: int)
    requires ValidConfig(g) && Sensible(g) && OnBoard(g, p) && depth <= CARD_LANDING_RECURSION_LIMIT
    requires DeckKept(g, chance, g.chanceDeck) && DeckKept(g, chest, g.chestDeck)
    ensures var f := Foretell(g, chance, chest, p, cash, depth, multiplier);
            f.stop.Card? ==> SensibleEffect(f.stop.effect)
    decreases CARD_LANDING_RECURSION_LIMIT - depth, Rank(g, p)
  {
    hide ValidConfig, Sensible, SensibleEffect, DeckKept, DrawFrom, ForetellCard;
    if SpaceAt(g, p).corner != Some(GotoJail) && IsCardSquare(g, p) {
      DeckAt(g, chance, chest, p);
      if SpaceAt(g, p).kind == Chance {
        var (rest, card) := DrawFrom(g, chance, []);
        CardFateSensible(g, rest, chest, p, cash, card, depth);
      } else {
        var (rest, card) := DrawFrom(g, chest, []);
        CardFateSensible(g, chance, rest, p, cash, card, depth);
      }
    }
  }

  lemma {:induction false} CardFateSensible(g: Config, chance: seq<CardId>, chest: seq<CardId>, p: int, cash: int, card: CardId, depth: nat)
    requires ValidConfig(g) && Sensible(g) && OnBoard(g, p) && depth <= CARD_LANDING_RECURSION_LIMIT
    requires DeckKept(g, chance, g.chanceDeck) && DeckKept(g, chest, g.chestDeck) && CardOk(g, card)
    ensures var f := ForetellCard(g, chance, chest, p, cash, g.cards[card], depth);
            f.stop.Card? ==> SensibleEffect(f.stop.effect)
    decreases CARD_LANDING_RECURSION_LIMIT - depth, 1, 0
  {
    hide ValidConfig, Sensible, SensibleEffect, DeckKept, Destination, Foretell;
    var effect := g.cards[card];
    SensibleCard(g, card);
    if Moves(effect) && !(effect.GoBack? && depth >= CARD_LANDING_RECURSION_LIMIT) {
      var (to, salary) := Destination(g, p, effect);
      FateSensible(g, chance, chest, to, cash + if salary then g.goSalary else 0, if effect.GoBack? then depth + 1 else depth,
                   if effect.AdvanceToNearest? && effect.payDouble then 2 else 1);
    }
  }

  lemma SensibleCard(g: Config, card: CardId)
    requires Sensible(g) && card in g.cards
    ensures SensibleEffect(g.cards[card])
  {}

  /** The roller comes out of the roll with no less than nothing: the balance less a forced fine, with the
      salaries earned on the way, and the card the way ends with, if it ends with one. */
  predicate CanAffordRoll(g: Config, s: State, i: Seat, dice: DiceRoll)
    requires ValidConfig(g) && Good(g, s) && i < |s.players|
  {
    StaysPut(s, i, dice) || RollFate(g, s, i, dice).cash + Gift(s, i, RollFate(g, s, i, dice), i) >= 0
  }

  /** Nobody else is overdrawn by a roll, and the roller is not by a debt: it is paid only if the cash suffices. */
  lemma StopSolvent(g: Config, s: State, i: Seat, total: int, f: Fate, j: Seat)
    requires i < |s.players| && j < |s.players| && s.players[j].balance >= 0
    requires f.stop.Card? ==> SensibleEffect(f.stop.effect)
    ensures if j == i then BalanceAfter(g, s, i, total, f, j) >= 0 <==> f.cash + Gift(s, i, f, i) >= 0
            else BalanceAfter(g, s, i, total, f, j) >= 0
  {
    hide Contributions, ActiveOthers, RepairsCost, CalculateRent;
  }

  /** A roll overdraws somebody exactly when it overdraws the roller. */
  lemma RollSolvent(g: Config, s: State, i: Seat, env: Env)
    requires ValidConfig(g) && Sensible(g) && Good(g, s) && i < |s.players| && Roll(g, s, i, env).Ok? && Solvent(s)
    requires s.bankruptcy.None? && s.turn.pending.None?
    ensures |Roll(g, s, i, env).s.players| == |s.players|
    ensures Solvent(Roll(g, s, i, env).s) <==> CanAffordRoll(g, s, i, DiceOf(g, env))
    ensures var b := Roll(g, s, i, env).s.bankruptcy;
            b.Some? ==> b.value.owed > 0 && b.value.debtor < |s.players|
                        && b.value.owed > Roll(g, s, i, env).s.players[b.value.debtor].balance
  {
    hide ValidConfig, Sensible, Good, Roll, ExecuteMove, RollFate, RollTouches, BalanceAfter, Gift, Assets, Due;
    var dice := DiceOf(g, env);
    var s' := Roll(g, s, i, env).s;
    RollCases(g, s, i, env);
    RollShape(g, s, i, env);
    RollForetold(g, s, i, env);
    if !StaysPut(s, i, dice) {
      var f := RollFate(g, s, i, dice);
      RollFateSensible(g, s, i, dice);
      forall j | 0 <= j < |s.players|
        ensures if j == i then s'.players[j].balance >= 0 <==> f.cash + Gift(s, i, f, i) >= 0 else s'.players[j].balance >= 0
      {
        StopSolvent(g, s, i, dice.die1 + dice.die2, f, j);
      }
    } else {
      StaySolvent(g, s, s', i);
    }
  }

  lemma StaySolvent(g: Config, s: State, s': State, i: Seat)
    requires i < |s.players| == |s'.players| && Solvent(s) && s'.bankruptcy == s.bankruptcy
    requires forall j :: 0 <= j < |s.players| ==> s'.players[j].balance == s.players[j].balance
    ensures Solvent(s')
  {}

  lemma RollFateSensible(g: Config, s: State, i: Seat, dice: DiceRoll)
    requires ValidConfig(g) && Sensible(g) && Good(g, s) && i < |s.players|
    ensures RollFate(g, s, i, dice).stop.Card? ==> SensibleEffect(RollFate(g, s, i, dice).stop.effect)
  {
    hide ValidConfig, Sensible, SensibleEffect, Good, DeckKept, Foretell;
    DecksOf(g, s);
    var p := Freed(g, s, i, dice);
    var (to, passed) := AdvancePosition(g, p.position, dice.die1 + dice.die2);
    FateSensible(g, s.chanceDeck, s.chestDeck, to, p.balance + if passed then g.goSalary else 0, 0, 1);
  }

  /** The two commonest ends of a roll.  On a square without cards only the forced fine can overdraw the roller; where
      the next card pays everyone, what is left must cover that too. */
  lemma CommonFates(g: Config, s: State, i: Seat, dice: DiceRoll)
    requires ValidConfig(g) && Good(g, s) && i < |s.players| && !StaysPut(s, i, dice)
    ensures var (to, passed) := AdvancePosition(g, s.players[i].position, dice.die1 + dice.die2);
            var left := s.players[i].balance - ForcedFine(g, s, i, dice) + if passed then g.goSalary else 0;
            var space := SpaceAt(g, to);
            && (!IsCardSquare(g, to) ==> (CanAffordRoll(g, s, i, dice) <==> left >= 0))
            && (IsCardSquare(g, to) && space.corner.None? ==>
                  var deck := if space.kind == Chance then s.chanceDeck else s.chestDeck;
                  && deck != [] && deck[0] in g.cards
                  && (g.cards[deck[0]].PayEach? ==>
                        (CanAffordRoll(g, s, i, dice)
                         <==> left >= g.cards[deck[0]].amount * ActiveOthers(s.players, i, |s.players|))))
  {
    hide ValidConfig, Good, DeckKept, ActiveOthers, Contributions, Destination;
    DecksOf(g, s);
    var p := Freed(g, s, i, dice);
    var (to, passed) := AdvancePosition(g, p.position, dice.die1 + dice.die2);
    if IsCardSquare(g, to) && SpaceAt(g, to).corner.None? {
      NextCardFate(g, s.chanceDeck, s.chestDeck, to, p.balance + if passed then g.goSalary else 0);
    }
  }

  lemma NextCardFate(g: Config, chance: seq<CardId>, chest: seq<CardId>, p: int, cash: int)
    requires ValidConfig(g) && OnBoard(g, p) && IsCardSquare(g, p) && SpaceAt(g, p).corner.None?
    requires DeckKept(g, chance, g.chanceDeck) && DeckKept(g, chest, g.chestDeck)
    ensures var deck := if SpaceAt(g, p).kind == Chance then chance else chest;
            && deck != [] && deck[0] in g.cards
            && (!Moves(g.cards[deck[0]]) && !g.cards[deck[0]].GoToJail? ==>
                  Foretell(g, chance, chest, p, cash, 0, 1) == Fate(Card(g.cards[deck[0]]), p, cash))
  {
    hide ValidConfig, DeckKept, Destination;
    DeckAt(g, chance, chest, p);
  }

  // ---------------------------------------------------------------- eliminations

  lemma {:induction false} SharesPositive(players: seq<Player>, to: seq<Seat>, cash: int, n: nat)
    requires n <= |to| && forall k :: 0 <= k < |to| ==> to[k] < |players|
    requires cash >= 0 && forall j :: 0 <= j < |players| ==> players[j].balance >= 0
    ensures forall j :: 0 <= j < |players| ==> PayShares(players, to, cash, n)[j].balance >= 0
  {
    if n > 0 {
      SharesPositive(players, to, cash, n - 1);
      assert cash / |to| >= 0;
    }
  }

  lemma LeaveSolvent(g: Config, s: State, who: Seat)
    requires Solvent(s) && who < |s.players|
    ensures Solvent(ResolveSurrender(g, s, who))
  {
    hide Assets, PayShares, Recipients, ReleaseTiles, AppendCards, ActiveSeats, NextOffset;
    RecipientsInRange(s.players, who, |s.players|);
    var to := Recipients(s.players, who, |s.players|);
    if to != [] && s.players[who].balance > 0 {
      SharesPositive(s.players, to, s.players[who].balance, |to|);
    }
  }

  /** The heir of a bankrupt player can pay the interest on the inherited mortgages. */
  predicate HeirCanPay(g: Config, s: State)
    requires Good(g, s) && s.bankruptcy.Some?
  {
    var b := s.bankruptcy.value;
    b.creditor.Some? ==>
      s.players[b.creditor.value].balance + Min(s.players[b.debtor].balance, b.owed)
        >= Interest(g, s.tiles, s.players[b.debtor].owned)
  }

  /** A bankruptcy leaves nobody overdrawn exactly when the heir can pay the interest. */
  lemma EstateSolvent(g: Config, s: State)
    requires Good(g, s) && s.bankruptcy.Some? && Solvent(s)
    ensures Solvent(ResolveBankruptcy(g, s)) <==> HeirCanPay(g, s)
  {
    hide DeckKept, Assets, SortedSet, Reassign, ReleaseTiles, AppendCards, Interest, ActiveSeats, NextOffset;
    var b := s.bankruptcy.value;
    var s' := SettleEstate(g, s);
    SameBalances(g, s', ResolveBankruptcy(g, s));
    SameBalances(g, ResolveBankruptcy(g, s), s');
    if b.creditor.Some? {
      assert s'.players[b.creditor.value].balance
             == s.players[b.creditor.value].balance + Min(s.players[b.debtor].balance, b.owed) - Interest(g, s.tiles, s.players[b.debtor].owned);
    }
  }

  // ---------------------------------------------------------------- the other handlers

  lemma ReworkSolvent(g: Config, s: State, who: Seat, p: int, t: Tile, gain: int)
    requires Solvent(s) && who < |s.players| && s.players[who].balance + gain >= 0
    ensures forall houses, hotels :: Solvent(Rework(g, s, who, p, t, gain).(bankHouses := houses, bankHotels := hotels))
    ensures Solvent(Rework(g, s, who, p, t, gain))
  {
    hide Assets;
  }

  lemma BuildersSolvent(g: Config, s: State, cmd: Command, env: Env)
    requires ValidConfig(g) && Sensible(g) && Good(g, s) && Solvent(s)
    requires !IsSystem(cmd) && !IsOpen(cmd) && cmd.player == s.turn.current
    requires cmd.BuildHouse? || cmd.SellHouse? || cmd.Mortgage? || cmd.Unmortgage?
    requires Dispatch(g, s, cmd, env).Ok?
    ensures Solvent(Dispatch(g, s, cmd, env).s)
  {
    hide ValidConfig, DeckKept, Rework, HasMonopoly, Solvent;
    var i := s.turn.current;
    var p := cmd.position;
    var t := TileAt(s.tiles, p);
    var cost := SpaceAt(g, p).houseCost;
    assert OnBoard(g, p) && cost >= 0 && SpaceAt(g, p).mortgageValue >= 0;
    BalanceAt(s, i);
    match cmd
    case BuildHouse(_, _) =>
      ReworkSolvent(g, s, i, p, t.(houses := 0, hasHotel := true), -cost);
      ReworkSolvent(g, s, i, p, t.(houses := t.houses + 1), -cost);
      ReworkBank(g, s, i, p, t.(houses := t.houses + 1), -cost);
    case SellHouse(_, _) =>
      ReworkSolvent(g, s, i, p, t.(houses := 4, hasHotel := false), cost / 2);
      ReworkSolvent(g, s, i, p, t.(houses := t.houses - 1), cost / 2);
      ReworkBank(g, s, i, p, t.(houses := t.houses - 1), cost / 2);
    case Mortgage(_, _) => ReworkSolvent(g, s, i, p, t.(mortgaged := true), SpaceAt(g, p).mortgageValue);
    case Unmortgage(_, _) => ReworkSolvent(g, s, i, p, t.(mortgaged := false), -SpaceAt(g, p).unmortgageCost);
  }

  lemma BalanceAt(s: State, i: Seat)
    requires Solvent(s) && i < |s.players|
    ensures s.players[i].balance >= 0
  {}

  lemma PlainSolventHandlers(g: Config, s: State, cmd: Command, env: Env)
    requires ValidConfig(g) && Good(g, s) && Solvent(s) && !IsSystem(cmd) && !IsOpen(cmd) && cmd.player == s.turn.current
    requires cmd.BuyProperty? || cmd.PassBuy? || cmd.EndTurn? || cmd.PayJailFine? || cmd.UseJailCard? || cmd.ProposeTrade?
    requires Dispatch(g, s, cmd, env).Ok?
    ensures Solvent(Dispatch(g, s, cmd, env).s)
  {
    hide ValidConfig, DeckKept, ActiveSeats, Assets, Sorted, CheckPositions;
    if cmd.EndTurn? {
      SurvivorsInRange(s.players, |s.players|);
      EndSame(g, s);
    }
  }

  lemma OpenSolvent(g: Config, s: State, cmd: Command, env: Env)
    requires Good(g, s) && Solvent(s) && TradeOk(s) && IsOpen(cmd) && DispatchOpen(g, s, cmd, env).Ok?
    ensures Solvent(DispatchOpen(g, s, cmd, env).s)
  {
    hide DeckKept, CheckPositions, Exchange;
    if cmd.RespondTrade? && cmd.response == Accept {
      TradeSolvent(g, s, s.trade.value);
    }
  }

  lemma TradeSolvent(g: Config, s: State, t: Trade)
    requires Solvent(s) && TradeValid(s, t) && FairOffer(t.offer) && FairOffer(t.request)
    ensures Solvent(Exchange(g, s, t))
  {
    hide CheckPositions, Assets, SortedSet, Without, Reassign;
    ExchangeLedger(g, s, t);
    forall i | 0 <= i < |s.players| ensures Exchange(g, s, t).players[i].balance >= 0 {
      if i != t.proposer && i != t.target {
        assert Exchange(g, s, t).players[i].balance == s.players[i].balance;
      }
    }
  }

  lemma SystemSolvent(g: Config, s: State, cmd: Command, env: Env)
    requires Good(g, s) && Solvent(s) && AuctionOk(s) && IsSystem(cmd)
    ensures Solvent(HandleSystem(g, s, cmd, env).0)
  {
    hide DeckKept, ResolveSurrender, ActiveSeats, NextOffset, Assets, SortedSet;
    if cmd.TurnTimeout? && TurnExpired(s, env.now) {
      var i := s.turn.current;
      var s1 := WithPlayer(s, i, s.players[i].(strikes := s.players[i].strikes + 1));
      SameBalances(g, s, s1);
      LeaveSolvent(g, s1, i);
    }
  }

  lemma WrapSolvent(g: Config, before: State, s: State, cmd: Command, now: int)
    requires GoodRefs(g, s) && Solvent(s)
    ensures Solvent(Wrap(g, before, s, cmd, now))
  {
    hide ActiveSeats, ComputeActions, TrySettleDebt;
    SettleSolvent(g, ClearCard(before, s, cmd));
  }

  lemma SettleSolvent(g: Config, s: State)
    requires GoodRefs(g, s) && Solvent(s)
    ensures Solvent(TrySettleDebt(g, s))
  {
    hide Credited;
    if s.bankruptcy.Some? {
      var b := s.bankruptcy.value;
      if s.players[b.debtor].balance >= b.owed {
        CreditSeats(g, s, b.debtor, -b.owed);
        CreditSolvent(g, s, b.debtor, -b.owed);
        if b.creditor.Some? {
          CreditSolvent(g, Credited(g, s, b.debtor, -b.owed), b.creditor.value, b.owed);
        }
      }
    }
  }

  // ---------------------------------------------------------------- every step

  /** Whether a command leaves nobody overdrawn, by what can be seen before it: a roll is one the roller can afford, and
      the heir of a bankruptcy can pay the interest. */
  predicate Affordable(g: Config, s: State, cmd: Command, env: Env)
    requires ValidConfig(g) && Good(g, s)
  {
    match cmd
    case RollDice(_) => CurrentInRange(g, s); CanAffordRoll(g, s, s.turn.current, DiceOf(g, env))
    case DeclareBankruptcy(_) => s.bankruptcy.Some? ==> HeirCanPay(g, s)
    case _ => true
  }

  lemma TurnSolvent(g: Config, s: State, cmd: Command, env: Env)
    requires ValidConfig(g) && Sensible(g) && Good(g, s) && Solvent(s) && !IsSystem(cmd) && !IsOpen(cmd) && cmd.player == s.turn.current
    requires !cmd.RollDice? && !cmd.DeclareBankruptcy? && Dispatch(g, s, cmd, env).Ok?
    ensures Solvent(Dispatch(g, s, cmd, env).s)
  {
    hide ValidConfig, Sensible, Good, Solvent, ResolveSurrender;
    CurrentInRange(g, s);
    if cmd.Surrender? {
      LeaveSolvent(g, s, s.turn.current);
    } else if cmd.BuildHouse? || cmd.SellHouse? || cmd.Mortgage? || cmd.Unmortgage? {
      BuildersSolvent(g, s, cmd, env);
    } else {
      PlainSolventHandlers(g, s, cmd, env);
    }
  }

  /** The end of `apply` after a handler that leaves no debt payable. */
  lemma UnpaidSolvent(g: Config, before: State, s: State, cmd: Command, now: int)
    requires Good(g, s) && !Payable(s) && (s.bankruptcy.Some? ==> s.bankruptcy.value.owed > 0)
    ensures Solvent(Wrap(g, before, s, cmd, now)) <==> Solvent(s)
  {
    hide DeckKept, Wrap, Payable;
    WrapUnpaid(g, before, s, cmd, now);
    WrapBankruptcy(g, before, s, cmd, now);
  }

  lemma RollStepSolvent(g: Config, s: State, cmd: Command, env: Env)
    requires ValidConfig(g) && Sensible(g) && Inv(g, s) && Solvent(s) && cmd.RollDice? && Apply(g, s, cmd, env).Ok?
    ensures Solvent(Apply(g, s, cmd, env).s) <==> Affordable(g, s, cmd, env)
  {
    hide ValidConfig, Sensible, Good, Solvent, Roll, Wrap, CanAffordRoll, ResetStrikes;
    InvGood(g, s);
    CurrentInRange(g, s);
    BeforeRoll(g, s, env);
    RollSolvent(g, s, s.turn.current, env);
    RollGood(g, s, env);
    var s1 := Roll(g, s, s.turn.current, env).s;
    var s2 := ResetStrikes(s1, cmd.player);
    ResetGood(g, s1, cmd.player);
    ResetSolvent(g, s1, cmd.player);
    ResetPayable(g, s1, cmd.player);
    UnpaidSolvent(g, s, s2, cmd, env.now);
  }

  /** Dice are rolled only with no debt open and nothing for sale. */
  lemma BeforeRoll(g: Config, s: State, env: Env)
    requires ValidConfig(g) && Inv(g, s) && s.turn.current < |s.players| && Roll(g, s, s.turn.current, env).Ok?
    ensures s.bankruptcy.None? && s.turn.pending.None? && !s.finished
  {
    hide ValidConfig, DeckKept, Roll, Streets, Owns, Inventory, WorthFresh, Roster;
    RollCases(g, s, s.turn.current, env);
    assert Phases(g, s);
  }

  lemma EstateStepSolvent(g: Config, s: State, cmd: Command, env: Env)
    requires ValidConfig(g) && Good(g, s) && Solvent(s) && cmd.DeclareBankruptcy? && Apply(g, s, cmd, env).Ok?
    ensures Solvent(Apply(g, s, cmd, env).s) <==> Affordable(g, s, cmd, env)
  {
    hide ValidConfig, DeckKept, Solvent, ResolveBankruptcy, Wrap, HeirCanPay, ResetStrikes;
    EstateSolvent(g, s);
    BankruptcyGood(g, s);
    var s1 := ResolveBankruptcy(g, s);
    EstateClosed(g, s);
    ResetGood(g, s1, cmd.player);
    ResetSolvent(g, s1, cmd.player);
    ResetPayable(g, s1, cmd.player);
    NoDebtPayable(s1);
    UnpaidSolvent(g, s, ResetStrikes(s1, cmd.player), cmd, env.now);
  }

  lemma EstateClosed(g: Config, s: State)
    requires Good(g, s) && s.bankruptcy.Some?
    ensures ResolveBankruptcy(g, s).bankruptcy.None?
  {
    hide DeckKept, Assets, SortedSet, Reassign, ReleaseTiles, AppendCards, Interest, ActiveSeats, NextOffset;
  }

  /** Which accepted commands leave nobody overdrawn: exactly the affordable ones. */
  lemma StepSolvent(g: Config, s: State, cmd: Command, env: Env)
    requires ValidConfig(g) && Sensible(g) && Inv(g, s) && Solvent(s) && Apply(g, s, cmd, env).Ok?
    ensures Solvent(Apply(g, s, cmd, env).s) <==> Affordable(g, s, cmd, env)
  {
    hide ValidConfig, Sensible, Good, Core, Roster, HandleSystem, DispatchOpen, Dispatch, Wrap, Stamp, ResetStrikes, Solvent;
    if cmd.RollDice? {
      RollStepSolvent(g, s, cmd, env);
    } else if cmd.DeclareBankruptcy? {
      EstateStepSolvent(g, s, cmd, env);
    } else if IsSystem(cmd) {
      var s1 := HandleSystem(g, s, cmd, env).0;
      SystemGood(g, s, cmd, env);
      SystemSolvent(g, s, cmd, env);
      GoodImpliesRefs(g, s1);
      WrapSolvent(g, s, s1, cmd, env.now);
    } else if IsOpen(cmd) {
      var s1 := DispatchOpen(g, s, cmd, env).s;
      DispatchOpenGood(g, s, cmd, env);
      ResetGood(g, s1, cmd.player);
      CurrentInRange(g, ResetStrikes(s1, cmd.player));
      OpenSolvent(g, s, cmd, env);
      StampSolvent(g, s1, cmd.player, env.now);
    } else {
      var s1 := Dispatch(g, s, cmd, env).s;
      DispatchGood(g, s, cmd, env);
      ResetGood(g, s1, cmd.player);
      TurnSolvent(g, s, cmd, env);
      ResetSolvent(g, s1, cmd.player);
      GoodImpliesRefs(g, ResetStrikes(s1, cmd.player));
      WrapSolvent(g, s, ResetStrikes(s1, cmd.player), cmd, env.now);
    }
  }

  lemma ResetSolvent(g: Config, s: State, i: Seat)
    ensures Solvent(ResetStrikes(s, i)) <==> Solvent(s)
  {
    if Solvent(ResetStrikes(s, i)) {
      forall j | 0 <= j < |s.players| ensures s.players[j].balance >= 0 {
        assert ResetStrikes(s, i).players[j].balance >= 0;
      }
    }
  }

  lemma StampSolvent(g: Config, s: State, i: Seat, now: int)
    requires Solvent(s) && s.turn.current < |s.players|
    ensures Solvent(Stamp(g, ResetStrikes(s, i), now))
  {
    hide ComputeActions;
  }

  // ---------------------------------------------------------------- every run

  /** Every state of the run is solvent. */
  ghost predicate SolventRun(g: Config, s: State, steps: seq<Move>)
    requires ValidConfig(g) && Good(g, s)
  {
    Solvent(Run(g, s, steps)) && (steps == [] || SolventRun(g, s, steps[..|steps| - 1]))
  }

  /** Every accepted command of the run is affordable in the state it meets. */
  ghost predicate AffordableRun(g: Config, s: State, steps: seq<Move>)
    requires ValidConfig(g) && Good(g, s)
  {
    steps == [] ||
    (AffordableRun(g, s, steps[..|steps| - 1])
     && var s' := Run(g, s, steps[..|steps| - 1]);
        var last := steps[|steps| - 1];
        Apply(g, s', last.cmd, last.env).Ok? ==> Affordable(g, s', last.cmd, last.env))
  }

  /** Nobody is ever overdrawn on an orderly run exactly if every one of its commands is affordable. */
  lemma {:induction false} RunSolvent(g: Config, s: State, steps: seq<Move>)
    requires ValidConfig(g) && Sensible(g) && Inv(g, s) && Solvent(s) && OrderlyRun(g, s, steps)
    ensures SolventRun(g, s, steps) <==> AffordableRun(g, s, steps)
  {
    hide ValidConfig, Sensible, Inv, Solvent, Orderly, Affordable, Apply;
    InvParts(g, s);
    if steps != [] {
      var n := |steps| - 1;
      RunSolvent(g, s, steps[..n]);
      RunInvariant(g, s, steps[..n]);
      var s' := Run(g, s, steps[..n]);
      if SolventRun(g, s, steps[..n]) && Apply(g, s', steps[n].cmd, steps[n].env).Ok? {
        RunEnd(g, s, steps[..n]);
        StepSolvent(g, s', steps[n].cmd, steps[n].env);
      }
    }
  }

  lemma RunEnd(g: Config, s: State, steps: seq<Move>)
    requires ValidConfig(g) && Good(g, s) && SolventRun(g, s, steps)
    ensures Solvent(Run(g, s, steps))
  {}
}
