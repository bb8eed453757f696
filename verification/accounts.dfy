/** The three accounts of the game: money, buildings and jail cards, step by step. */
module Accounts {
  import opened GameTypes
  import opened Seqs
  import opened Soundness
  import opened Worth
  import opened Payments
  import opened LandingMoney
  import opened LandingChain
  import opened PropertyRules
  import opened Elimination
  import opened Handlers
  import opened Engine
  import opened Invariants
  import opened PropertyLaws
  import opened ExchangeLaws
  import opened SurrenderLaws
  import opened StepProperty
  import opened StepRoll
  import opened StepTable
  import opened Steps

  // ---------------------------------------------------------------- who leaves the game in a step

  /** The player a step eliminates without a bankruptcy: by surrender, or by the third timeout. */
  function Quitter(s: State, cmd: Command, env: Env): Option<Seat>
    requires s.turn.current < |s.players|
  {
    if cmd.Surrender? || (cmd.TurnTimeout? && TurnExpired(s, env.now) && s.players[s.turn.current].strikes + 1 >= MAX_AFK_STRIKES)
    then Some(s.turn.current) else None
  }

  /** A bankruptcy in which the bank is the creditor. */
  predicate ToBank(s: State, cmd: Command) {
    cmd.DeclareBankruptcy? && s.bankruptcy.Some? && s.bankruptcy.value.creditor.None?
  }

  // ---------------------------------------------------------------- what one account does in a step

  /** The four totals of a state. */
  datatype Totals = Totals(money: int, houses: int, hotels: int, jails: int)

  function TotalsOf(g: Config, s: State): Totals {
    Totals(Money(s), AllHouses(s), AllHotels(s), JailTotal(g, s))
  }

  /** What leaves the players' hands when a quitter's cash is not split. */
  function QuitFlow(s: State, who: Seat): int
    requires who < |s.players|
  {
    var cash := s.players[who].balance;
    if cash > 0 && Recipients(s.players, who, |s.players|) != [] then 0 else -cash
  }

  function EstateFlow(g: Config, s: State): int
    requires Good(g, s) && s.bankruptcy.Some?
  {
    var b := s.bankruptcy.value;
    var d := s.players[b.debtor];
    (if b.creditor.Some? then Min(d.balance, b.owed) - Interest(g, s.tiles, d.owned) else 0) - d.balance
  }

  /** The bank's net payment to the players in one accepted command, before debts are settled. */
  function BankFlow(g: Config, s: State, cmd: Command, env: Env, events: seq<Event>, unpaid: bool): int
    requires Good(g, s)
  {
    CurrentInRange(g, s);
    if Quitter(s, cmd, env).Some? then QuitFlow(s, Quitter(s, cmd, env).value)
    else
      match cmd
      case RollDice(_) => Flow(g, s, events, unpaid) - ForcedFine(g, s, s.turn.current, DiceOf(g, env))
      case BuyProperty(_, p) => if SpaceAt(g, p).price.Some? then -SpaceAt(g, p).price.value else 0
      case PayJailFine(_) => -g.jailFine
      case BuildHouse(_, p) => -SpaceAt(g, p).houseCost
      case SellHouse(_, p) => SpaceAt(g, p).houseCost / 2
      case Mortgage(_, p) => SpaceAt(g, p).mortgageValue
      case Unmortgage(_, p) => -SpaceAt(g, p).unmortgageCost
      case DeclareBankruptcy(_) => if s.bankruptcy.Some? then EstateFlow(g, s) else 0
      case AdvanceAuction =>
        if AuctionExpired(s, env.now) && s.auction.value.leader.Some? then -s.auction.value.highest else 0
      case _ => 0
  }

  /** The totals a command must leave: money changes by the bank's flow; buildings are lost exactly in
      a bankruptcy to the bank; jail cards grow by what an eliminated player returned to both decks. */
  function Expected(g: Config, s: State, cmd: Command, env: Env, events: seq<Event>, unpaid: bool): Totals
    requires Good(g, s)
  {
    CurrentInRange(g, s);
    var t := TotalsOf(g, s);
    var quit := Quitter(s, cmd, env);
    var d := if s.bankruptcy.Some? then s.bankruptcy.value.debtor else s.turn.current;
    Totals(t.money + BankFlow(g, s, cmd, env, events, unpaid),
           t.houses - (if ToBank(s, cmd) then HousesOf(s, d) else 0),
           t.hotels - (if ToBank(s, cmd) then HotelsOf(s, d) else 0),
           t.jails + (if ToBank(s, cmd) then s.players[d].jailCards
                      else if quit.Some? then s.players[quit.value].jailCards else 0))
  }

  // ---------------------------------------------------------------- frames

  lemma TotalsFrame(g: Config, a: State, b: State)
    requires a.tiles == b.tiles && a.bankHouses == b.bankHouses && a.bankHotels == b.bankHotels
    requires a.chanceDeck == b.chanceDeck && a.chestDeck == b.chestDeck && |a.players| == |b.players|
    requires forall i :: 0 <= i < |a.players| ==>
               a.players[i].balance == b.players[i].balance && a.players[i].jailCards == b.players[i].jailCards
    ensures TotalsOf(g, a) == TotalsOf(g, b)
  {
    hide Money, JailTotal;
    MoneySame(a, b);
    HandsSame(g, a, b);
  }

  /** Changing one player's balance and jail cards. */
  lemma TotalsPlayer(g: Config, s: State, i: Seat, p: Player)
    requires i < |s.players|
    ensures TotalsOf(g, WithPlayer(s, i, p))
            == TotalsOf(g, s).(money := Money(s) - s.players[i].balance + p.balance,
                               jails := JailTotal(g, s) - s.players[i].jailCards + p.jailCards)
  {
    hide Sum, JailsIn;
    MoneyUpdate(s, i, p);
    SumUpdate(Hands(s.players), i, p.jailCards);
    assert Hands(WithPlayer(s, i, p).players) == Hands(s.players)[i := p.jailCards];
  }

  lemma AcquireTotals(g: Config, s: State, who: Seat, p: int, price: int, owned: seq<int>)
    requires who < |s.players| && 1 <= p <= |s.tiles|
    ensures TotalsOf(g, Acquire(g, s, who, p, price, owned)) == TotalsOf(g, s).(money := Money(s) - price)
  {
    hide Sum, JailsIn, Assets;
    var s' := Acquire(g, s, who, p, price, owned);
    TotalsPlayer(g, s, who, s'.players[who]);
    SetTileCounts(s.tiles, p, TileAt(s.tiles, p).(owner := Some(who)));
  }

  lemma ReworkMoney(g: Config, s: State, who: Seat, p: int, t: Tile, gain: int)
    requires who < |s.players|
    ensures Money(Rework(g, s, who, p, t, gain)) == Money(s) + gain
    ensures JailTotal(g, Rework(g, s, who, p, t, gain)) == JailTotal(g, s)
  {
    hide Assets, JailTotal, Money;
    var q := s.players[who].(balance := s.players[who].balance + gain);
    MoneyUpdate(s, who, q);
    MoneySame(WithPlayer(s, who, q), Rework(g, s, who, p, t, gain));
    HandsSame(g, s, Rework(g, s, who, p, t, gain));
  }

  // ---------------------------------------------------------------- handlers

  lemma BuildersTotals(g: Config, s: State, cmd: Command, env: Env)
    requires ValidConfig(g) && Good(g, s) && Core(g, s) && !IsSystem(cmd) && !IsOpen(cmd) && cmd.player == s.turn.current
    requires cmd.BuildHouse? || cmd.SellHouse? || cmd.Mortgage? || cmd.Unmortgage?
    requires Dispatch(g, s, cmd, env).Ok?
    ensures TotalsOf(g, Dispatch(g, s, cmd, env).s) == Expected(g, s, cmd, env, Dispatch(g, s, cmd, env).events, false)
  {
    hide ValidConfig, Good, Core, Rework, AllHouses, AllHotels, Money, JailTotal, CanBuildOn, CanSellOn, CanMortgage, CanUnmortgage;
    CurrentInRange(g, s);
    BuildersCore(g, s, cmd, env);
    var i := s.turn.current;
    var p := cmd.position;
    var t := TileAt(s.tiles, p);
    var cost := SpaceAt(g, p).houseCost;
    var s' := Dispatch(g, s, cmd, env).s;
    match cmd
    case BuildHouse(_, _) =>
      var t' := if t.houses == 4 then t.(houses := 0, hasHotel := true) else t.(houses := t.houses + 1);
      ReworkMoney(g, s, i, p, t', -cost);
      BankTotals(g, Rework(g, s, i, p, t', -cost), s');
    case SellHouse(_, _) =>
      var t' := if t.hasHotel then t.(houses := 4, hasHotel := false) else t.(houses := t.houses - 1);
      ReworkMoney(g, s, i, p, t', cost / 2);
      BankTotals(g, Rework(g, s, i, p, t', cost / 2), s');
    case Mortgage(_, _) => ReworkMoney(g, s, i, p, t.(mortgaged := true), SpaceAt(g, p).mortgageValue);
    case Unmortgage(_, _) => ReworkMoney(g, s, i, p, t.(mortgaged := false), -SpaceAt(g, p).unmortgageCost);
  }

  lemma BankTotals(g: Config, a: State, b: State)
    requires b == a.(bankHouses := b.bankHouses, bankHotels := b.bankHotels)
    ensures Money(b) == Money(a) && JailTotal(g, b) == JailTotal(g, a)
  {}

  lemma RollTotals(g: Config, s: State, cmd: Command, env: Env)
    requires ValidConfig(g) && Inv(g, s) && cmd == RollDice(s.turn.current)
    requires Roll(g, s, s.turn.current, env).Ok?
    ensures var r := Roll(g, s, s.turn.current, env);
            TotalsOf(g, r.s) == Expected(g, s, cmd, env, r.events, r.s.bankruptcy.Some?)
  {
    hide ValidConfig, DeckKept, Streets, Owns, Inventory, WorthFresh, ActiveSeats, Roll, Flow, Money, JailTotal, AllHouses, AllHotels;
    var i := s.turn.current;
    RollCases(g, s, i, env);
    assert Live(g, s);
    RollTells(g, s, i, env);
    RollShape(g, s, i, env);
    RollProperty(s, Roll(g, s, i, env).s, i);
    SupplySame(s, Roll(g, s, i, env).s);
  }

  lemma SupplySame(a: State, b: State)
    requires SameProperty(a, b)
    ensures AllHouses(a) == AllHouses(b) && AllHotels(a) == AllHotels(b)
  {}

  lemma BuyTotals(g: Config, s: State, cmd: Command, env: Env)
    requires Good(g, s) && cmd.BuyProperty? && cmd.player == s.turn.current && Buy(g, s, s.turn.current, cmd.position).Ok?
    ensures TotalsOf(g, Buy(g, s, s.turn.current, cmd.position).s) == Expected(g, s, cmd, env, [], false)
  {
    hide DeckKept, Acquire, Sorted, AllHouses, AllHotels, Money, JailTotal;
    var i := s.turn.current;
    var p := cmd.position;
    var price := SpaceAt(g, p).price.value;
    var owned := Sorted(s.players[i].owned + [p]);
    AcquireTotals(g, s, i, p, price, owned);
    TotalsFrame(g, Acquire(g, s, i, p, price, owned), Buy(g, s, i, p).s);
  }

  lemma PayFineTotals(g: Config, s: State, cmd: Command, env: Env)
    requires Good(g, s) && cmd.PayJailFine? && cmd.player == s.turn.current && PayFine(g, s, s.turn.current).Ok?
    ensures TotalsOf(g, PayFine(g, s, s.turn.current).s) == Expected(g, s, cmd, env, [], false)
  {
    hide DeckKept, AllHouses, AllHotels, Money, JailTotal, Assets;
    var i := s.turn.current;
    var p := s.players[i];
    var q := Refreshed(g, s.tiles, p.(jail := None, balance := p.balance - g.jailFine));
    TotalsPlayer(g, s, i, q);
    TotalsFrame(g, WithPlayer(s, i, q), PayFine(g, s, i).s);
  }

  lemma UseCardTotals(g: Config, s: State, cmd: Command, env: Env)
    requires ValidConfig(g) && Good(g, s) && cmd.UseJailCard? && cmd.player == s.turn.current && UseCard(g, s, s.turn.current).Ok?
    ensures TotalsOf(g, UseCard(g, s, s.turn.current).s) == Expected(g, s, cmd, env, [], false)
  {
    hide ValidConfig, DeckKept, AllHouses, AllHotels, Money, JailTotal, Assets;
    var i := s.turn.current;
    var p := s.players[i];
    var q := Refreshed(g, s.tiles, p.(jail := None, jailCards := p.jailCards - 1));
    TotalsPlayer(g, s, i, q);
    JailOnBoard(g);
    assert (s.chanceDeck + [CHANCE_JAIL_CARD])[..|s.chanceDeck|] == s.chanceDeck;
    DeckTotals(g, WithPlayer(s, i, q), UseCard(g, s, i).s);
  }

  lemma DeckTotals(g: Config, a: State, b: State)
    requires b == a.(chanceDeck := b.chanceDeck, turn := b.turn)
    requires JailsIn(g, b.chanceDeck) == JailsIn(g, a.chanceDeck) + 1
    ensures TotalsOf(g, b) == TotalsOf(g, a).(jails := JailTotal(g, a) + 1)
  {}

  lemma ExchangeTotals(g: Config, s: State, t: Trade)
    requires Core(g, s) && TradeValid(s, t)
    ensures TotalsOf(g, Exchange(g, s, t)) == TotalsOf(g, s)
  {
    hide Core, Exchange, Money, JailTotal, AllHouses, AllHotels, ValidateOffer;
    CoreParts(g, s);
    ExchangeLedger(g, s, t);
    ExchangeStreets(g, s, t);
  }

  lemma AuctionTotals(g: Config, s: State, env: Env)
    requires Good(g, s)
    ensures TotalsOf(g, HandleSystem(g, s, AdvanceAuction, env).0) == Expected(g, s, AdvanceAuction, env, [], false)
  {
    hide DeckKept, Acquire, SortedSet, AllHouses, AllHotels, Money, JailTotal, Assets;
    var s' := HandleSystem(g, s, AdvanceAuction, env).0;
    if AuctionExpired(s, env.now) {
      var a := s.auction.value;
      if a.leader.Some? {
        var owned := SortedSet(s.players[a.leader.value].owned + [a.position]);
        AcquireTotals(g, s, a.leader.value, a.position, a.highest, owned);
        AcquireTurn(g, s, a.leader.value, a.position, a.highest, owned);
        TotalsFrame(g, Acquire(g, s, a.leader.value, a.position, a.highest, owned), s');
      } else {
        TotalsFrame(g, s, s');
      }
    }
  }

  // ---------------------------------------------------------------- eliminations

  lemma CheckWinTotals(g: Config, s: State, who: Seat)
    requires who < |s.players|
    ensures TotalsOf(g, CheckWin(s)) == TotalsOf(g, s)
    ensures TotalsOf(g, AdvanceOff(CheckWin(s), who)) == TotalsOf(g, s)
  {
    hide ActiveSeats, NextOffset, Money, JailTotal, AllHouses, AllHotels;
    TotalsFrame(g, s, CheckWin(s));
    TotalsFrame(g, s, AdvanceOff(CheckWin(s), who));
  }

  lemma QuitTotals(g: Config, s: State, who: Seat)
    requires ValidConfig(g) && Core(g, s) && who < |s.players| && !s.players[who].bankrupt && s.players[who].jailCards >= 0
    ensures TotalsOf(g, ResolveSurrender(g, s, who))
            == TotalsOf(g, s).(money := Money(s) + QuitFlow(s, who), jails := JailTotal(g, s) + s.players[who].jailCards)
  {
    hide ValidConfig, Core, LeaveTable, CheckWin, AdvanceOff, Money, JailTotal, AllHouses, AllHotels, Recipients;
    CoreParts(g, s);
    LeaveLedger(g, s, who);
    LeaveJails(g, s, who);
    LeaveInventory(g, s, who);
    LeaveSize(g, s, who);
    CheckWinTotals(g, LeaveTable(g, s, who), who);
  }

  lemma EstateTotals(g: Config, s: State)
    requires ValidConfig(g) && Good(g, s) && Core(g, s) && s.bankruptcy.Some?
    requires s.players[s.bankruptcy.value.debtor].jailCards >= 0
    ensures var b := s.bankruptcy.value;
            var bank := b.creditor.None?;
            TotalsOf(g, ResolveBankruptcy(g, s))
            == Totals(Money(s) + EstateFlow(g, s),
                      AllHouses(s) - (if bank then HousesOf(s, b.debtor) else 0),
                      AllHotels(s) - (if bank then HotelsOf(s, b.debtor) else 0),
                      JailTotal(g, s) + (if bank then s.players[b.debtor].jailCards else 0))
  {
    hide ValidConfig, DeckKept, Core, SettleEstate, CheckWin, AdvanceOff, Money, JailTotal, AllHouses, AllHotels, Interest;
    CoreParts(g, s);
    EstateLedger(g, s);
    EstateJails(g, s);
    EstateInventory(g, s);
    EstateShape(g, s);
    CheckWinTotals(g, SettleEstate(g, s), s.bankruptcy.value.debtor);
  }

  /** Striking a player changes no account. */
  lemma StrikeTotals(g: Config, s: State, i: Seat, strikes: int)
    requires i < |s.players|
    ensures var s1 := WithPlayer(s, i, s.players[i].(strikes := strikes));
            TotalsOf(g, s1) == TotalsOf(g, s)
            && Recipients(s1.players, i, |s1.players|) == Recipients(s.players, i, |s.players|)
  {
    hide Money, JailTotal, AllHouses, AllHotels;
    var s1 := WithPlayer(s, i, s.players[i].(strikes := strikes));
    TotalsFrame(g, s, s1);
    RecipientsFrame(s.players, s1.players, i, |s.players|);
  }

  lemma {:induction false} RecipientsFrame(a: seq<Player>, b: seq<Player>, who: Seat, k: nat)
    requires k <= |a| == |b| && forall i :: 0 <= i < |a| ==> a[i].bankrupt == b[i].bankrupt
    ensures Recipients(a, who, k) == Recipients(b, who, k)
  {
    if k > 0 {
      RecipientsFrame(a, b, who, k - 1);
    }
  }

  /** The clock only runs for a player still in the game. */
  lemma OnClock(g: Config, s: State)
    requires Inv(g, s)
    ensures Good(g, s) && Core(g, s) && s.turn.current < |s.players|
    ensures IsActivePhase(s.turn.phase) ==> !s.players[s.turn.current].bankrupt && s.players[s.turn.current].jailCards >= 0
  {
    hide DeckKept, Streets, Owns, Inventory, WorthFresh, ActiveSeats;
    InvParts(g, s);
    RecordAt(s, s.turn.current);
  }

  lemma TimeoutTotals(g: Config, s: State, env: Env)
    requires ValidConfig(g) && Inv(g, s)
    ensures TotalsOf(g, Timeout(g, s, env.now).0) == Expected(g, s, TurnTimeout, env, [], false)
  {
    hide ValidConfig, Good, Inv, Core, NextOffset, ResolveSurrender, TotalsOf, Recipients, HousesOf, HotelsOf, Money, JailTotal, AllHouses, AllHotels;
    OnClock(g, s);
    UnfoldTotals(g, s);
    if TurnExpired(s, env.now) {
      var i := s.turn.current;
      var strikes := s.players[i].strikes + 1;
      var s1 := WithPlayer(s, i, s.players[i].(strikes := strikes));
      StrikeTotals(g, s, i, strikes);
      StrikesCore(g, s, i, strikes);
      if strikes >= MAX_AFK_STRIKES {
        UnfoldTotals(g, s1);
        QuitTotals(g, s1, i);
      } else {
        TotalsFrame(g, s1, AdvanceOff(s1, i));
      }
    }
  }

  // ---------------------------------------------------------------- handlers together

  /** Passing, ending the turn and proposing a trade touch no account. */
  lemma TurnTotals(g: Config, s: State, cmd: Command, env: Env)
    requires ValidConfig(g) && Good(g, s) && (cmd.PassBuy? || cmd.EndTurn? || cmd.ProposeTrade?) && cmd.player == s.turn.current
    requires Dispatch(g, s, cmd, env).Ok?
    ensures TotalsOf(g, Dispatch(g, s, cmd, env).s) == Expected(g, s, cmd, env, [], false)
  {
    hide ValidConfig, DeckKept, TotalsOf, CheckPositions, ActiveSeats, HousesOf, HotelsOf, Money, JailTotal, AllHouses, AllHotels;
    UnfoldTotals(g, s);
    if cmd.EndTurn? {
      SurvivorsInRange(s.players, |s.players|);
      EndSame(g, s);
    }
    TotalsFrame(g, s, Dispatch(g, s, cmd, env).s);
  }

  lemma LeavingTotals(g: Config, s: State, cmd: Command, env: Env)
    requires ValidConfig(g) && Inv(g, s) && (cmd.DeclareBankruptcy? || cmd.Surrender?) && cmd.player == s.turn.current
    requires Dispatch(g, s, cmd, env).Ok?
    ensures TotalsOf(g, Dispatch(g, s, cmd, env).s) == Expected(g, s, cmd, env, [], false)
  {
    hide ValidConfig, DeckKept, Core, ResolveBankruptcy, ResolveSurrender, TotalsOf, ActiveSeats, Streets, Owns, Inventory,
         WorthFresh, EstateFlow, QuitFlow, HousesOf, HotelsOf;
    InvParts(g, s);
    UnfoldTotals(g, s);
    RecordAt(s, s.turn.current);
    if cmd.DeclareBankruptcy? {
      EstateTotals(g, s);
    } else {
      QuitTotals(g, s, s.turn.current);
    }
  }

  /** What a handler announces besides its state matters to the accounts for a roll only. */
  lemma ExpectedFrame(g: Config, s: State, cmd: Command, env: Env, events: seq<Event>, unpaid: bool)
    requires Good(g, s) && !cmd.RollDice?
    ensures Expected(g, s, cmd, env, events, unpaid) == Expected(g, s, cmd, env, [], false)
  {
    hide Good, TotalsOf, EstateFlow, QuitFlow, HousesOf, HotelsOf;
  }

  lemma DispatchTotals(g: Config, s: State, cmd: Command, env: Env)
    requires ValidConfig(g) && Inv(g, s) && !IsSystem(cmd) && !IsOpen(cmd) && cmd.player == s.turn.current
    requires Dispatch(g, s, cmd, env).Ok?
    ensures var r := Dispatch(g, s, cmd, env);
            TotalsOf(g, r.s) == Expected(g, s, cmd, env, r.events, r.s.bankruptcy.Some?)
  {
    hide ValidConfig, Good, Core, Table, Roll, Buy, Handlers.Pass, End, PayFine, UseCard, Declare, GiveUp, Work, Propose, TotalsOf, Expected;
    InvParts(g, s);
    CurrentInRange(g, s);
    var r := Dispatch(g, s, cmd, env);
    if !cmd.RollDice? {
      ExpectedFrame(g, s, cmd, env, r.events, r.s.bankruptcy.Some?);
      ExpectedFrame(g, s, cmd, env, r.events, false);
    }
    match cmd
    case RollDice(_) => RollTotals(g, s, cmd, env);
    case BuyProperty(_, p) => BuyTotals(g, s, cmd, env);
    case PayJailFine(_) => PayFineTotals(g, s, cmd, env);
    case UseJailCard(_) => UseCardTotals(g, s, cmd, env);
    case BuildHouse(_, _) => BuildersTotals(g, s, cmd, env);
    case SellHouse(_, _) => BuildersTotals(g, s, cmd, env);
    case Mortgage(_, _) => BuildersTotals(g, s, cmd, env);
    case Unmortgage(_, _) => BuildersTotals(g, s, cmd, env);
    case DeclareBankruptcy(_) => LeavingTotals(g, s, cmd, env);
    case Surrender(_) => LeavingTotals(g, s, cmd, env);
    case _ => TurnTotals(g, s, cmd, env);
  }

  lemma UnfoldTotals(g: Config, s: State)
    ensures TotalsOf(g, s) == Totals(Money(s), AllHouses(s), AllHotels(s), JailTotal(g, s))
  {}

  lemma OpenTotals(g: Config, s: State, cmd: Command, env: Env)
    requires Good(g, s) && Core(g, s) && IsOpen(cmd) && DispatchOpen(g, s, cmd, env).Ok?
    ensures TotalsOf(g, DispatchOpen(g, s, cmd, env).s) == TotalsOf(g, s)
  {
    hide DeckKept, Core, TotalsOf, Exchange, CheckPositions;
    if cmd.RespondTrade? && cmd.response == Accept {
      ExchangeTotals(g, s, s.trade.value);
    } else {
      TotalsFrame(g, s, DispatchOpen(g, s, cmd, env).s);
    }
  }

  lemma SystemTotals(g: Config, s: State, cmd: Command, env: Env)
    requires ValidConfig(g) && Inv(g, s) && IsSystem(cmd)
    ensures TotalsOf(g, HandleSystem(g, s, cmd, env).0) == Expected(g, s, cmd, env, [], false)
  {
    hide ValidConfig, DeckKept, Core, ResolveAuction, Timeout, TotalsOf, Streets, Owns, Inventory, WorthFresh, ActiveSeats;
    UnfoldTotals(g, s);
    match cmd
    case AdvanceAuction => AuctionTotals(g, s, env);
    case ExpireTrade => TotalsFrame(g, s, HandleSystem(g, s, cmd, env).0);
    case TurnTimeout => TimeoutTotals(g, s, env);
  }

  // ---------------------------------------------------------------- after the handler

  /** The debtor of an open bankruptcy can pay the debt. */
  predicate Payable(s: State) {
    s.bankruptcy.Some? && s.bankruptcy.value.debtor < |s.players|
    && s.players[s.bankruptcy.value.debtor].balance >= s.bankruptcy.value.owed
  }

  /** Money that leaves the players' hands when a debt to the bank is settled. */
  function SettleFlow(s: State): int {
    if Payable(s) && s.bankruptcy.value.creditor.None? then -s.bankruptcy.value.owed else 0
  }

  lemma SettleTotals(g: Config, s: State)
    requires Good(g, s)
    ensures TotalsOf(g, TrySettleDebt(g, s)) == TotalsOf(g, s).(money := Money(s) + SettleFlow(s))
  {
    hide DeckKept, Transfer, TotalsOf, Money, AllHouses, AllHotels, JailTotal;
    UnfoldTotals(g, s);
    if Payable(s) {
      var b := s.bankruptcy.value;
      var s1 := Transfer(g, s, b.debtor, b.creditor, b.owed);
      TransferTotals(g, s, b.debtor, b.creditor, b.owed);
      TotalsFrame(g, s1, TrySettleDebt(g, s));
    }
  }

  lemma TransferTotals(g: Config, s: State, payer: Seat, creditor: Option<Seat>, amount: int)
    requires payer < |s.players|
    requires creditor.Some? ==> creditor.value < |s.players|
    ensures TotalsOf(g, Transfer(g, s, payer, creditor, amount))
            == TotalsOf(g, s).(money := Money(s) - (if creditor.None? then amount else 0))
    ensures |Transfer(g, s, payer, creditor, amount).players| == |s.players|
  {
    hide Assets, Money, AllHouses, AllHotels, JailTotal;
    var s1 := Transfer(g, s, payer, creditor, amount);
    TransferLedger(g, s, payer, creditor, amount);
    HandsSame(g, s, s1);
    SupplySame(s, s1);
  }

  lemma WrapTotals(g: Config, before: State, s: State, cmd: Command, now: int)
    requires Good(g, s) && Core(g, s) && Table(g, s)
    ensures TotalsOf(g, Wrap(g, before, s, cmd, now)) == TotalsOf(g, s).(money := Money(s) + SettleFlow(s))
  {
    hide DeckKept, Core, Table, TrySettleDebt, CheckWin, Stamp, Money, AllHouses, AllHotels, JailTotal;
    var s1 := ClearCard(before, s, cmd);
    CoreSame(g, s, s1);
    CardTable(g, s, s1);
    GoodFrameCard(g, s, s1);
    TotalsFrame(g, s, s1);
    SettleTotals(g, s1);
    SettleInv(g, s1);
    CheckWinInv(g, TrySettleDebt(g, s1));
    CurrentOf(g, TrySettleDebt(g, s1));
    StampTotals(g, TrySettleDebt(g, s1), now);
  }

  lemma StampTotals(g: Config, s: State, now: int)
    requires s.turn.current < |s.players|
    ensures TotalsOf(g, Stamp(g, s, now)) == TotalsOf(g, s) && Stamp(g, s, now).bankruptcy == s.bankruptcy
  {
    hide ComputeActions, TotalsOf;
    TotalsFrame(g, s, Stamp(g, s, now));
  }

  lemma ResetTotals(g: Config, s: State, i: Seat)
    ensures TotalsOf(g, ResetStrikes(s, i)) == TotalsOf(g, s)
    ensures SettleFlow(ResetStrikes(s, i)) == SettleFlow(s)
    ensures ResetStrikes(s, i).bankruptcy == s.bankruptcy
  {
    hide TotalsOf;
    TotalsFrame(g, s, ResetStrikes(s, i));
  }

  // ---------------------------------------------------------------- the step law

  /** A debt to the bank that a command, other than the declaration itself, let the debtor settle. */
  function DebtFlow(s: State, s': State, cmd: Command): int {
    if s.bankruptcy.Some? && s'.bankruptcy.None? && !cmd.DeclareBankruptcy? && s.bankruptcy.value.creditor.None?
    then -s.bankruptcy.value.owed else 0
  }

  /** How the bankruptcy record moves through a handler. */
  lemma HandlerBankruptcy(g: Config, s: State, cmd: Command, env: Env)
    requires ValidConfig(g) && Inv(g, s) && !IsSystem(cmd) && !IsOpen(cmd) && cmd.player == s.turn.current
    requires Dispatch(g, s, cmd, env).Ok?
    ensures var s1 := Dispatch(g, s, cmd, env).s;
            if cmd.DeclareBankruptcy? then s1.bankruptcy.None?
            else if cmd.RollDice? then s.bankruptcy.None? && Payable(s1) == false
            else s1.bankruptcy == s.bankruptcy
  {
    hide ValidConfig, DeckKept, Roll, ResolveBankruptcy, ResolveSurrender, Assets, Sorted, HasMonopoly, CanBuildOn, CanSellOn,
         CanMortgage, CanUnmortgage, CheckPositions, ActiveSeats, Streets, Owns, Inventory, WorthFresh;
    var i := s.turn.current;
    match cmd
    case RollDice(_) =>
      RollCases(g, s, i, env);
      assert Live(g, s);
      RollShape(g, s, i, env);
    case DeclareBankruptcy(_) => DeclareClears(g, s);
    case Surrender(_) => OutBankruptcy(g, s, i);
    case EndTurn(_) => SurvivorsInRange(s.players, |s.players|); EndSame(g, s);
    case _ =>
  }

  lemma DeclareClears(g: Config, s: State)
    requires Good(g, s) && s.bankruptcy.Some?
    ensures ResolveBankruptcy(g, s).bankruptcy.None? && |ResolveBankruptcy(g, s).players| == |s.players|
  {
    hide DeckKept, SettleEstate, ActiveSeats, NextOffset;
    EstateShape(g, s);
  }

  lemma OutBankruptcy(g: Config, s: State, who: Seat)
    requires who < |s.players|
    ensures ResolveSurrender(g, s, who).bankruptcy == s.bankruptcy && |ResolveSurrender(g, s, who).players| == |s.players|
  {
    hide LeaveTable, ActiveSeats, NextOffset;
    LeaveShape(g, s, who);
  }

  lemma WrapBankruptcy(g: Config, before: State, s: State, cmd: Command, now: int)
    requires Good(g, s)
    ensures Wrap(g, before, s, cmd, now).bankruptcy == if Payable(s) then None else s.bankruptcy
  {
    hide DeckKept, ActiveSeats, ComputeActions, Assets;
  }

  lemma ResetPayable(g: Config, s: State, i: Seat)
    ensures Payable(ResetStrikes(s, i)) == Payable(s) && ResetStrikes(s, i).bankruptcy == s.bankruptcy
  {}

  /** What the books must show after a command. */
  ghost predicate Booked(g: Config, s: State, cmd: Command, env: Env, r: Outcome)
    requires Good(g, s) && r.Ok?
  {
    var e := Expected(g, s, cmd, env, r.events, r.s.bankruptcy.Some?);
    TotalsOf(g, r.s) == e.(money := e.money + DebtFlow(s, r.s, cmd))
  }

  lemma SystemAccounts(g: Config, s: State, cmd: Command, env: Env)
    requires ValidConfig(g) && Inv(g, s) && IsSystem(cmd) && Apply(g, s, cmd, env).Ok?
    ensures Booked(g, s, cmd, env, Apply(g, s, cmd, env))
  {
    hide ValidConfig, Good, Core, Table, HandleSystem, Wrap, Expected, TotalsOf, Payable;
    InvParts(g, s);
    CurrentInRange(g, s);
    var r := Apply(g, s, cmd, env);
    var s1 := HandleSystem(g, s, cmd, env).0;
    SystemGood(g, s, cmd, env);
    SystemCore(g, s, cmd, env);
    SystemTable(g, s, cmd, env);
    SystemTotals(g, s, cmd, env);
    SystemBankruptcy(g, s, cmd, env);
    WrapTotals(g, s, s1, cmd, env.now);
    WrapBankruptcy(g, s, s1, cmd, env.now);
    ExpectedFrame(g, s, cmd, env, r.events, r.s.bankruptcy.Some?);
    UnfoldTotals(g, s1);
    NoDebtPayable(s1);
  }

  lemma OpenAccounts(g: Config, s: State, cmd: Command, env: Env)
    requires ValidConfig(g) && Inv(g, s) && IsOpen(cmd) && Apply(g, s, cmd, env).Ok?
    ensures Booked(g, s, cmd, env, Apply(g, s, cmd, env))
  {
    hide ValidConfig, Good, Core, Table, DispatchOpen, Stamp, ResetStrikes, Expected, TotalsOf;
    InvParts(g, s);
    var r := Apply(g, s, cmd, env);
    var s1 := DispatchOpen(g, s, cmd, env).s;
    OpenTotals(g, s, cmd, env);
    ResetTotals(g, s1, cmd.player);
    OpenStamp(g, s, cmd, env);
    OpenExpected(g, s, cmd, env, r.events, r.s.bankruptcy.Some?);
    OpenBankruptcy(g, s, cmd, env);
  }

  lemma OpenStamp(g: Config, s: State, cmd: Command, env: Env)
    requires Good(g, s) && IsOpen(cmd) && DispatchOpen(g, s, cmd, env).Ok?
    ensures var s2 := ResetStrikes(DispatchOpen(g, s, cmd, env).s, cmd.player);
            && s2.turn.current < |s2.players| && TotalsOf(g, Stamp(g, s2, env.now)) == TotalsOf(g, s2)
            && Stamp(g, s2, env.now).bankruptcy == s2.bankruptcy
  {
    hide DeckKept, DispatchOpen, TotalsOf, Stamp;
    DispatchOpenGood(g, s, cmd, env);
    StampTotals(g, ResetStrikes(DispatchOpen(g, s, cmd, env).s, cmd.player), env.now);
  }

  lemma TurnAccounts(g: Config, s: State, cmd: Command, env: Env)
    requires ValidConfig(g) && Inv(g, s) && !IsSystem(cmd) && !IsOpen(cmd) && Orderly(s, cmd)
    requires Apply(g, s, cmd, env).Ok?
    ensures Booked(g, s, cmd, env, Apply(g, s, cmd, env))
  {
    hide ValidConfig, Good, Core, Table, Dispatch, Wrap, ResetStrikes, Orderly, Expected, TotalsOf, Payable;
    InvParts(g, s);
    CurrentInRange(g, s);
    var r := Apply(g, s, cmd, env);
    var s1 := Dispatch(g, s, cmd, env).s;
    var s2 := ResetStrikes(s1, cmd.player);
    DispatchTotals(g, s, cmd, env);
    HandlerBankruptcy(g, s, cmd, env);
    ResetTotals(g, s1, cmd.player);
    ResetPayable(g, s1, cmd.player);
    WrapDispatch(g, s, cmd, env);
    UnfoldTotals(g, s2);
    NoDebtPayable(s1);
    if !cmd.RollDice? {
      ExpectedFrame(g, s, cmd, env, r.events, r.s.bankruptcy.Some?);
      ExpectedFrame(g, s, cmd, env, r.events, s1.bankruptcy.Some?);
    }
  }

  lemma WrapDispatch(g: Config, s: State, cmd: Command, env: Env)
    requires ValidConfig(g) && Inv(g, s) && !IsSystem(cmd) && !IsOpen(cmd) && Orderly(s, cmd)
    requires cmd.player == s.turn.current && Dispatch(g, s, cmd, env).Ok?
    ensures var s2 := ResetStrikes(Dispatch(g, s, cmd, env).s, cmd.player);
            && Good(g, s2)
            && TotalsOf(g, Wrap(g, s, s2, cmd, env.now)) == TotalsOf(g, s2).(money := Money(s2) + SettleFlow(s2))
            && Wrap(g, s, s2, cmd, env.now).bankruptcy == (if Payable(s2) then None else s2.bankruptcy)
  {
    hide ValidConfig, Good, Core, Table, Dispatch, Wrap, ResetStrikes, Orderly, TotalsOf, Payable;
    InvParts(g, s);
    var s1 := Dispatch(g, s, cmd, env).s;
    var s2 := ResetStrikes(s1, cmd.player);
    DispatchGood(g, s, cmd, env);
    DispatchCore(g, s, cmd, env);
    DispatchTable(g, s, cmd, env);
    ResetInv(g, s1, cmd.player);
    ResetGood(g, s1, cmd.player);
    WrapTotals(g, s, s2, cmd, env.now);
    WrapBankruptcy(g, s, s2, cmd, env.now);
  }

  /** The books.  Every accepted orderly command changes the money in players' hands, the buildings in
      play and the jail cards by exactly the amounts `Expected` names, plus the debt to the bank it let the
      current debtor settle. */
  lemma StepAccounts(g: Config, s: State, cmd: Command, env: Env)
    requires ValidConfig(g) && Inv(g, s) && Orderly(s, cmd) && Apply(g, s, cmd, env).Ok?
    ensures Booked(g, s, cmd, env, Apply(g, s, cmd, env))
  {
    hide ValidConfig, Inv, Apply, Booked, Orderly;
    if IsSystem(cmd) {
      SystemAccounts(g, s, cmd, env);
    } else if IsOpen(cmd) {
      OpenAccounts(g, s, cmd, env);
    } else {
      TurnAccounts(g, s, cmd, env);
    }
  }

  lemma NoDebtPayable(s: State)
    ensures Payable(s) ==> s.bankruptcy.Some?
  {}

  lemma SystemBankruptcy(g: Config, s: State, cmd: Command, env: Env)
    requires Good(g, s) && IsSystem(cmd) && Table(g, s)
    ensures HandleSystem(g, s, cmd, env).0.bankruptcy == s.bankruptcy
    ensures s.bankruptcy.Some? ==> HandleSystem(g, s, cmd, env).0 == s
  {
    hide DeckKept, ActiveSeats, NextOffset, ResolveSurrender, Assets, SortedSet;
    if TurnExpired(s, env.now) {
      var i := s.turn.current;
      OutBankruptcy(g, WithPlayer(s, i, s.players[i].(strikes := s.players[i].strikes + 1)), i);
    }
  }

  lemma OpenExpected(g: Config, s: State, cmd: Command, env: Env, events: seq<Event>, unpaid: bool)
    requires Good(g, s) && IsOpen(cmd)
    ensures Expected(g, s, cmd, env, events, unpaid) == TotalsOf(g, s)
  {
    hide Good, TotalsOf;
    UnfoldTotals(g, s);
  }

  lemma OpenBankruptcy(g: Config, s: State, cmd: Command, env: Env)
    requires Good(g, s) && IsOpen(cmd) && DispatchOpen(g, s, cmd, env).Ok?
    ensures DispatchOpen(g, s, cmd, env).s.bankruptcy == s.bankruptcy
  {
    hide DeckKept, CheckPositions, SortedSet, Without, Assets;
  }

  // ---------------------------------------------------------------- corollaries

  lemma {:induction false} RecipientsCount(players: seq<Player>, who: Seat, k: nat)
    requires k <= |players| && who < |players| && !players[who].bankrupt
    ensures |Recipients(players, who, k)| == |ActiveSeats(players, k)| - (if who < k then 1 else 0)
  {
    if k > 0 {
      RecipientsCount(players, who, k - 1);
    }
  }

  /** A surrender, and an elimination by the clock, of a player who is not overdrawn conserves money:
      somebody is always left to share the cash, and the shares add up to it. */
  lemma QuittersCashStays(g: Config, s: State, cmd: Command, env: Env)
    requires ValidConfig(g) && Inv(g, s) && Orderly(s, cmd) && Apply(g, s, cmd, env).Ok?
    requires !IsOpen(cmd) && (!IsSystem(cmd) ==> cmd.player == s.turn.current)
    requires Quitter(s, cmd, env).Some? && s.players[s.turn.current].balance >= 0
    ensures TotalsOf(g, Apply(g, s, cmd, env).s)
            == TotalsOf(g, s).(jails := JailTotal(g, s) + s.players[s.turn.current].jailCards)
  {
    hide ValidConfig, DeckKept, Apply, TotalsOf, Core, Recipients, ActiveSeats, Streets, Owns, Inventory, WorthFresh, EstateFlow;
    StepAccounts(g, s, cmd, env);
    InvParts(g, s);
    UnfoldTotals(g, s);
    RecipientsCount(s.players, s.turn.current, |s.players|);
    assert !s.finished && Live(g, s);
  }
}
