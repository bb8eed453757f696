/** The step theorem: every accepted orderly command keeps all invariants; and runs. */
module Steps {
  import opened GameTypes
  import opened Seqs
  import opened Soundness
  import opened Worth
  import opened Payments
  import opened Landing
  import opened LandingLaws
  import opened LandingChain
  import opened PropertyRules
  import opened Elimination
  import opened Handlers
  import opened Engine
  import opened Invariants
  import opened PropertyLaws
  import opened ExchangeLaws
  import opened StepProperty
  import opened StepRoll
  import opened StepTable

  lemma InvParts(g: Config, s: State)
    ensures Inv(g, s) <==> Good(g, s) && Core(g, s) && Table(g, s) && DebtOpen(s)
  {}

  // ---------------------------------------------------------------- handlers

  lemma DispatchCore(g: Config, s: State, cmd: Command, env: Env)
    requires ValidConfig(g) && Good(g, s) && Core(g, s) && Table(g, s)
    requires !IsSystem(cmd) && !IsOpen(cmd) && cmd.player == s.turn.current
    requires Dispatch(g, s, cmd, env).Ok?
    ensures Core(g, Dispatch(g, s, cmd, env).s)
  {
    hide ValidConfig, DeckKept, Core, Table, Roll, Buy, End, ResolveBankruptcy, ResolveSurrender, Assets, CheckPositions;
    var i := s.turn.current;
    var s' := Dispatch(g, s, cmd, env).s;
    match cmd
    case RollDice(_) => RollCore(g, s, env);
    case BuyProperty(_, p) => BuyOnBoard(g, s, p); BuyCore(g, s, i, p);
    case PassBuy(_) => CoreSame(g, s, s');
    case EndTurn(_) => SurvivorsInRange(s.players, |s.players|); EndSame(g, s); CoreSame(g, s, s');
    case PayJailFine(_) => JailCore(g, s);
    case UseJailCard(_) => JailCore(g, s);
    case BuildHouse(_, _) => BuildersCore(g, s, cmd, env);
    case SellHouse(_, _) => BuildersCore(g, s, cmd, env);
    case Mortgage(_, _) => BuildersCore(g, s, cmd, env);
    case Unmortgage(_, _) => BuildersCore(g, s, cmd, env);
    case ProposeTrade(_, _, _, _) => CoreSame(g, s, s');
    case DeclareBankruptcy(_) => BankruptcyCore(g, s);
    case Surrender(_) => SurrenderCore(g, s, i);
  }

  lemma BuyOnBoard(g: Config, s: State, p: int)
    requires Good(g, s) && Buy(g, s, s.turn.current, p).Ok?
    ensures OnBoard(g, p)
  {
    hide DeckKept, Acquire, Sorted;
  }

  lemma EndSame(g: Config, s: State)
    requires Good(g, s)
    requires forall k :: 0 <= k < |Survivors(s)| ==> Survivors(s)[k] < |s.players|
    requires End(s, s.turn.current).Ok?
    ensures End(s, s.turn.current).s == s.(turn := End(s, s.turn.current).s.turn)
  {
    hide DeckKept, ActiveSeats;
  }

  lemma RollCore(g: Config, s: State, env: Env)
    requires ValidConfig(g) && Good(g, s) && Core(g, s) && Table(g, s) && Roll(g, s, s.turn.current, env).Ok?
    ensures Core(g, Roll(g, s, s.turn.current, env).s)
  {
    hide ValidConfig, DeckKept, Roll, Streets, Inventory, Owns, WorthFresh, RollTouches, ActiveSeats;
    var i := s.turn.current;
    RollCases(g, s, i, env);
    assert Live(g, s);
    RollShape(g, s, i, env);
    RollFresh(g, s, i, env);
    RollProperty(s, Roll(g, s, i, env).s, i);
    CoreFrame(g, s, Roll(g, s, i, env).s);
  }

  lemma JailCore(g: Config, s: State)
    requires Good(g, s) && Core(g, s)
    ensures PayFine(g, s, s.turn.current).Ok? ==> Core(g, PayFine(g, s, s.turn.current).s)
    ensures UseCard(g, s, s.turn.current).Ok? ==> Core(g, UseCard(g, s, s.turn.current).s)
  {
    hide DeckKept, Core, Assets;
    var i := s.turn.current;
    var p := s.players[i];
    if PayFine(g, s, i).Ok? {
      var q := Refreshed(g, s.tiles, p.(jail := None, balance := p.balance - g.jailFine));
      CorePlayer(g, s, i, q);
      CoreSame(g, WithPlayer(s, i, q), PayFine(g, s, i).s);
    }
    if UseCard(g, s, i).Ok? {
      var q := Refreshed(g, s.tiles, p.(jail := None, jailCards := p.jailCards - 1));
      CorePlayer(g, s, i, q);
      CoreSame(g, WithPlayer(s, i, q), UseCard(g, s, i).s);
    }
  }

  lemma DispatchTable(g: Config, s: State, cmd: Command, env: Env)
    requires ValidConfig(g) && Good(g, s) && Core(g, s) && Table(g, s)
    requires !IsSystem(cmd) && !IsOpen(cmd) && cmd.player == s.turn.current && Orderly(s, cmd)
    requires Dispatch(g, s, cmd, env).Ok?
    ensures Table(g, Dispatch(g, s, cmd, env).s)
  {
    hide ValidConfig, DeckKept, Core, Table, Roll, Buy, Pass, End, ResolveBankruptcy, ResolveSurrender, Assets, CheckPositions;
    match cmd
    case RollDice(_) => RollTable(g, s, env);
    case BuyProperty(_, p) => BuyTable(g, s, p);
    case PassBuy(_) => PassTable(g, s, env);
    case EndTurn(_) => SurvivorsInRange(s.players, |s.players|); EndTable(g, s);
    case PayJailFine(_) => JailTable(g, s);
    case UseJailCard(_) => JailTable(g, s);
    case BuildHouse(_, _) => BuildersTable(g, s, cmd, env);
    case SellHouse(_, _) => BuildersTable(g, s, cmd, env);
    case Mortgage(_, _) => BuildersTable(g, s, cmd, env);
    case Unmortgage(_, _) => BuildersTable(g, s, cmd, env);
    case ProposeTrade(_, target, offer, request) => ProposeTable(g, s, target, offer, request, env);
    case DeclareBankruptcy(_) => NotOver(g, s); BankruptcyTable(g, s);
    case Surrender(_) => SurrenderTable(g, s);
  }

  lemma NotOver(g: Config, s: State)
    requires Table(g, s)
    ensures s.bankruptcy.Some? || s.auction.Some? || s.trade.Some? || s.turn.phase != GameOver ==> !s.finished
  {}

  lemma OpenCore(g: Config, s: State, cmd: Command, env: Env)
    requires Good(g, s) && Core(g, s) && Table(g, s) && IsOpen(cmd) && DispatchOpen(g, s, cmd, env).Ok?
    ensures Core(g, DispatchOpen(g, s, cmd, env).s)
  {
    hide DeckKept, Core, Table, Exchange, CheckPositions;
    var s' := DispatchOpen(g, s, cmd, env).s;
    if cmd.RespondTrade? && cmd.response == Accept {
      ExchangeCore(g, s, s.trade.value);
    } else {
      CoreSame(g, s, s');
    }
  }

  lemma OpenTable(g: Config, s: State, cmd: Command, env: Env)
    requires Good(g, s) && Table(g, s) && IsOpen(cmd) && Orderly(s, cmd) && DispatchOpen(g, s, cmd, env).Ok?
    ensures Table(g, DispatchOpen(g, s, cmd, env).s)
  {
    hide Good, Table, DispatchOpen;
    if cmd.RespondTrade? {
      RespondTable(g, s, cmd, env);
    } else {
      BidTable(g, s, cmd, env);
    }
  }

  lemma SystemCore(g: Config, s: State, cmd: Command, env: Env)
    requires Good(g, s) && Core(g, s) && Table(g, s) && IsSystem(cmd)
    ensures Core(g, HandleSystem(g, s, cmd, env).0)
  {
    hide DeckKept, Core, ResolveAuction, Timeout, ActiveSeats;
    match cmd
    case AdvanceAuction =>
      if AuctionExpired(s, env.now) {
        assert Live(g, s);
        AuctionCore(g, s);
      }
    case ExpireTrade => CoreSame(g, s, HandleSystem(g, s, cmd, env).0);
    case TurnTimeout => TimeoutCore(g, s, env.now);
  }

  lemma SystemTable(g: Config, s: State, cmd: Command, env: Env)
    requires Good(g, s) && Table(g, s) && IsSystem(cmd)
    ensures Table(g, HandleSystem(g, s, cmd, env).0)
  {
    hide DeckKept, Table, ResolveAuction;
    match cmd
    case AdvanceAuction =>
      if AuctionExpired(s, env.now) {
        AuctionTable(g, s);
      }
    case ExpireTrade =>
      if s.trade.Some? {
        CloseTable(g, s);
      }
    case TurnTimeout =>
      if s.finished {
        OverQuiet(g, s, env.now);
      } else {
        TimeoutTable(g, s, env.now);
      }
  }

  lemma OverQuiet(g: Config, s: State, now: int)
    requires Table(g, s) && s.finished
    ensures !TurnExpired(s, now)
  {}

  // ---------------------------------------------------------------- after the handler

  lemma ResetInv(g: Config, s: State, i: Seat)
    requires Core(g, s) && Table(g, s)
    ensures Core(g, ResetStrikes(s, i)) && Table(g, ResetStrikes(s, i))
  {
    hide ActiveSeats, Core, Assets;
    if i < |s.players| && s.players[i].strikes != 0 {
      StrikesCore(g, s, i, 0);
      RecordAt(s, i);
      OnePlayerRecords(s, i, s.players[i].(strikes := 0));
      RosterFrame(s, ResetStrikes(s, i));
    }
  }

  lemma StampInv(g: Config, s: State, now: int)
    requires Core(g, s) && Table(g, s)
    ensures Core(g, Stamp(g, s, now)) && Table(g, Stamp(g, s, now))
  {
    hide ActiveSeats, Core, ComputeActions;
    var s' := Stamp(g, s, now);
    CoreSame(g, s, s');
    SamePlayersRecords(s, s');
    RosterFrame(s, s');
  }

  /** Settling a debt that can now be paid returns the game to the debtor's turn. */
  lemma SettleInv(g: Config, s: State)
    requires Good(g, s) && Core(g, s) && Table(g, s)
    ensures Core(g, TrySettleDebt(g, s)) && Table(g, TrySettleDebt(g, s))
  {
    hide DeckKept, ActiveSeats, Streets, Inventory, Owns, Assets;
    var s' := TrySettleDebt(g, s);
    if s' != s {
      assert Live(g, s);
      assert SameProperty(s, s') && WorthFresh(g, s');
      CoreFrame(g, s, s');
      SettleRecords(g, s);
      RosterFrame(s, s');
    }
  }

  lemma SettleRecords(g: Config, s: State)
    requires Good(g, s) && Roster(s)
    ensures SameRecords(s, TrySettleDebt(g, s))
  {
    hide DeckKept, ActiveSeats, Transfer;
    if s.bankruptcy.Some? {
      TransferFrame(g, s, s.bankruptcy.value.debtor, s.bankruptcy.value.creditor, s.bankruptcy.value.owed);
    }
    forall j | 0 <= j < |s.players| ensures RecordOk(s.players[j], s.turn.number, s.finished) {}
  }

  lemma CheckWinInv(g: Config, s: State)
    requires Table(g, s)
    ensures CheckWin(s) == s
  {}

  lemma WrapInv(g: Config, before: State, s: State, cmd: Command, now: int)
    requires Good(g, s) && Core(g, s) && Table(g, s)
    ensures Core(g, Wrap(g, before, s, cmd, now)) && Table(g, Wrap(g, before, s, cmd, now))
    ensures DebtOpen(Wrap(g, before, s, cmd, now))
  {
    WrapDebt(g, before, s, cmd, now);
    hide DeckKept, Core, Table, TrySettleDebt, CheckWin, Stamp;
    var s1 := ClearCard(before, s, cmd);
    CoreSame(g, s, s1);
    CardTable(g, s, s1);
    GoodFrameCard(g, s, s1);
    SettleInv(g, s1);
    CheckWinInv(g, TrySettleDebt(g, s1));
    CurrentOf(g, TrySettleDebt(g, s1));
    StampInv(g, TrySettleDebt(g, s1), now);
  }

  /** What is left of a debt after the settlement is more than the debtor has. */
  lemma WrapDebt(g: Config, before: State, s: State, cmd: Command, now: int)
    requires Good(g, s) && Core(g, s) && Table(g, s)
    ensures DebtOpen(Wrap(g, before, s, cmd, now))
  {
    hide DeckKept, Core, Table, Transfer, ComputeActions, ActiveSeats;
  }

  lemma CardTable(g: Config, s: State, s1: State)
    requires Table(g, s) && s1 == s.(activeCard := s1.activeCard)
    ensures Table(g, s1)
  {}

  lemma GoodFrameCard(g: Config, s: State, s1: State)
    requires Good(g, s) && s1 == s.(activeCard := s1.activeCard)
    ensures Good(g, s1)
  {}

  lemma CurrentOf(g: Config, s: State)
    requires Table(g, s)
    ensures s.turn.current < |s.players|
  {}

  /** The commands that may come from any seat are accepted only while no debt is open. */
  lemma OpenDebt(g: Config, s: State, cmd: Command, env: Env)
    requires ValidConfig(g) && Good(g, s) && Table(g, s) && IsOpen(cmd) && Apply(g, s, cmd, env).Ok?
    ensures Apply(g, s, cmd, env).s.bankruptcy.None?
  {
    hide ValidConfig, DeckKept, ActiveSeats, Exchange, CheckPositions, ComputeActions;
    if cmd.RespondTrade? && cmd.response == Accept {
      ExchangeClosed(g, s, s.trade.value);
    }
  }

  lemma ExchangeClosed(g: Config, s: State, t: Trade)
    requires t.proposer < |s.players| && t.target < |s.players|
    ensures Exchange(g, s, t).bankruptcy == s.bankruptcy
    ensures Exchange(g, s, t).turn.current == s.turn.current && |Exchange(g, s, t).players| == |s.players|
  {}

  // ---------------------------------------------------------------- the step theorem

  /** Every accepted orderly command keeps every invariant. */
  lemma StepInvariant(g: Config, s: State, cmd: Command, env: Env)
    requires ValidConfig(g) && Inv(g, s) && Orderly(s, cmd) && Apply(g, s, cmd, env).Ok?
    ensures Inv(g, Apply(g, s, cmd, env).s)
  {
    hide ValidConfig, Good, Core, Table, Inv, HandleSystem, DispatchOpen, Dispatch, Wrap, Stamp, ResetStrikes, Orderly;
    InvParts(g, s);
    InvParts(g, Apply(g, s, cmd, env).s);
    if IsSystem(cmd) {
      SystemGood(g, s, cmd, env);
      SystemCore(g, s, cmd, env);
      SystemTable(g, s, cmd, env);
      WrapInv(g, s, HandleSystem(g, s, cmd, env).0, cmd, env.now);
    } else if IsOpen(cmd) {
      var s1 := DispatchOpen(g, s, cmd, env).s;
      OpenCore(g, s, cmd, env);
      OpenTable(g, s, cmd, env);
      ResetInv(g, s1, cmd.player);
      StampInv(g, ResetStrikes(s1, cmd.player), env.now);
      OpenDebt(g, s, cmd, env);
    } else {
      var s1 := Dispatch(g, s, cmd, env).s;
      DispatchGood(g, s, cmd, env);
      DispatchCore(g, s, cmd, env);
      DispatchTable(g, s, cmd, env);
      ResetInv(g, s1, cmd.player);
      ResetGood(g, s1, cmd.player);
      WrapInv(g, s, ResetStrikes(s1, cmd.player), cmd, env.now);
    }
  }
}
