/** Laws that look true of the engine and are not, each with the exact condition or the states that
    refute it. */
module Limits {
  import opened GameTypes
  import opened Soundness
  import opened Worth
  import opened Payments
  import opened PropertyRules
  import opened Elimination
  import opened Handlers
  import opened Engine
  import opened Invariants
  import opened ExchangeLaws
  import opened SurrenderLaws
  import opened StepProperty
  import opened Steps
  import opened Timers
  import opened Accounts
  import opened Solvency
  import opened OrderlyLaws
  import opened Decisions
  import opened StepRoll
  import opened Seqs

  // ---------------------------------------------------------------- buildings

  /** A bankruptcy to the bank keeps the supply of buildings exactly when the debtor has none: those
      that stand on the debtor's streets are lost to the game. */
  lemma BankBankruptcySupply(g: Config, s: State, cmd: Command, env: Env)
    requires ValidConfig(g) && Inv(g, s) && cmd.DeclareBankruptcy? && Apply(g, s, cmd, env).Ok?
    requires s.bankruptcy.Some? && s.bankruptcy.value.creditor.None?
    ensures s.bankruptcy.value.debtor < |s.players|
    ensures AllHouses(Apply(g, s, cmd, env).s) == AllHouses(s) <==> HousesOf(s, s.bankruptcy.value.debtor) == 0
    ensures AllHotels(Apply(g, s, cmd, env).s) == AllHotels(s) <==> HotelsOf(s, s.bankruptcy.value.debtor) == 0
  {
    hide ValidConfig, DeckKept, Apply, TotalsOf, Core, Streets, Owns, Inventory, WorthFresh, HousesOf, HotelsOf, EstateFlow, BankFlow;
    StepAccounts(g, s, cmd, env);
    UnfoldTotals(g, s);
    UnfoldTotals(g, Apply(g, s, cmd, env).s);
  }

  /** Every other step keeps it. */
  lemma SupplyKept(g: Config, s: State, cmd: Command, env: Env)
    requires ValidConfig(g) && Inv(g, s) && Orderly(s, cmd) && Apply(g, s, cmd, env).Ok? && !ToBank(s, cmd)
    ensures AllHouses(Apply(g, s, cmd, env).s) == AllHouses(s) && AllHotels(Apply(g, s, cmd, env).s) == AllHotels(s)
  {
    hide ValidConfig, DeckKept, Apply, TotalsOf, Core, Streets, Owns, Inventory, WorthFresh, BankFlow;
    StepAccounts(g, s, cmd, env);
    UnfoldTotals(g, s);
    UnfoldTotals(g, Apply(g, s, cmd, env).s);
  }

  /** What a command returns to the bank's counter of houses. */
  function HousesBack(s: State, cmd: Command, env: Env): int
    requires s.turn.current < |s.players|
  {
    match cmd
    case BuildHouse(_, p) => if TileAt(s.tiles, p).houses == 4 then 4 else -1
    case SellHouse(_, p) => if TileAt(s.tiles, p).hasHotel then -4 else 1
    case _ => if Quitter(s, cmd, env).Some? then HousesOf(s, s.turn.current) else 0
  }

  lemma WrapHouses(g: Config, before: State, s: State, cmd: Command, now: int)
    requires GoodRefs(g, s)
    ensures Wrap(g, before, s, cmd, now).bankHouses == s.bankHouses
  {
    hide ActiveSeats, ComputeActions, TrySettleDebt;
    SettleHouses(g, ClearCard(before, s, cmd));
  }

  lemma SettleHouses(g: Config, s: State)
    requires GoodRefs(g, s)
    ensures TrySettleDebt(g, s).bankHouses == s.bankHouses
  {
    hide Assets;
  }

  lemma LeaveHouses(g: Config, s: State, who: Seat)
    requires who < |s.players| && !s.players[who].bankrupt
    ensures ResolveSurrender(g, s, who).bankHouses == s.bankHouses + HousesOf(s, who)
  {
    hide LeaveTable, ActiveSeats, NextOffset, HousesOf;
    LeaveShape(g, s, who);
  }

  lemma EstateHouses(g: Config, s: State)
    requires Good(g, s) && s.bankruptcy.Some?
    ensures ResolveBankruptcy(g, s).bankHouses == s.bankHouses
  {
    hide DeckKept, Assets, SortedSet, Reassign, ReleaseTiles, AppendCards, Interest, ActiveSeats, NextOffset;
  }

  lemma BuildersHouses(g: Config, s: State, cmd: Command, env: Env)
    requires ValidConfig(g) && Good(g, s) && !IsSystem(cmd) && !IsOpen(cmd) && cmd.player == s.turn.current
    requires cmd.BuildHouse? || cmd.SellHouse? || cmd.Mortgage? || cmd.Unmortgage?
    requires Dispatch(g, s, cmd, env).Ok?
    ensures Dispatch(g, s, cmd, env).s.bankHouses == s.bankHouses + HousesBack(s, cmd, env)
  {
    hide ValidConfig, DeckKept, Assets, HasMonopoly;
  }

  lemma PlainHouses(g: Config, s: State, cmd: Command, env: Env)
    requires ValidConfig(g) && Good(g, s) && !IsSystem(cmd) && !IsOpen(cmd) && cmd.player == s.turn.current
    requires cmd.BuyProperty? || cmd.PassBuy? || cmd.EndTurn? || cmd.PayJailFine? || cmd.UseJailCard? || cmd.ProposeTrade?
    requires Dispatch(g, s, cmd, env).Ok?
    ensures Dispatch(g, s, cmd, env).s.bankHouses == s.bankHouses
  {
    hide ValidConfig, DeckKept, ActiveSeats, Assets, Sorted, CheckPositions;
    if cmd.EndTurn? {
      SurvivorsInRange(s.players, |s.players|);
      EndSame(g, s);
    }
  }

  lemma TurnHouses(g: Config, s: State, cmd: Command, env: Env)
    requires ValidConfig(g) && Inv(g, s) && Good(g, s) && !IsSystem(cmd) && !IsOpen(cmd) && cmd.player == s.turn.current
    requires Dispatch(g, s, cmd, env).Ok?
    ensures Dispatch(g, s, cmd, env).s.bankHouses == s.bankHouses + HousesBack(s, cmd, env)
  {
    hide ValidConfig, Good, Inv, Roll, ResolveBankruptcy, ResolveSurrender, HousesOf;
    CurrentInRange(g, s);
    var i := s.turn.current;
    if cmd.RollDice? {
      BeforeRoll(g, s, env);
      RollShape(g, s, i, env);
      RollProperty(s, Roll(g, s, i, env).s, i);
    } else if cmd.DeclareBankruptcy? {
      EstateHouses(g, s);
    } else if cmd.Surrender? {
      LeaveHouses(g, s, i);
    } else if cmd.BuildHouse? || cmd.SellHouse? || cmd.Mortgage? || cmd.Unmortgage? {
      BuildersHouses(g, s, cmd, env);
    } else {
      PlainHouses(g, s, cmd, env);
    }
  }

  lemma OpenHouses(g: Config, s: State, cmd: Command, env: Env)
    requires Good(g, s) && IsOpen(cmd) && DispatchOpen(g, s, cmd, env).Ok?
    ensures DispatchOpen(g, s, cmd, env).s.bankHouses == s.bankHouses
  {
    hide DeckKept, CheckPositions, SortedSet, Without, Reassign, Assets;
  }

  lemma SystemHouses(g: Config, s: State, cmd: Command, env: Env)
    requires Good(g, s) && Inv(g, s) && IsSystem(cmd) && s.turn.current < |s.players|
    ensures HandleSystem(g, s, cmd, env).0.bankHouses == s.bankHouses + HousesBack(s, cmd, env)
  {
    hide Good, Inv, ResolveSurrender, ActiveSeats, NextOffset, Assets, SortedSet, HousesOf;
    OneProtocol(g, s);
    if cmd.TurnTimeout? && TurnExpired(s, env.now) {
      var i := s.turn.current;
      var s1 := WithPlayer(s, i, s.players[i].(strikes := s.players[i].strikes + 1));
      LeaveHouses(g, s1, i);
      SameHouses(s, s1, i);
    } else if cmd.AdvanceAuction? {
      AuctionLeader(g, s);
    }
  }

  lemma SameHouses(a: State, b: State, who: Seat)
    requires who < |a.players| == |b.players| && a.tiles == b.tiles && a.players[who].owned == b.players[who].owned
    ensures HousesOf(a, who) == HousesOf(b, who)
  {}

  /** The bank's counter of houses after any accepted command. */
  lemma HousesCounter(g: Config, s: State, cmd: Command, env: Env)
    requires ValidConfig(g) && Inv(g, s) && Apply(g, s, cmd, env).Ok?
    ensures s.turn.current < |s.players|
    ensures Apply(g, s, cmd, env).s.bankHouses == s.bankHouses + HousesBack(s, cmd, env)
  {
    hide ValidConfig, Good, Inv, HandleSystem, DispatchOpen, Dispatch, Wrap, ResetStrikes, ComputeActions, HousesBack;
    InvGood(g, s);
    CurrentInRange(g, s);
    if IsSystem(cmd) {
      var s1 := HandleSystem(g, s, cmd, env).0;
      SystemGood(g, s, cmd, env);
      SystemHouses(g, s, cmd, env);
      GoodImpliesRefs(g, s1);
      WrapHouses(g, s, s1, cmd, env.now);
    } else if IsOpen(cmd) {
      var s1 := DispatchOpen(g, s, cmd, env).s;
      DispatchOpenGood(g, s, cmd, env);
      ResetGood(g, s1, cmd.player);
      CurrentInRange(g, ResetStrikes(s1, cmd.player));
      OpenHouses(g, s, cmd, env);
      ResetHouses(s1, cmd.player);
      NobodyQuits(s, cmd, env);
    } else {
      var s1 := Dispatch(g, s, cmd, env).s;
      DispatchGood(g, s, cmd, env);
      ResetGood(g, s1, cmd.player);
      TurnHouses(g, s, cmd, env);
      ResetHouses(s1, cmd.player);
      GoodImpliesRefs(g, ResetStrikes(s1, cmd.player));
      WrapHouses(g, s, ResetStrikes(s1, cmd.player), cmd, env.now);
    }
  }

  lemma ResetHouses(s: State, i: Seat)
    ensures ResetStrikes(s, i).bankHouses == s.bankHouses
  {}

  lemma NobodyQuits(s: State, cmd: Command, env: Env)
    requires s.turn.current < |s.players| && IsOpen(cmd)
    ensures HousesBack(s, cmd, env) == 0
  {}

  /** Breaking up a hotel takes four houses from the bank whether it has them or not: the counter falls below zero exactly
      when fewer than four are left, and in no other way. */
  lemma BrokenHotel(g: Config, s: State, cmd: Command, env: Env)
    requires ValidConfig(g) && Inv(g, s) && Apply(g, s, cmd, env).Ok? && s.bankHouses >= 0
    ensures Apply(g, s, cmd, env).s.bankHouses < 0
            <==> cmd.SellHouse? && TileAt(s.tiles, cmd.position).hasHotel && s.bankHouses < 4
  {
    hide ValidConfig, Good, Inv, Apply, HousesOf;
    HousesCounter(g, s, cmd, env);
    HousesStanding(g, s, s.turn.current);
    if cmd.BuildHouse? {
      HousesLeft(g, s, cmd, env);
    }
  }

  lemma HousesStanding(g: Config, s: State, who: Seat)
    requires Inv(g, s) && who < |s.players|
    ensures HousesOf(s, who) >= 0
  {
    hide Good, Streets, Owns, Inventory, WorthFresh, Phases, Roster;
    OwnedReleaseCounts(g, s, who);
  }

  /** A house is built only while the bank has one. */
  lemma HousesLeft(g: Config, s: State, cmd: Command, env: Env)
    requires ValidConfig(g) && Inv(g, s) && cmd.BuildHouse? && Apply(g, s, cmd, env).Ok?
    ensures TileAt(s.tiles, cmd.position).houses != 4 ==> s.bankHouses > 0
  {
    hide ValidConfig, DeckKept, Wrap, ResetStrikes, Rework, HasMonopoly, Inventory, Owns, WorthFresh, Phases, Roster;
    assert TileOk(g, cmd.position, TileAt(s.tiles, cmd.position));
  }
}
