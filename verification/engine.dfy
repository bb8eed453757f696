/** `apply`: one command, from the handler to the refreshed state. */
module Engine {
  import opened GameTypes
  import opened Seqs
  import opened Soundness
  import opened Worth
  import opened Payments
  import opened Landing
  import opened PropertyRules
  import opened Elimination
  import opened Handlers

  // ---------------------------------------------------------------- handlers keep states well-formed

  lemma GoodTilesFrame(g: Config, s: State, s': State)
    requires Good(g, s)
    requires s'.chanceDeck == s.chanceDeck && s'.chestDeck == s.chestDeck && |s'.players| == |s.players|
    requires GoodPlayers(g, s'.players) && GoodRefs(g, s') && GoodTiles(g, s'.tiles, |s'.players|)
    ensures Good(g, s')
  {}

  lemma ReworkGood(g: Config, s: State, who: Seat, p: int, t: Tile, gain: int)
    requires Good(g, s) && who < |s.players| && t.owner == Some(who)
    ensures Good(g, Rework(g, s, who, p, t, gain))
  {
    hide Assets, DeckKept;
    GoodTilesFrame(g, s, Rework(g, s, who, p, t, gain));
  }

  lemma BankCountersGood(g: Config, s: State, houses: int, hotels: int)
    requires Good(g, s)
    ensures Good(g, s.(bankHouses := houses, bankHotels := hotels))
  {}

  lemma AcquireGood(g: Config, s: State, who: Seat, p: int, price: int, owned: seq<int>)
    requires Good(g, s) && who < |s.players|
    ensures Good(g, Acquire(g, s, who, p, price, owned))
  {
    hide Assets, DeckKept;
    GoodTilesFrame(g, s, Acquire(g, s, who, p, price, owned));
  }

  lemma ResolveAuctionGood(g: Config, s: State)
    requires Good(g, s)
    ensures Good(g, ResolveAuction(g, s))
  {
    hide Assets, DeckKept;
    if s.auction.Some? && s.auction.value.leader.Some? {
      var a := s.auction.value;
      AcquireGood(g, s, a.leader.value, a.position, a.highest, SortedSet(s.players[a.leader.value].owned + [a.position]));
    }
  }

  lemma ExchangeGood(g: Config, s: State, t: Trade)
    requires Good(g, s) && t.proposer < |s.players| && t.target < |s.players|
    ensures Good(g, Exchange(g, s, t))
  {
    hide Assets, DeckKept, SortedSet, Without;
    GoodTilesFrame(g, s, Exchange(g, s, t));
  }

  lemma {:induction false} AppendKeepsDeck(g: Config, deck: seq<CardId>, full: seq<CardId>, card: CardId, n: int)
    requires DeckKept(g, deck, full) && IsJailCard(g, card)
    ensures DeckKept(g, AppendCards(deck, card, n), full)
    decreases n
  {
    if n > 0 {
      AppendKeepsDeck(g, deck, full, card, n - 1);
    }
  }

  lemma {:induction false} ReleaseOwners(tiles: seq<Tile>, owned: seq<int>, k: nat)
    requires k < |tiles|
    ensures ReleaseTiles(tiles, owned).tiles[k] == if k + 1 in owned then BARE else tiles[k]
  {
    if owned != [] {
      var n := |owned| - 1;
      ReleaseOwners(tiles, owned[..n], k);
      assert owned == owned[..n] + [owned[n]];
    }
  }

  lemma EstateGood(g: Config, s: State)
    requires ValidConfig(g) && Good(g, s) && s.bankruptcy.Some?
    ensures Good(g, SettleEstate(g, s))
  {
    hide Assets, DeckKept, SortedSet, Interest;
    var b := s.bankruptcy.value;
    var d := s.players[b.debtor];
    var s' := SettleEstate(g, s);
    if b.creditor.Some? {
      GoodTilesFrame(g, s, s');
    } else {
      AppendKeepsDeck(g, s.chanceDeck, g.chanceDeck, CHANCE_JAIL_CARD, d.jailCards);
      AppendKeepsDeck(g, s.chestDeck, g.chestDeck, CHEST_JAIL_CARD, d.jailCards);
      forall k | 0 <= k < |s.tiles| ensures s'.tiles[k].owner.Some? ==> s'.tiles[k].owner.value < |s.players| {
        ReleaseOwners(s.tiles, d.owned, k);
      }
    }
  }

  lemma {:induction false} SharesFrame(players: seq<Player>, to: seq<Seat>, cash: int, n: nat)
    requires n <= |to|
    requires forall k :: 0 <= k < |to| ==> to[k] < |players|
    ensures forall j :: 0 <= j < |players| ==>
              PayShares(players, to, cash, n)[j] == players[j].(balance := PayShares(players, to, cash, n)[j].balance)
    ensures forall j :: 0 <= j < |players| && j !in to ==> PayShares(players, to, cash, n)[j] == players[j]
  {
    if n > 0 {
      SharesFrame(players, to, cash, n - 1);
    }
  }

  /** The split changes nothing but the balances of the remaining active players. */
  lemma SplitFrame(players: seq<Player>, who: Seat)
    requires who < |players|
    ensures forall j :: 0 <= j < |players| ==>
              SplitCash(players, who)[j] == players[j].(balance := SplitCash(players, who)[j].balance)
    ensures forall j :: 0 <= j < |players| && (j == who || players[j].bankrupt) ==> SplitCash(players, who)[j] == players[j]
  {
    RecipientsInRange(players, who, |players|);
    var to := Recipients(players, who, |players|);
    SharesFrame(players, to, players[who].balance, |to|);
  }

  lemma LeaveGood(g: Config, s: State, who: Seat)
    requires ValidConfig(g) && Good(g, s) && who < |s.players|
    ensures Good(g, LeaveTable(g, s, who))
  {
    hide Assets, DeckKept, SplitCash;
    var p := s.players[who];
    var s' := LeaveTable(g, s, who);
    SplitFrame(s.players, who);
    AppendKeepsDeck(g, s.chanceDeck, g.chanceDeck, CHANCE_JAIL_CARD, p.jailCards);
    AppendKeepsDeck(g, s.chestDeck, g.chestDeck, CHEST_JAIL_CARD, p.jailCards);
    forall k | 0 <= k < |s.tiles| ensures s'.tiles[k].owner.Some? ==> s'.tiles[k].owner.value < |s.players| {
      ReleaseOwners(s.tiles, p.owned, k);
    }
  }

  /** A new turn record with an existing current player keeps a state well-formed. */
  lemma TurnGood(g: Config, s: State, turn: Turn)
    requires Good(g, s) && turn.current < |s.players|
    requires turn.pending.Some? ==> turn.pending == s.turn.pending
    ensures Good(g, s.(turn := turn))
  {
    hide DeckKept;
    GoodFrame(g, s, s.(turn := turn));
  }

  lemma CheckWinGood(g: Config, s: State)
    requires Good(g, s)
    ensures Good(g, CheckWin(s))
  {
    hide DeckKept, ActiveSeats;
    GoodFrame(g, s, CheckWin(s));
  }

  lemma AdvanceGood(g: Config, s: State, from: Seat)
    requires Good(g, s) && from < |s.players|
    ensures Good(g, AdvanceOff(s, from))
  {
    hide DeckKept, NextOffset;
    match NextOffset(s.players, from, 1)
    case None =>
    case Some(k) => TurnGood(g, s, TurnFor(s, SeatAfter(|s.players|, from, k), from + k >= |s.players|));
  }

  lemma SurrenderGood(g: Config, s: State, who: Seat)
    requires ValidConfig(g) && Good(g, s) && who < |s.players|
    ensures Good(g, ResolveSurrender(g, s, who))
  {
    hide Good, ValidConfig, LeaveTable, CheckWin, AdvanceOff;
    if !s.players[who].bankrupt {
      LeaveGood(g, s, who);
      assert |LeaveTable(g, s, who).players| == |s.players| by { LeaveSize(g, s, who); }
      CheckWinGood(g, LeaveTable(g, s, who));
      AdvanceGood(g, CheckWin(LeaveTable(g, s, who)), who);
    }
  }

  lemma LeaveSize(g: Config, s: State, who: Seat)
    requires who < |s.players|
    ensures |LeaveTable(g, s, who).players| == |s.players|
  {}

  lemma BankruptcyGood(g: Config, s: State)
    requires ValidConfig(g) && Good(g, s) && s.bankruptcy.Some?
    ensures Good(g, ResolveBankruptcy(g, s))
  {
    hide ValidConfig, CheckWin, AdvanceOff, DeckKept, Assets;
    EstateGood(g, s);
    CheckWinGood(g, SettleEstate(g, s));
    AdvanceGood(g, CheckWin(SettleEstate(g, s)), s.bankruptcy.value.debtor);
  }

  lemma TimeoutGood(g: Config, s: State, now: int)
    requires ValidConfig(g) && Good(g, s)
    ensures Good(g, Timeout(g, s, now).0)
  {
    hide ValidConfig, ResolveSurrender, AdvanceOff, DeckKept, Assets;
    if TurnExpired(s, now) {
      var i := s.turn.current;
      var p := s.players[i].(strikes := s.players[i].strikes + 1);
      MoveGood(g, s, i, p);
      SurrenderGood(g, WithPlayer(s, i, p), i);
      AdvanceGood(g, WithPlayer(s, i, p), i);
    }
  }

  lemma SystemGood(g: Config, s: State, cmd: Command, env: Env)
    requires ValidConfig(g) && Good(g, s) && IsSystem(cmd)
    ensures Good(g, HandleSystem(g, s, cmd, env).0)
  {
    hide ValidConfig, ResolveAuction, Timeout, DeckKept;
    ResolveAuctionGood(g, s);
    TimeoutGood(g, s, env.now);
    TurnGood(g, s, s.turn.(phase := PostRoll));
  }

  lemma CurrentInRange(g: Config, s: State)
    requires Good(g, s)
    ensures s.turn.current < |s.players|
  {}

  lemma ExecuteGood(g: Config, s: State, i: Seat, dice: DiceRoll, extraRoll: bool, env: Env)
    requires ValidConfig(g) && Good(g, s) && i < |s.players|
    ensures Good(g, ExecuteMove(g, s, i, dice, extraRoll, env).0)
  {
    hide Good, ValidConfig, DiceWalk, ResolveLanding;
    var (s1, walk) := DiceWalk(g, s, i, dice.die1 + dice.die2);
    var streak := if dice.isDoubles then s.turn.streak + 1 else 0;
    var r := ResolveLanding(g, s1, i, dice, 0, 1, env);
    CurrentInRange(g, r.s);
    TurnGood(g, r.s, TurnAfterMove(r, dice, extraRoll, streak));
  }

  lemma JailOnBoard(g: Config)
    requires ValidConfig(g)
    ensures OnBoard(g, g.jail) && OnBoard(g, g.start)
    ensures IsJailCard(g, CHANCE_JAIL_CARD) && IsJailCard(g, CHEST_JAIL_CARD)
  {}

  lemma RollGood(g: Config, s: State, env: Env)
    requires ValidConfig(g) && Good(g, s)
    ensures Roll(g, s, s.turn.current, env).Ok? ==> Good(g, Roll(g, s, s.turn.current, env).s)
  {
    hide ExecuteMove, ValidConfig, DeckKept, Assets;
    var i := s.turn.current;
    var p := s.players[i];
    var dice := DiceOf(g, env);
    var idle := s.turn.(dice := Some(dice), streak := 0, phase := PostRoll, pending := None);
    ExecuteGood(g, s, i, dice, dice.isDoubles, env);
    MoveGood(g, s, i, p.(jail := None));
    ExecuteGood(g, WithPlayer(s, i, p.(jail := None)), i, dice, false, env);
    MoveGood(g, s, i, p.(jail := None, balance := p.balance - g.jailFine));
    ExecuteGood(g, WithPlayer(s, i, p.(jail := None, balance := p.balance - g.jailFine)), i, dice, false, env);
    if p.jail.Some? {
      var q := Refreshed(g, s.tiles, p.(jail := Some(p.jail.value - 1)));
      MoveGood(g, s, i, q);
      TurnGood(g, WithPlayer(s, i, q), idle);
    }
    JailOnBoard(g);
    var q := Refreshed(g, s.tiles, SendToJail(g, p));
    MoveGood(g, s, i, q);
    TurnGood(g, WithPlayer(s, i, q), idle);
  }

  lemma BuyGood(g: Config, s: State, i: Seat, p: int)
    requires Good(g, s) && i < |s.players|
    ensures Buy(g, s, i, p).Ok? ==> Good(g, Buy(g, s, i, p).s)
  {
    hide DeckKept, Sorted, Acquire;
    if Buy(g, s, i, p).Ok? {
      var price := SpaceAt(g, p).price.value;
      var owned := Sorted(s.players[i].owned + [p]);
      AcquireGood(g, s, i, p, price, owned);
      AcquireTurn(g, s, i, p, price, owned);
      TurnGood(g, Acquire(g, s, i, p, price, owned),
               s.turn.(pending := None, phase := if s.turn.streak > 0 then PreRoll else s.turn.phase));
    }
  }

  lemma UseCardGood(g: Config, s: State, i: Seat)
    requires ValidConfig(g) && Good(g, s) && i < |s.players|
    ensures UseCard(g, s, i).Ok? ==> Good(g, UseCard(g, s, i).s)
  {
    hide ValidConfig, DeckKept, Assets;
    JailOnBoard(g);
    AppendKeepsDeck(g, s.chanceDeck, g.chanceDeck, CHANCE_JAIL_CARD, 1);
    assert AppendCards(s.chanceDeck, CHANCE_JAIL_CARD, 0) == s.chanceDeck;
    assert AppendCards(s.chanceDeck, CHANCE_JAIL_CARD, 1) == s.chanceDeck + [CHANCE_JAIL_CARD];
  }

  lemma TurnHandlersGood(g: Config, s: State, i: Seat, cmd: Command, env: Env)
    requires Good(g, s) && i < |s.players|
    ensures Pass(s, i, env).Ok? ==> Good(g, Pass(s, i, env).s)
    ensures PayFine(g, s, i).Ok? ==> Good(g, PayFine(g, s, i).s)
    ensures cmd.ProposeTrade? && Propose(s, i, cmd.target, cmd.offer, cmd.request, env).Ok?
            ==> Good(g, OpenTrade(s, i, cmd.target, cmd.offer, cmd.request, env))
  {
    hide DeckKept, Assets, CheckPositions;
    if Pass(s, i, env).Ok? {
      GoodFrame(g, s, Pass(s, i, env).s);
    }
    if PayFine(g, s, i).Ok? {
      GoodFrame(g, s, PayFine(g, s, i).s);
    }
    if cmd.ProposeTrade? && Propose(s, i, cmd.target, cmd.offer, cmd.request, env).Ok? {
      GoodFrame(g, s, OpenTrade(s, i, cmd.target, cmd.offer, cmd.request, env));
    }
  }

  lemma EndGood(g: Config, s: State, i: Seat)
    requires Good(g, s)
    requires forall k :: 0 <= k < |Survivors(s)| ==> Survivors(s)[k] < |s.players|
    ensures End(s, i).Ok? ==> Good(g, End(s, i).s)
  {
    hide DeckKept, ActiveSeats;
    if End(s, i).Ok? {
      TurnGood(g, s, End(s, i).s.turn);
    }
  }

  lemma AcquireTurn(g: Config, s: State, who: Seat, p: int, price: int, owned: seq<int>)
    requires who < |s.players|
    ensures Acquire(g, s, who, p, price, owned).turn == s.turn
    ensures |Acquire(g, s, who, p, price, owned).players| == |s.players|
  {}

  lemma BuildersGood(g: Config, s: State, cmd: Command, env: Env)
    requires ValidConfig(g) && Good(g, s) && !IsSystem(cmd) && !IsOpen(cmd) && cmd.player == s.turn.current
    requires cmd.BuildHouse? || cmd.SellHouse? || cmd.Mortgage? || cmd.Unmortgage?
    ensures Dispatch(g, s, cmd, env).Ok? ==> Good(g, Dispatch(g, s, cmd, env).s)
  {
    hide ValidConfig, Good, Rework, HasMonopoly;
    CurrentInRange(g, s);
    var i := s.turn.current;
    var p := cmd.position;
    var t := TileAt(s.tiles, p);
    var space := SpaceAt(g, p);
    if Dispatch(g, s, cmd, env).Ok? {
      match cmd
      case BuildHouse(_, _) =>
        ReworkGood(g, s, i, p, t.(houses := 0, hasHotel := true), -space.houseCost);
        ReworkGood(g, s, i, p, t.(houses := t.houses + 1), -space.houseCost);
        BankCountersGood(g, Rework(g, s, i, p, t.(houses := 0, hasHotel := true), -space.houseCost), s.bankHouses + 4, s.bankHotels - 1);
        BankCountersGood(g, Rework(g, s, i, p, t.(houses := t.houses + 1), -space.houseCost), s.bankHouses - 1, s.bankHotels);
        ReworkBank(g, s, i, p, t.(houses := t.houses + 1), -space.houseCost);
      case SellHouse(_, _) =>
        var credit := space.houseCost / 2;
        ReworkGood(g, s, i, p, t.(houses := 4, hasHotel := false), credit);
        ReworkGood(g, s, i, p, t.(houses := t.houses - 1), credit);
        BankCountersGood(g, Rework(g, s, i, p, t.(houses := 4, hasHotel := false), credit), s.bankHouses - 4, s.bankHotels + 1);
        BankCountersGood(g, Rework(g, s, i, p, t.(houses := t.houses - 1), credit), s.bankHouses + 1, s.bankHotels);
        ReworkBank(g, s, i, p, t.(houses := t.houses - 1), credit);
      case Mortgage(_, _) => ReworkGood(g, s, i, p, t.(mortgaged := true), space.mortgageValue);
      case Unmortgage(_, _) => ReworkGood(g, s, i, p, t.(mortgaged := false), -space.unmortgageCost);
    }
  }

  lemma ReworkBank(g: Config, s: State, who: Seat, p: int, t: Tile, gain: int)
    requires who < |s.players|
    ensures Rework(g, s, who, p, t, gain).bankHouses == s.bankHouses
    ensures Rework(g, s, who, p, t, gain).bankHotels == s.bankHotels
  {}

  lemma DispatchGood(g: Config, s: State, cmd: Command, env: Env)
    requires ValidConfig(g) && Good(g, s) && !IsSystem(cmd) && !IsOpen(cmd) && cmd.player == s.turn.current
    ensures Dispatch(g, s, cmd, env).Ok? ==> Good(g, Dispatch(g, s, cmd, env).s)
  {
    hide ValidConfig, Good;
    CurrentInRange(g, s);
    match cmd
    case RollDice(_) => RollGood(g, s, env);
    case BuildHouse(_, _) => BuildersGood(g, s, cmd, env);
    case SellHouse(_, _) => BuildersGood(g, s, cmd, env);
    case Mortgage(_, _) => BuildersGood(g, s, cmd, env);
    case Unmortgage(_, _) => BuildersGood(g, s, cmd, env);
    case DeclareBankruptcy(_) => if s.bankruptcy.Some? { BankruptcyGood(g, s); }
    case Surrender(_) => SurrenderGood(g, s, s.turn.current);
    case BuyProperty(_, p) => BuyGood(g, s, s.turn.current, p);
    case UseJailCard(_) => UseCardGood(g, s, s.turn.current);
    case EndTurn(_) => SurvivorsInRange(s.players, |s.players|); EndGood(g, s, s.turn.current);
    case _ => TurnHandlersGood(g, s, s.turn.current, cmd, env);
  }

  /** The handlers of the two commands that may come from any player. */
  function DispatchOpen(g: Config, s: State, cmd: Command, env: Env): Outcome
    requires Good(g, s) && IsOpen(cmd)
  {
    match cmd
    case RespondTrade(i, id, response, counter) => Respond(g, s, i, id, response, counter, env)
    case PlaceBid(i, amount) => Bidding(s, i, amount)
  }

  lemma DispatchOpenGood(g: Config, s: State, cmd: Command, env: Env)
    requires Good(g, s) && IsOpen(cmd)
    ensures DispatchOpen(g, s, cmd, env).Ok? ==> Good(g, DispatchOpen(g, s, cmd, env).s)
  {
    hide DeckKept, Exchange, CheckPositions;
    var r := DispatchOpen(g, s, cmd, env);
    if r.Ok? {
      if cmd.RespondTrade? && cmd.response == Accept {
        ExchangeGood(g, s, s.trade.value);
      } else {
        GoodFrame(g, s, r.s);
      }
    }
  }

  // ---------------------------------------------------------------- after the handler

  /** `_reset_actor_strikes`. */
  function ResetStrikes(s: State, i: Seat): (r: State)
    ensures |r.players| == |s.players| && r.turn == s.turn
  {
    if i < |s.players| && s.players[i].strikes != 0 then WithPlayer(s, i, s.players[i].(strikes := 0)) else s
  }

  /** `_clear_active_card`. */
  function ClearCard(before: State, s: State, cmd: Command): State {
    if before.activeCard.Some? && !cmd.AdvanceAuction? && !cmd.ExpireTrade? then s.(activeCard := None) else s
  }

  /** Fresh deadline, fresh actions. */
  function Stamp(g: Config, s: State, now: int): State
    requires s.turn.current < |s.players|
  {
    WithActions(g, WithDeadline(g, s, now))
  }

  /** What `apply` does after the handler of a system command or of a command of the current player. */
  function Wrap(g: Config, before: State, s: State, cmd: Command, now: int): State
    requires GoodRefs(g, s)
  {
    Stamp(g, CheckWin(TrySettleDebt(g, ClearCard(before, s, cmd))), now)
  }

  lemma ResetGood(g: Config, s: State, i: Seat)
    requires Good(g, s)
    ensures Good(g, ResetStrikes(s, i))
  {
    hide DeckKept;
    GoodFrame(g, s, ResetStrikes(s, i));
  }

  lemma StampGood(g: Config, s: State, now: int)
    requires Good(g, s)
    ensures Good(g, Stamp(g, s, now))
  {
    hide DeckKept, ComputeActions;
    TurnGood(g, s, Stamp(g, s, now).turn);
  }

  lemma SettleGood(g: Config, s: State)
    requires Good(g, s)
    ensures Good(g, TrySettleDebt(g, s))
  {
    hide DeckKept, Assets;
    GoodFrame(g, s, TrySettleDebt(g, s));
  }

  lemma WrapGood(g: Config, before: State, s: State, cmd: Command, now: int)
    requires Good(g, s)
    ensures Good(g, Wrap(g, before, s, cmd, now))
  {
    hide TrySettleDebt, CheckWin, Stamp, DeckKept;
    var s1 := ClearCard(before, s, cmd);
    GoodFrame(g, s, s1);
    SettleGood(g, s1);
    CheckWinGood(g, TrySettleDebt(g, s1));
    StampGood(g, CheckWin(TrySettleDebt(g, s1)), now);
  }

  lemma GoodImpliesRefs(g: Config, s: State)
    requires Good(g, s)
    ensures GoodRefs(g, s)
  {}

  // ---------------------------------------------------------------- apply

  /** `apply`. */
  function Apply(g: Config, s: State, cmd: Command, env: Env): (r: Outcome)
    requires ValidConfig(g) && Good(g, s)
    ensures r.Ok? ==> Good(g, r.s)
  {
    if IsSystem(cmd) then
      SystemGood(g, s, cmd, env);
      var (s1, events) := HandleSystem(g, s, cmd, env);
      WrapGood(g, s, s1, cmd, env.now);
      Ok(Wrap(g, s, s1, cmd, env.now), events)
    else if IsOpen(cmd) then
      DispatchOpenGood(g, s, cmd, env);
      match DispatchOpen(g, s, cmd, env)
      case Ok(s1, events) =>
        ResetGood(g, s1, cmd.player);
        CurrentInRange(g, ResetStrikes(s1, cmd.player));
        StampGood(g, ResetStrikes(s1, cmd.player), env.now);
        Ok(Stamp(g, ResetStrikes(s1, cmd.player), env.now), events)
      case failure => failure
    else if cmd.player != s.turn.current then IllegalMove
    else
      DispatchGood(g, s, cmd, env);
      match Dispatch(g, s, cmd, env)
      case Ok(s1, events) =>
        ResetGood(g, s1, cmd.player);
        GoodImpliesRefs(g, ResetStrikes(s1, cmd.player));
        WrapGood(g, s, ResetStrikes(s1, cmd.player), cmd, env.now);
        Ok(Wrap(g, s, ResetStrikes(s1, cmd.player), cmd, env.now), events)
      case failure => failure
  }
}
