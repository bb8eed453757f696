/** Every handler keeps phase and sub-state, auction, trade and roster in step. */
module StepTable {
  import opened GameTypes
  import opened Seqs
  import opened Soundness
  import opened Worth
  import opened Payments
  import opened LandingLaws
  import opened PropertyRules
  import opened Elimination
  import opened Handlers
  import opened Engine
  import opened Rotation
  import opened Invariants
  import opened ExchangeLaws
  import opened SurrenderLaws
  import opened StepRoll

  /** The invariants that are not about property. */
  ghost predicate Table(g: Config, s: State) {
    s.turn.current < |s.players| && Phases(g, s) && AuctionOk(s) && TradeOk(s) && Roster(s)
  }

  // ---------------------------------------------------------------- frames

  /** Nothing the roster records differs, apart from strikes and jail cards that stay in range. */
  ghost predicate SameRecords(a: State, b: State) {
    && |a.players| == |b.players|
    && (forall i :: 0 <= i < |a.players| ==>
          b.players[i].bankrupt == a.players[i].bankrupt && b.players[i].eliminatedAt == a.players[i].eliminatedAt
          && 0 <= b.players[i].strikes && (!b.players[i].bankrupt ==> b.players[i].strikes < MAX_AFK_STRIKES)
          && b.players[i].jailCards >= 0)
  }

  lemma RosterFrame(a: State, b: State)
    requires Roster(a) && SameRecords(a, b)
    requires b.finished == a.finished && b.winner == a.winner
    requires if a.finished then b.turn.number == a.turn.number else b.turn.number >= a.turn.number
    ensures Roster(b)
  {
    hide ActiveSeats;
    ActiveFrame(a.players, b.players, |a.players|);
    forall i | 0 <= i < |b.players| ensures RecordOk(b.players[i], b.turn.number, b.finished) {
      assert RecordOk(a.players[i], a.turn.number, a.finished);
    }
  }

  lemma SamePlayersRecords(a: State, b: State)
    requires Roster(a) && a.players == b.players
    ensures SameRecords(a, b)
  {
    hide ActiveSeats;
    forall i | 0 <= i < |a.players| ensures RecordOk(a.players[i], a.turn.number, a.finished) {}
  }

  lemma OnePlayerRecords(a: State, i: Seat, p: Player)
    requires Roster(a) && i < |a.players|
    requires p.bankrupt == a.players[i].bankrupt && p.eliminatedAt == a.players[i].eliminatedAt
    requires 0 <= p.strikes && (!p.bankrupt ==> p.strikes < MAX_AFK_STRIKES) && p.jailCards >= 0
    ensures SameRecords(a, WithPlayer(a, i, p))
  {
    hide ActiveSeats;
    forall j | 0 <= j < |a.players| ensures RecordOk(a.players[j], a.turn.number, a.finished) {}
  }

  lemma RecordAt(s: State, i: Seat)
    requires Roster(s) && i < |s.players|
    ensures RecordOk(s.players[i], s.turn.number, s.finished)
  {}

  // ---------------------------------------------------------------- commands of the turn

  lemma RollTable(g: Config, s: State, env: Env)
    requires ValidConfig(g) && Good(g, s) && Table(g, s) && Roll(g, s, s.turn.current, env).Ok?
    ensures Table(g, Roll(g, s, s.turn.current, env).s)
  {
    hide ValidConfig, DeckKept, Roll, ActiveSeats, RollTouches, Rolled;
    var i := s.turn.current;
    RollCases(g, s, i, env);
    assert Live(g, s);
    RollShape(g, s, i, env);
    RolledTable(g, s, Roll(g, s, i, env).s, i);
  }

  lemma RolledTable(g: Config, s: State, s': State, i: Seat)
    requires Table(g, s) && Live(g, s) && !s.finished && i == s.turn.current && |s'.players| == |s.players|
    requires s.turn.phase == PreRoll || s.turn.phase == JailDecision
    requires RollTouches(s, s', i) && Rolled(g, s', i)
    ensures Table(g, s')
  {
    hide ActiveSeats, Roster;
    RollRecords(s, s', i);
    RosterFrame(s, s');
  }

  lemma RollRecords(a: State, b: State, i: Seat)
    requires i < |a.players| && RollTouches(a, b, i) && Roster(a)
    ensures SameRecords(a, b)
  {
    hide ActiveSeats;
    forall j | 0 <= j < |a.players| ensures RecordOk(a.players[j], a.turn.number, a.finished) {}
  }

  lemma BuyTable(g: Config, s: State, p: int)
    requires Good(g, s) && Table(g, s) && Buy(g, s, s.turn.current, p).Ok?
    ensures Table(g, Buy(g, s, s.turn.current, p).s)
  {
    hide DeckKept, ActiveSeats, Sorted, Assets;
    var i := s.turn.current;
    assert Live(g, s);
    var s' := Buy(g, s, i, p).s;
    RecordAt(s, i);
    OnePlayerRecords(s, i, s'.players[i]);
    RosterFrame(s, s');
  }

  lemma PassTable(g: Config, s: State, env: Env)
    requires Good(g, s) && Table(g, s) && Handlers.Pass(s, s.turn.current, env).Ok?
    ensures Table(g, Handlers.Pass(s, s.turn.current, env).s)
  {
    hide DeckKept, ActiveSeats;
    assert Live(g, s);
    var s' := Handlers.Pass(s, s.turn.current, env).s;
    SamePlayersRecords(s, s');
    RosterFrame(s, s');
  }

  /** Handing the turn to an active player from a state without sub-protocols. */
  lemma HandOver(g: Config, s: State, from: Seat)
    requires from < |s.players| && Roster(s) && !s.finished && s.turn.deadline.Some?
    requires s.auction.None? && s.trade.None? && s.bankruptcy.None?
    ensures Table(g, AdvanceOff(s, from))
  {
    hide ActiveSeats, AdvanceOff;
    SuccessorActive(s, from);
    var s' := AdvanceOff(s, from);
    SamePlayersRecords(s, s');
    RosterFrame(s, s');
  }

  lemma EndTable(g: Config, s: State)
    requires Good(g, s) && Table(g, s)
    requires forall k :: 0 <= k < |Survivors(s)| ==> Survivors(s)[k] < |s.players|
    requires End(s, s.turn.current).Ok?
    ensures Table(g, End(s, s.turn.current).s)
  {
    hide DeckKept, ActiveSeats, AdvanceOff, Table;
    assert Live(g, s) && !s.finished && Roster(s) && s.turn.deadline.Some? by { EndLive(g, s); }
    assert s.auction.None? && s.trade.None? && s.bankruptcy.None?;
    SameSuccessor(s, s.turn.current);
    HandOver(g, s, s.turn.current);
  }

  lemma EndLive(g: Config, s: State)
    requires Good(g, s) && Table(g, s)
    requires s.turn.phase != GameOver
    ensures Live(g, s) && !s.finished && Roster(s) && s.turn.deadline.Some?
  {}

  lemma JailTable(g: Config, s: State)
    requires Good(g, s) && Table(g, s)
    ensures PayFine(g, s, s.turn.current).Ok? ==> Table(g, PayFine(g, s, s.turn.current).s)
    ensures UseCard(g, s, s.turn.current).Ok? ==> Table(g, UseCard(g, s, s.turn.current).s)
  {
    hide DeckKept, ActiveSeats, Assets;
    var i := s.turn.current;
    RecordAt(s, i);
    if PayFine(g, s, i).Ok? {
      var s' := PayFine(g, s, i).s;
      OnePlayerRecords(s, i, s'.players[i]);
      RosterFrame(s, s');
    }
    if UseCard(g, s, i).Ok? {
      var s' := UseCard(g, s, i).s;
      OnePlayerRecords(s, i, s'.players[i]);
      RosterFrame(s, s');
    }
  }

  /** Building and mortgages change one tile of the current player and nobody's record. */
  lemma ReworkTable(g: Config, s: State, p: int, t: Tile, gain: int, houses: int, hotels: int)
    requires Good(g, s) && Table(g, s) && IsBuildPhase(s.turn.phase) && OnBoard(g, p)
    requires TileAt(s.tiles, p).owner == Some(s.turn.current) && t.owner == Some(s.turn.current)
    ensures Table(g, Rework(g, s, s.turn.current, p, t, gain).(bankHouses := houses, bankHotels := hotels))
  {
    hide DeckKept, ActiveSeats, Assets, SameRecords;
    assert Live(g, s);
    var s' := Rework(g, s, s.turn.current, p, t, gain).(bankHouses := houses, bankHotels := hotels);
    ReworkRecords(g, s, p, t, gain, houses, hotels);
    RosterFrame(s, s');
  }

  lemma ReworkRecords(g: Config, s: State, p: int, t: Tile, gain: int, houses: int, hotels: int)
    requires Roster(s) && s.turn.current < |s.players|
    ensures SameRecords(s, Rework(g, s, s.turn.current, p, t, gain).(bankHouses := houses, bankHotels := hotels))
  {
    hide ActiveSeats, Assets;
    SamePlayersRecords(s, s);
  }

  lemma BuildersTable(g: Config, s: State, cmd: Command, env: Env)
    requires ValidConfig(g) && Good(g, s) && Table(g, s) && !IsSystem(cmd) && !IsOpen(cmd) && cmd.player == s.turn.current
    requires cmd.BuildHouse? || cmd.SellHouse? || cmd.Mortgage? || cmd.Unmortgage?
    requires Dispatch(g, s, cmd, env).Ok?
    ensures Table(g, Dispatch(g, s, cmd, env).s)
  {
    hide ValidConfig, Good, Table, Rework, HasMonopoly;
    CurrentInRange(g, s);
    var i := s.turn.current;
    var p := cmd.position;
    var t := TileAt(s.tiles, p);
    var cost := SpaceAt(g, p).houseCost;
    match cmd
    case BuildHouse(_, _) =>
      ReworkBank(g, s, i, p, t.(houses := t.houses + 1), -cost);
      ReworkTable(g, s, p, t.(houses := 0, hasHotel := true), -cost, s.bankHouses + 4, s.bankHotels - 1);
      ReworkTable(g, s, p, t.(houses := t.houses + 1), -cost, s.bankHouses - 1, s.bankHotels);
    case SellHouse(_, _) =>
      ReworkBank(g, s, i, p, t.(houses := t.houses - 1), cost / 2);
      ReworkTable(g, s, p, t.(houses := 4, hasHotel := false), cost / 2, s.bankHouses - 4, s.bankHotels + 1);
      ReworkTable(g, s, p, t.(houses := t.houses - 1), cost / 2, s.bankHouses + 1, s.bankHotels);
    case Mortgage(_, _) =>
      ReworkBank(g, s, i, p, t.(mortgaged := true), SpaceAt(g, p).mortgageValue);
      ReworkTable(g, s, p, t.(mortgaged := true), SpaceAt(g, p).mortgageValue, s.bankHouses, s.bankHotels);
    case Unmortgage(_, _) =>
      ReworkBank(g, s, i, p, t.(mortgaged := false), -SpaceAt(g, p).unmortgageCost);
      ReworkTable(g, s, p, t.(mortgaged := false), -SpaceAt(g, p).unmortgageCost, s.bankHouses, s.bankHotels);
  }

  // ---------------------------------------------------------------- trade and auction

  lemma ProposeTable(g: Config, s: State, target: Seat, offer: TradeOffer, request: TradeOffer, env: Env)
    requires Good(g, s) && Table(g, s) && Propose(s, s.turn.current, target, offer, request, env).Ok?
    requires Orderly(s, ProposeTrade(s.turn.current, target, offer, request))
    ensures Table(g, OpenTrade(s, s.turn.current, target, offer, request, env))
  {
    hide DeckKept, ActiveSeats, CheckPositions;
    assert Live(g, s);
    var s' := OpenTrade(s, s.turn.current, target, offer, request, env);
    SamePlayersRecords(s, s');
    RosterFrame(s, s');
  }

  lemma CloseTable(g: Config, s: State)
    requires Good(g, s) && Table(g, s) && s.trade.Some?
    ensures Table(g, CloseTrade(s))
  {
    hide DeckKept, ActiveSeats;
    assert Live(g, s);
    SamePlayersRecords(s, CloseTrade(s));
    RosterFrame(s, CloseTrade(s));
  }

  lemma ExchangeTable(g: Config, s: State)
    requires Good(g, s) && Table(g, s) && s.trade.Some? && TradeValid(s, s.trade.value)
    ensures Table(g, Exchange(g, s, s.trade.value))
  {
    hide DeckKept, ActiveSeats, SortedSet, Without, Assets, CheckPositions;
    var t := s.trade.value;
    var s' := Exchange(g, s, t);
    assert Live(g, s);
    OfferFacts(s, t.proposer, t.offer);
    OfferFacts(s, t.target, t.request);
    ExchangeRecords(g, s, t);
    RosterFrame(s, s');
    if s.turn.pending.Some? {
      var p := s.turn.pending.value;
      assert ForSale(g, s, p);
      ExchangeTiles(s, t, p);
    }
  }

  lemma ExchangeRecords(g: Config, s: State, t: Trade)
    requires Roster(s) && TradeValid(s, t) && FairOffer(t.offer) && FairOffer(t.request)
    ensures SameRecords(s, Exchange(g, s, t))
  {
    hide ActiveSeats, SortedSet, Without, Assets, CheckPositions, Reassign;
    forall j | 0 <= j < |s.players| ensures RecordOk(s.players[j], s.turn.number, s.finished) {}
    OfferFacts(s, t.proposer, t.offer);
    OfferFacts(s, t.target, t.request);
  }

  lemma RespondTable(g: Config, s: State, cmd: Command, env: Env)
    requires Good(g, s) && Table(g, s) && cmd.RespondTrade? && Orderly(s, cmd)
    requires DispatchOpen(g, s, cmd, env).Ok?
    ensures Table(g, DispatchOpen(g, s, cmd, env).s)
  {
    hide DeckKept, ActiveSeats, Exchange, CheckPositions, Phases;
    var s' := DispatchOpen(g, s, cmd, env).s;
    match cmd.response
    case Reject => CloseTable(g, s);
    case Accept => ExchangeTable(g, s);
    case Counter =>
      SamePlayersRecords(s, s');
      RosterFrame(s, s');
      assert Phases(g, s') by { CounterPhases(g, s, s'); }
  }

  lemma CounterPhases(g: Config, s: State, s': State)
    requires Good(g, s) && Table(g, s) && s.trade.Some? && s'.trade.Some? && s' == s.(trade := s'.trade)
    requires s'.trade.value.proposer == s.trade.value.proposer
    ensures Phases(g, s')
  {}

  lemma BidTable(g: Config, s: State, cmd: Command, env: Env)
    requires Good(g, s) && Table(g, s) && cmd.PlaceBid? && DispatchOpen(g, s, cmd, env).Ok?
    ensures Table(g, DispatchOpen(g, s, cmd, env).s)
  {
    hide DeckKept, ActiveSeats;
    var s' := DispatchOpen(g, s, cmd, env).s;
    assert Live(g, s);
    SamePlayersRecords(s, s');
    RosterFrame(s, s');
  }

  lemma AuctionTable(g: Config, s: State)
    requires Good(g, s) && Table(g, s) && s.auction.Some?
    ensures Table(g, ResolveAuction(g, s))
  {
    hide DeckKept, ActiveSeats, SortedSet, Assets;
    assert Live(g, s);
    var s' := ResolveAuction(g, s);
    SamePlayersRecords(s, s);
    RosterFrame(s, s');
  }

  // ---------------------------------------------------------------- leaving the game

  /** The state in which `who` has just been eliminated, before the win check. */
  ghost predicate JustOut(s: State, mid: State, who: Seat) {
    && who < |s.players| == |mid.players|
    && !s.players[who].bankrupt && mid.players[who].bankrupt
    && mid.players[who].eliminatedAt == Some(s.turn.number)
    && mid.players[who].strikes >= 0 && mid.players[who].jailCards >= 0
    && (forall i :: 0 <= i < |s.players| && i != who ==>
          && mid.players[i].bankrupt == s.players[i].bankrupt && mid.players[i].eliminatedAt == s.players[i].eliminatedAt
          && mid.players[i].strikes == s.players[i].strikes && mid.players[i].jailCards >= 0)
    && mid.turn == s.turn && mid.finished == s.finished
    && mid.auction.None? && mid.trade.None? && mid.bankruptcy.None?
  }

  /** The roster after an elimination, once the turn number has moved on or the game is over. */
  lemma OutRoster(s: State, mid: State, final: State, who: Seat)
    requires Roster(s) && !s.finished && JustOut(s, mid, who)
    requires final.players == mid.players
    requires if final.finished then final.turn.number == s.turn.number && |Survivors(mid)| == 1 && final.winner == Some(Survivors(mid)[0])
             else final.turn.number == s.turn.number + 1 && |Survivors(mid)| != 1
    ensures Roster(final)
  {
    hide ActiveSeats;
    ActiveRemove(s.players, mid.players, who, |s.players|);
    forall i | 0 <= i < |s.players| ensures RecordOk(s.players[i], s.turn.number, s.finished) {}
  }

  lemma AfterElimination(g: Config, s: State, mid: State, who: Seat)
    requires Roster(s) && !s.finished && JustOut(s, mid, who) && s.turn.deadline.Some? && s.turn.current == who
    ensures var f := CheckWin(mid);
            Table(g, if f.finished then f else AdvanceOff(f, who))
  {
    hide ActiveSeats, AdvanceOff;
    ActiveRemove(s.players, mid.players, who, |s.players|);
    var f := CheckWin(mid);
    if f.finished {
      OutRoster(s, mid, f, who);
    } else {
      SuccessorActive(f, who);
      OutRoster(s, mid, AdvanceOff(f, who), who);
    }
  }

  lemma SurrenderTable(g: Config, s: State)
    requires Table(g, s) && !s.finished && s.auction.None? && s.trade.None? && s.bankruptcy.None?
    ensures Table(g, ResolveSurrender(g, s, s.turn.current))
  {
    hide ActiveSeats, AdvanceOff, CheckWin, LeaveTable, Table, Phases;
    TableLive(g, s);
    var who := s.turn.current;
    var mid := LeaveTable(g, s, who);
    LeaveShape(g, s, who);
    LeaveOut(g, s, who);
    AfterElimination(g, s, mid, who);
    CheckWinCurrent(mid);
  }

  lemma CheckWinCurrent(s: State)
    ensures CheckWin(s).turn.current == s.turn.current
  {}

  lemma TableLive(g: Config, s: State)
    requires Table(g, s) && !s.finished
    ensures s.turn.current < |s.players| && Live(g, s) && Roster(s) && s.turn.deadline.Some?
  {}

  lemma LeaveOut(g: Config, s: State, who: Seat)
    requires Roster(s) && who < |s.players| && !s.players[who].bankrupt
    requires s.auction.None? && s.trade.None? && s.bankruptcy.None?
    ensures JustOut(s, LeaveTable(g, s, who), who)
  {
    hide ActiveSeats, LeaveTable;
    LeaveShape(g, s, who);
    forall i | 0 <= i < |s.players| ensures RecordOk(s.players[i], s.turn.number, s.finished) {}
  }

  lemma BankruptcyTable(g: Config, s: State)
    requires Good(g, s) && Table(g, s) && s.bankruptcy.Some? && !s.finished
    ensures Table(g, ResolveBankruptcy(g, s))
  {
    hide DeckKept, ActiveSeats, AdvanceOff, CheckWin, SettleEstate;
    assert Live(g, s);
    var who := s.turn.current;
    var mid := SettleEstate(g, s);
    EstateShape(g, s);
    EstateOut(g, s);
    AfterElimination(g, s, mid, who);
  }

  lemma EstateOut(g: Config, s: State)
    requires Good(g, s) && Roster(s) && s.bankruptcy.Some? && !s.players[s.bankruptcy.value.debtor].bankrupt
    requires s.auction.None? && s.trade.None?
    ensures JustOut(s, SettleEstate(g, s), s.bankruptcy.value.debtor)
  {
    hide DeckKept, ActiveSeats, SettleEstate, SortedSet;
    EstateShape(g, s);
    forall i | 0 <= i < |s.players| ensures RecordOk(s.players[i], s.turn.number, s.finished) {}
    var s' := SettleEstate(g, s);
    forall i | 0 <= i < |s.players| && i != s.bankruptcy.value.debtor
      ensures s'.players[i].jailCards >= 0
    {
      assert Some(i) == s.bankruptcy.value.creditor || Some(i) != s.bankruptcy.value.creditor;
    }
  }

  /** A timeout adds a strike; the third one eliminates the player. */
  lemma TimeoutTable(g: Config, s: State, now: int)
    requires Good(g, s) && Table(g, s) && !s.finished
    ensures Table(g, Timeout(g, s, now).0)
  {
    hide DeckKept, ActiveSeats, AdvanceOff, ResolveSurrender, LeaveTable, CheckWin;
    if TurnExpired(s, now) {
      var i := s.turn.current;
      var strikes := s.players[i].strikes + 1;
      var s1 := WithPlayer(s, i, s.players[i].(strikes := strikes));
      assert Live(g, s);
      RecordAt(s, i);
      if strikes >= MAX_AFK_STRIKES {
        var mid := LeaveTable(g, s1, i);
        LeaveShape(g, s1, i);
        StruckOut(g, s, i, strikes);
        AfterElimination(g, s, mid, i);
        assert ResolveSurrender(g, s1, i) == (if CheckWin(mid).finished then CheckWin(mid) else AdvanceOff(CheckWin(mid), i)) by {
          SurrenderUnfold(g, s1, i);
        }
      } else {
        OnePlayerRecords(s, i, s.players[i].(strikes := strikes));
        RosterFrame(s, s1);
        HandOver(g, s1, i);
      }
    }
  }

  lemma SurrenderUnfold(g: Config, s: State, who: Seat)
    requires who < |s.players| && !s.players[who].bankrupt && s.turn.current == who
    ensures var f := CheckWin(LeaveTable(g, s, who));
            |f.players| == |s.players| && ResolveSurrender(g, s, who) == if f.finished then f else AdvanceOff(f, who)
  {
    hide ActiveSeats, LeaveTable;
    LeaveShape(g, s, who);
  }

  lemma StruckOut(g: Config, s: State, who: Seat, strikes: int)
    requires Roster(s) && who < |s.players| && !s.players[who].bankrupt && strikes >= 0
    requires s.auction.None? && s.trade.None? && s.bankruptcy.None?
    ensures JustOut(s, LeaveTable(g, WithPlayer(s, who, s.players[who].(strikes := strikes)), who), who)
  {
    hide ActiveSeats, LeaveTable;
    LeaveShape(g, WithPlayer(s, who, s.players[who].(strikes := strikes)), who);
    forall i | 0 <= i < |s.players| ensures RecordOk(s.players[i], s.turn.number, s.finished) {}
  }
}
