/** Every handler keeps the property invariants and the cached net worths. */
module StepProperty {
  import opened GameTypes
  import opened Seqs
  import opened Soundness
  import opened Worth
  import opened Payments
  import opened Landing
  import opened LandingLaws
  import opened LandingMoney
  import opened LandingChain
  import opened PropertyRules
  import opened Elimination
  import opened Handlers
  import opened Engine
  import opened Invariants
  import opened PropertyLaws
  import opened ExchangeLaws
  import opened SurrenderLaws

  /** The invariants about property: who owns what, the streets, the building supply, net worths. */
  ghost predicate Core(g: Config, s: State) {
    Owns(s) && Streets(g, s.tiles) && Inventory(s) && WorthFresh(g, s)
  }

  lemma CoreParts(g: Config, s: State)
    requires Core(g, s)
    ensures Owns(s) && Streets(g, s.tiles) && |s.tiles| == |g.board| && WorthFresh(g, s)
  {}

  // ---------------------------------------------------------------- frames

  lemma CoreFrame(g: Config, a: State, b: State)
    requires Core(g, a) && SameProperty(a, b) && WorthFresh(g, b)
    ensures Core(g, b)
  {
    OwnsFrame(a, b);
  }

  /** Changing one player without touching what is owned, with the net worth kept up to date. */
  lemma CorePlayer(g: Config, s: State, i: Seat, p: Player)
    requires Core(g, s) && i < |s.players| && p.owned == s.players[i].owned
    requires p.netWorth == NetWorth(g, s.tiles, p)
    ensures Core(g, WithPlayer(s, i, p))
  {
    hide Assets, Streets, Inventory, Owns;
    CoreFrame(g, s, WithPlayer(s, i, p));
  }

  lemma CoreSame(g: Config, a: State, b: State)
    requires Core(g, a)
    requires a.players == b.players && a.tiles == b.tiles && a.bankHouses == b.bankHouses && a.bankHotels == b.bankHotels
    ensures Core(g, b)
  {
    hide Assets, Streets, Inventory;
    OwnsFrame(a, b);
    assert Inventory(b) by { InventorySame(a, b); }
  }

  lemma InventorySame(a: State, b: State)
    requires Inventory(a) && a.tiles == b.tiles && a.bankHouses == b.bankHouses && a.bankHotels == b.bankHotels
    ensures Inventory(b)
  {}

  // ---------------------------------------------------------------- acquiring

  /** A purchase or an award changes the worth of the buyer only. */
  lemma AcquireFresh(g: Config, s: State, who: Seat, p: int, price: int, owned: seq<int>)
    requires Owns(s) && WorthFresh(g, s) && who < |s.players|
    requires 1 <= p <= |s.tiles| && TileAt(s.tiles, p).owner.None?
    ensures WorthFresh(g, Acquire(g, s, who, p, price, owned))
  {
    hide Assets;
    var s' := Acquire(g, s, who, p, price, owned);
    forall i: Seat | i < |s.players| && i != who
      ensures Assets(g, s'.tiles, s'.players[i].owned) == Assets(g, s.tiles, s.players[i].owned)
    {
      forall k | 0 <= k < |s.players[i].owned| ensures TileAt(s'.tiles, s.players[i].owned[k]) == TileAt(s.tiles, s.players[i].owned[k]) {
        assert s.players[i].owned[k] in s.players[i].owned;
        assert HeldBy(s.tiles, i, s.players[i].owned[k]);
      }
      AssetsFrame(g, s'.tiles, s.tiles, s.players[i].owned);
    }
  }

  lemma AcquireCore(g: Config, s: State, who: Seat, p: int, price: int, owned: seq<int>)
    requires Core(g, s) && who < |s.players| && ForSale(g, s, p)
    requires StrictlySorted(owned)
    requires forall y :: y in owned <==> y == p || y in s.players[who].owned
    ensures Core(g, Acquire(g, s, who, p, price, owned))
  {
    hide Assets, Sum, Owns, WorthFresh, StrictlySorted;
    assert 1 <= p <= |s.tiles| by { StreetsSize(g, s.tiles); }
    AcquireOwns(g, s, who, p, price, owned);
    AcquireStreets(g, s.tiles, p, who);
    AcquireFresh(g, s, who, p, price, owned);
    SetTileCounts(s.tiles, p, TileAt(s.tiles, p).(owner := Some(who)));
  }

  lemma StreetsSize(g: Config, tiles: seq<Tile>)
    requires Streets(g, tiles)
    ensures |tiles| == |g.board|
  {}

  lemma BuyCore(g: Config, s: State, i: Seat, p: int)
    requires Core(g, s) && i < |s.players| && OnBoard(g, p)
    ensures Buy(g, s, i, p).Ok? ==> Core(g, Buy(g, s, i, p).s)
  {
    hide Core, Sorted, StrictlySorted, Acquire;
    if Buy(g, s, i, p).Ok? {
      var price := SpaceAt(g, p).price.value;
      var owned := Sorted(s.players[i].owned + [p]);
      BoughtList(g, s, i, p);
      AcquireCore(g, s, i, p, price, owned);
      CoreSame(g, Acquire(g, s, i, p, price, owned), Buy(g, s, i, p).s);
    }
  }

  lemma BoughtList(g: Config, s: State, i: Seat, p: int)
    requires Core(g, s) && i < |s.players| && OnBoard(g, p) && TileAt(s.tiles, p).owner.None?
    ensures var owned := Sorted(s.players[i].owned + [p]);
            StrictlySorted(owned) && forall y :: y in owned <==> y == p || y in s.players[i].owned
    ensures var owned := SortedSet(s.players[i].owned + [p]);
            StrictlySorted(owned) && forall y :: y in owned <==> y == p || y in s.players[i].owned
  {
    hide Sorted, SortedSet, Streets, Inventory, WorthFresh;
    assert p in s.players[i].owned <==> HeldBy(s.tiles, i, p);
    SortedAppend(s.players[i].owned, p);
    SortedSetIsSet(s.players[i].owned + [p]);
  }

  lemma RefreshCore(g: Config, s: State)
    requires Core(g, s)
    ensures Core(g, Refresh(g, s))
  {
    hide Assets, Streets, Inventory, Owns;
    CoreFrame(g, s, Refresh(g, s));
  }

  lemma AuctionCore(g: Config, s: State)
    requires Good(g, s) && Core(g, s)
    requires s.auction.Some? ==> ForSale(g, s, s.auction.value.position)
    ensures Core(g, ResolveAuction(g, s))
  {
    hide Core, SortedSet, StrictlySorted, Acquire, DeckKept;
    if s.auction.Some? {
      var a := s.auction.value;
      if a.leader.Some? {
        BoughtList(g, s, a.leader.value, a.position);
        AcquireCore(g, s, a.leader.value, a.position, a.highest, SortedSet(s.players[a.leader.value].owned + [a.position]));
        var s1 := Acquire(g, s, a.leader.value, a.position, a.highest, SortedSet(s.players[a.leader.value].owned + [a.position]));
        RefreshCore(g, s1);
        CoreSame(g, Refresh(g, s1), ResolveAuction(g, s));
      } else {
        RefreshCore(g, s);
        CoreSame(g, Refresh(g, s), ResolveAuction(g, s));
      }
    }
  }

  // ---------------------------------------------------------------- building

  lemma WorkedFresh(g: Config, s: State, who: Seat, p: int, t: Tile, gain: int)
    requires who < |s.players|
    ensures WorthFresh(g, Rework(g, s, who, p, t, gain))
  {
    hide Assets;
  }

  lemma BuildersCore(g: Config, s: State, cmd: Command, env: Env)
    requires ValidConfig(g) && Good(g, s) && Core(g, s) && !IsSystem(cmd) && !IsOpen(cmd) && cmd.player == s.turn.current
    requires cmd.BuildHouse? || cmd.SellHouse? || cmd.Mortgage? || cmd.Unmortgage?
    ensures Dispatch(g, s, cmd, env).Ok? ==> Core(g, Dispatch(g, s, cmd, env).s)
    ensures Dispatch(g, s, cmd, env).Ok? ==>
              AllHouses(Dispatch(g, s, cmd, env).s) == AllHouses(s) && AllHotels(Dispatch(g, s, cmd, env).s) == AllHotels(s)
  {
    hide ValidConfig, Good, Streets, Owns, Sum, Assets, CanBuildOn, CanSellOn, CanMortgage, CanUnmortgage, AllHouses, AllHotels;
    CurrentInRange(g, s);
    var i := s.turn.current;
    var p := cmd.position;
    var t := TileAt(s.tiles, p);
    if Dispatch(g, s, cmd, env).Ok? {
      StreetsSize(g, s.tiles);
      match cmd
      case BuildHouse(_, _) =>
        BuildOne(g, s, i, p);
      case SellHouse(_, _) =>
        SellOne(g, s, i, p);
      case Mortgage(_, _) =>
        ReworkOwns(g, s, i, p, t.(mortgaged := true), SpaceAt(g, p).mortgageValue);
        MortgageStreets(g, s, i, p);
        MortgageInventory(g, s, i, p);
        WorkedFresh(g, s, i, p, t.(mortgaged := true), SpaceAt(g, p).mortgageValue);
      case Unmortgage(_, _) =>
        ReworkOwns(g, s, i, p, t.(mortgaged := false), -SpaceAt(g, p).unmortgageCost);
        UnmortgageStreets(g, s, i, p);
        MortgageInventory(g, s, i, p);
        WorkedFresh(g, s, i, p, t.(mortgaged := false), -SpaceAt(g, p).unmortgageCost);
    }
  }

  lemma BuildOne(g: Config, s: State, i: Seat, p: int)
    requires Core(g, s) && i < |s.players| && OnBoard(g, p) && CanBuildOn(g, s, i, p)
    ensures Core(g, BuildHouseOn(g, s, i, p))
    ensures AllHouses(BuildHouseOn(g, s, i, p)) == AllHouses(s) && AllHotels(BuildHouseOn(g, s, i, p)) == AllHotels(s)
  {
    hide Streets, AllHouses, AllHotels, Assets, CanBuildOn;
    var t := TileAt(s.tiles, p);
    var cost := SpaceAt(g, p).houseCost;
    var t' := if t.houses == 4 then t.(houses := 0, hasHotel := true) else t.(houses := t.houses + 1);
    ReworkOwns(g, s, i, p, t', -cost);
    BuildStreets(g, s, i, p);
    BuildInventory(g, s, i, p);
    WorkedFresh(g, s, i, p, t', -cost);
  }

  lemma SellOne(g: Config, s: State, i: Seat, p: int)
    requires Core(g, s) && i < |s.players| && OnBoard(g, p) && CanSellOn(g, s, i, p)
    ensures Core(g, SellHouseOn(g, s, i, p))
    ensures AllHouses(SellHouseOn(g, s, i, p)) == AllHouses(s) && AllHotels(SellHouseOn(g, s, i, p)) == AllHotels(s)
  {
    hide Streets, AllHouses, AllHotels, Assets, CanSellOn;
    var t := TileAt(s.tiles, p);
    var credit := SpaceAt(g, p).houseCost / 2;
    var t' := if t.hasHotel then t.(houses := 4, hasHotel := false) else t.(houses := t.houses - 1);
    ReworkOwns(g, s, i, p, t', credit);
    SellStreets(g, s, i, p);
    SellInventory(g, s, i, p);
    WorkedFresh(g, s, i, p, t', credit);
  }

  // ---------------------------------------------------------------- trade, bankruptcy, surrender

  lemma ExchangeCore(g: Config, s: State, t: Trade)
    requires Core(g, s) && TradeValid(s, t)
    ensures Core(g, Exchange(g, s, t))
  {
    hide Streets, Owns, AllHouses, AllHotels, Assets, ValidateOffer, SortedSet, Without, Reassign;
    ExchangeOwns(g, s, t);
    ExchangeStreets(g, s, t);
  }

  lemma EstateCore(g: Config, s: State)
    requires Good(g, s) && Core(g, s) && s.bankruptcy.Some?
    ensures Core(g, SettleEstate(g, s))
  {
    hide Good, Streets, Owns, AllHouses, AllHotels, WorthFresh, SettleEstate;
    EstateOwns(g, s);
    EstateStreets(g, s);
    EstateInventory(g, s);
    EstateShape(g, s);
  }

  lemma LeaveCore(g: Config, s: State, who: Seat)
    requires Core(g, s) && who < |s.players|
    ensures Core(g, LeaveTable(g, s, who))
  {
    hide Streets, Owns, AllHouses, AllHotels, WorthFresh, LeaveTable;
    LeaveOwns(g, s, who);
    LeaveStreets(g, s, who);
    LeaveInventory(g, s, who);
    LeaveShape(g, s, who);
  }

  lemma AdvanceCore(g: Config, s: State, from: Seat)
    requires Core(g, s) && from < |s.players|
    ensures Core(g, AdvanceOff(s, from))
  {
    hide Core, NextOffset;
    CoreSame(g, s, AdvanceOff(s, from));
  }

  lemma CheckWinCore(g: Config, s: State)
    requires Core(g, s)
    ensures Core(g, CheckWin(s))
  {
    hide Core, ActiveSeats;
    CoreSame(g, s, CheckWin(s));
  }

  lemma SurrenderCore(g: Config, s: State, who: Seat)
    requires Core(g, s) && who < |s.players|
    ensures Core(g, ResolveSurrender(g, s, who))
  {
    hide Core, LeaveTable, CheckWin, AdvanceOff;
    if !s.players[who].bankrupt {
      LeaveCore(g, s, who);
      LeaveSize(g, s, who);
      CheckWinCore(g, LeaveTable(g, s, who));
      AdvanceCore(g, CheckWin(LeaveTable(g, s, who)), who);
    }
  }

  lemma BankruptcyCore(g: Config, s: State)
    requires Good(g, s) && Core(g, s) && s.bankruptcy.Some?
    ensures Core(g, ResolveBankruptcy(g, s))
  {
    hide Core, SettleEstate, CheckWin, AdvanceOff, DeckKept;
    EstateCore(g, s);
    EstateShape(g, s);
    CheckWinCore(g, SettleEstate(g, s));
    AdvanceCore(g, CheckWin(SettleEstate(g, s)), s.bankruptcy.value.debtor);
  }

  lemma TimeoutCore(g: Config, s: State, now: int)
    requires Core(g, s) && s.turn.current < |s.players|
    ensures Core(g, Timeout(g, s, now).0)
  {
    hide Core, ResolveSurrender, AdvanceOff, Assets;
    if TurnExpired(s, now) {
      var i := s.turn.current;
      var p := s.players[i].(strikes := s.players[i].strikes + 1);
      StrikesCore(g, s, i, s.players[i].strikes + 1);
      SurrenderCore(g, WithPlayer(s, i, p), i);
      AdvanceCore(g, WithPlayer(s, i, p), i);
    }
  }

  lemma StrikesCore(g: Config, s: State, i: Seat, strikes: int)
    requires Core(g, s) && i < |s.players|
    ensures Core(g, WithPlayer(s, i, s.players[i].(strikes := strikes)))
  {
    hide Assets, Streets, Inventory, Owns;
    CorePlayer(g, s, i, s.players[i].(strikes := strikes));
  }
}
