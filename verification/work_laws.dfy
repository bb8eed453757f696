/** Building, selling and mortgaging as commands: when the engine accepts them, all that they do, and how far they go. */
module WorkLaws {
  import opened GameTypes
  import opened Seqs
  import opened Soundness
  import opened Worth
  import opened Payments
  import opened PropertyRules
  import opened Elimination
  import opened Handlers
  import opened Engine
  import opened Invariants
  import opened Rotation
  import opened Timers
  import opened Offers
  import opened RentLaws
  import opened WorthLaws

  // ---------------------------------------------------------------- when they are accepted

  /** How high a square is built, a hotel standing on the fifth storey. */
  function Storeys(t: Tile): int {
    t.houses + if t.hasHotel then 5 else 0
  }

  predicate SameColor(g: Config, p: int, q: int) {
    SpaceAt(g, q).color == SpaceAt(g, p).color
  }

  /** The phases in which a player may build and mortgage. */
  predicate MayWork(s: State) {
    s.turn.phase == PreRoll || s.turn.phase == PostRoll || s.turn.phase == Bankrupting
  }

  /** A house or hotel is accepted exactly on a street of a colour that all belongs to the player, unmortgaged, where it is
      no higher built than any other, while the bank has the piece - a hotel on four houses, a house below - and the player
      the cost. */
  lemma BuildAccepted(g: Config, s: State, p: int, env: Env)
    requires ValidConfig(g) && Inv(g, s)
    ensures Good(g, s) && s.turn.current < |s.players|
    ensures var i := s.turn.current;
            var t := TileAt(s.tiles, p);
            Apply(g, s, BuildHouse(i, p), env).Ok?
            <==> MayWork(s) && OnBoard(g, p) && SpaceAt(g, p).kind == Property && SpaceAt(g, p).color.Some? && !t.hasHotel
                 && (forall q | 1 <= q <= |g.board| && SameColor(g, p, q) ::
                       TileAt(s.tiles, q).owner == Some(i) && !TileAt(s.tiles, q).mortgaged && Storeys(t) <= Storeys(TileAt(s.tiles, q)))
                 && (if t.houses == 4 then s.bankHotels > 0 else s.bankHouses > 0)
                 && s.players[i].balance >= SpaceAt(g, p).houseCost
  {
    hide ValidConfig, Good, Inv, Apply, BuildHouseOn;
    InvStreets(g, s);
    CurrentInRange(g, s);
    AcceptsHandler(g, s, BuildHouse(s.turn.current, p), env);
    if OnBoard(g, p) {
      Leveled(g, s, p);
      SameColors(g, p);
    }
  }

  lemma InvStreets(g: Config, s: State)
    requires Inv(g, s)
    ensures Good(g, s) && Streets(g, s.tiles) && Owns(s) && WorthFresh(g, s) && |s.tiles| == |g.board|
    ensures s.bankruptcy.None? && !s.finished ==> s.turn.phase != Bankrupting
  {
    hide DeckKept, Inventory, Roster;
    assert Phases(g, s);
  }

  lemma Leveled(g: Config, s: State, p: int)
    requires Streets(g, s.tiles) && OnBoard(g, p)
    ensures forall q {:trigger TileAt(s.tiles, q)} :: OnBoard(g, q) ==> Level(TileAt(s.tiles, q)) == Storeys(TileAt(s.tiles, q))
    ensures 0 <= TileAt(s.tiles, p).houses <= 4 && (TileAt(s.tiles, p).hasHotel ==> TileAt(s.tiles, p).houses == 0)
  {
    assert TileOk(g, p, TileAt(s.tiles, p));
    forall q {:trigger TileAt(s.tiles, q)} | OnBoard(g, q) ensures Level(TileAt(s.tiles, q)) == Storeys(TileAt(s.tiles, q)) {
      assert TileOk(g, q, TileAt(s.tiles, q));
    }
  }

  lemma SameColors(g: Config, p: int)
    ensures forall q {:trigger SameGroup(g, p, q)} {:trigger SameColor(g, p, q)} ::
              SameGroup(g, p, q) <==> SpaceAt(g, p).color.Some? && SameColor(g, p, q)
  {}

  /** A sale is accepted exactly on a built street of the player's that is no lower than any other of its colour. */
  lemma SaleAccepted(g: Config, s: State, p: int, env: Env)
    requires ValidConfig(g) && Inv(g, s)
    ensures Good(g, s) && s.turn.current < |s.players|
    ensures var i := s.turn.current;
            var t := TileAt(s.tiles, p);
            Apply(g, s, SellHouse(i, p), env).Ok?
            <==> MayWork(s) && OnBoard(g, p) && SpaceAt(g, p).kind == Property && SpaceAt(g, p).color.Some?
                 && t.owner == Some(i) && Storeys(t) > 0
                 && (forall q | 1 <= q <= |g.board| && SameColor(g, p, q) :: Storeys(TileAt(s.tiles, q)) <= Storeys(t))
  {
    hide ValidConfig, Good, Inv, Apply, SellHouseOn;
    InvStreets(g, s);
    CurrentInRange(g, s);
    AcceptsHandler(g, s, SellHouse(s.turn.current, p), env);
    if OnBoard(g, p) {
      Leveled(g, s, p);
      SameColors(g, p);
    }
  }

  /** A mortgage is accepted exactly on an unmortgaged, unbuilt square of the player's none of whose colour is built on. */
  lemma MortgageAccepted(g: Config, s: State, p: int, env: Env)
    requires ValidConfig(g) && Inv(g, s)
    ensures Good(g, s) && s.turn.current < |s.players|
    ensures var i := s.turn.current;
            var t := TileAt(s.tiles, p);
            Apply(g, s, Mortgage(i, p), env).Ok?
            <==> MayWork(s) && OnBoard(g, p) && t.owner == Some(i) && !t.mortgaged && Storeys(t) == 0
                 && (SpaceAt(g, p).color.Some? ==>
                       forall q | 1 <= q <= |g.board| && SameColor(g, p, q) :: Storeys(TileAt(s.tiles, q)) == 0)
  {
    hide Good, Inv, Apply, MortgageOn;
    InvStreets(g, s);
    CurrentInRange(g, s);
    AcceptsHandler(g, s, Mortgage(s.turn.current, p), env);
    if OnBoard(g, p) {
      Leveled(g, s, p);
      SameColors(g, p);
      UnbuiltTiles(g, s);
      assert TileOk(g, p, TileAt(s.tiles, p));
      assert SpaceOk(g, p);
    }
    hide ValidConfig;
  }

  lemma UnbuiltTiles(g: Config, s: State)
    requires Streets(g, s.tiles)
    ensures forall q {:trigger TileAt(s.tiles, q)} :: OnBoard(g, q) ==>
              (Storeys(TileAt(s.tiles, q)) == 0 <==> !(TileAt(s.tiles, q).houses > 0 || TileAt(s.tiles, q).hasHotel))
  {
    forall q {:trigger TileAt(s.tiles, q)} | OnBoard(g, q)
      ensures Storeys(TileAt(s.tiles, q)) == 0 <==> !(TileAt(s.tiles, q).houses > 0 || TileAt(s.tiles, q).hasHotel)
    {
      assert TileOk(g, q, TileAt(s.tiles, q));
    }
  }

  /** A mortgage is lifted exactly on a mortgaged square of the player's, for the cost at hand. */
  lemma UnmortgageAccepted(g: Config, s: State, p: int, env: Env)
    requires ValidConfig(g) && Inv(g, s)
    ensures Good(g, s) && s.turn.current < |s.players|
    ensures var i := s.turn.current;
            Apply(g, s, Unmortgage(i, p), env).Ok?
            <==> MayWork(s) && OnBoard(g, p) && TileAt(s.tiles, p).owner == Some(i) && TileAt(s.tiles, p).mortgaged
                 && s.players[i].balance >= SpaceAt(g, p).unmortgageCost
  {
    hide ValidConfig, Good, Inv, Apply, UnmortgageOn;
    InvStreets(g, s);
    CurrentInRange(g, s);
    AcceptsHandler(g, s, Unmortgage(s.turn.current, p), env);
  }

  // ---------------------------------------------------------------- what they do

  /** Outside a debt the command leaves square `p` as `t`, pays the player `gain` - which may be negative - and raises the
      player's net worth by `rise`; the bank has `houses` and `hotels`; the player has no strikes, and nothing else differs but
      stamps and the card on display. */
  ghost predicate Worked(s: State, s': State, p: int, t: Tile, gain: int, rise: int, houses: int, hotels: int)
    requires s.turn.current < |s.players|
  {
    var i := s.turn.current;
    var player := s.players[i];
    && |s'.tiles| == |s.tiles| && TileAt(s'.tiles, p) == t && (forall q :: q != p ==> TileAt(s'.tiles, q) == TileAt(s.tiles, q))
    && s'.players == s.players[i := player.(balance := player.balance + gain, netWorth := player.netWorth + rise, strikes := 0)]
    && s' == s.(tiles := s'.tiles, players := s'.players, bankHouses := houses, bankHotels := hotels, activeCard := s'.activeCard,
                turn := s.turn.(deadline := s'.turn.deadline, actions := s'.turn.actions))
  }

  lemma ReworkDone(g: Config, s: State, p: int, t: Tile, gain: int, houses: int, hotels: int)
    requires Owns(s) && WorthFresh(g, s) && s.turn.current < |s.players| && 1 <= p <= |s.tiles|
    requires TileAt(s.tiles, p).owner == Some(s.turn.current) && t.owner == Some(s.turn.current)
    ensures var s1 := Rework(g, s, s.turn.current, p, t, gain).(bankHouses := houses, bankHotels := hotels);
            var i := s.turn.current;
            var player := s.players[i];
            && s1 == s.(tiles := SetTile(s.tiles, p, t), players := s1.players, bankHouses := houses, bankHotels := hotels)
            && s1.players == s.players[i := player.(balance := player.balance + gain,
                 netWorth := player.netWorth + gain + TileWorth(g, s1.tiles, p) - TileWorth(g, s.tiles, p))]
  {
    hide Assets, TileWorth;
    var i := s.turn.current;
    var tiles := SetTile(s.tiles, p, t);
    forall j: Seat | j < |s.players|
      ensures Assets(g, tiles, s.players[j].owned)
              == Assets(g, s.tiles, s.players[j].owned) + if j == i then TileWorth(g, tiles, p) - TileWorth(g, s.tiles, p) else 0
    {
      assert p in s.players[j].owned <==> HeldBy(s.tiles, j, p);
      AssetsChange(g, s.tiles, tiles, s.players[j].owned, p);
    }
  }

  /** The end of an accepted work command outside a debt. */
  lemma WorkApplied(g: Config, s: State, cmd: Command, env: Env, t: Tile, gain: int, rise: int, houses: int, hotels: int)
    requires ValidConfig(g) && Inv(g, s) && Good(g, s) && s.bankruptcy.None? && s.turn.current < |s.players|
    requires (cmd.BuildHouse? || cmd.SellHouse? || cmd.Mortgage? || cmd.Unmortgage?) && cmd.player == s.turn.current
    requires Apply(g, s, cmd, env).Ok? && OnBoard(g, cmd.position) && |s.tiles| == |g.board|
    requires TileAt(s.tiles, cmd.position).owner == Some(s.turn.current) && t.owner == Some(s.turn.current) && Owns(s) && WorthFresh(g, s)
    requires Dispatch(g, s, cmd, env).Ok? ==>
               Dispatch(g, s, cmd, env).s == Rework(g, s, s.turn.current, cmd.position, t, gain).(bankHouses := houses, bankHotels := hotels)
    requires rise == gain + TileWorth(g, SetTile(s.tiles, cmd.position, t), cmd.position) - TileWorth(g, s.tiles, cmd.position)
    ensures Worked(s, Apply(g, s, cmd, env).s, cmd.position, t, gain, rise, houses, hotels)
  {
    hide ValidConfig, Good, Inv, Apply, Dispatch, Rework, TileWorth;
    AcceptsHandler(g, s, cmd, env);
    ReworkDone(g, s, cmd.position, t, gain, houses, hotels);
    TurnApplied(g, s, cmd, env);
  }

  /** Building adds a storey, a hotel in place of four houses; it costs the price of a house, which the net worth keeps. */
  lemma Built(g: Config, s: State, p: int, env: Env)
    requires ValidConfig(g) && Inv(g, s) && s.bankruptcy.None? && s.turn.current < |s.players|
    requires Apply(g, s, BuildHouse(s.turn.current, p), env).Ok?
    ensures var t := TileAt(s.tiles, p);
            Worked(s, Apply(g, s, BuildHouse(s.turn.current, p), env).s, p,
                   if t.houses == 4 then t.(houses := 0, hasHotel := true) else t.(houses := t.houses + 1),
                   -SpaceAt(g, p).houseCost, 0,
                   if t.houses == 4 then s.bankHouses + 4 else s.bankHouses - 1, if t.houses == 4 then s.bankHotels - 1 else s.bankHotels)
  {
    hide ValidConfig, Good, Inv, Apply, HasMonopoly, Rework;
    InvStreets(g, s);
    var cmd := BuildHouse(s.turn.current, p);
    AcceptsHandler(g, s, cmd, env);
    Leveled(g, s, p);
    var t := TileAt(s.tiles, p);
    var t' := if t.houses == 4 then t.(houses := 0, hasHotel := true) else t.(houses := t.houses + 1);
    ReworkBank(g, s, s.turn.current, p, t', -SpaceAt(g, p).houseCost);
    NextStorey(g, s.tiles, p, t');
    WorkApplied(g, s, cmd, env, t', -SpaceAt(g, p).houseCost, 0,
                if t.houses == 4 then s.bankHouses + 4 else s.bankHouses - 1, if t.houses == 4 then s.bankHotels - 1 else s.bankHotels);
  }

  /** A storey more is worth the price of a house more, and one less so much less. */
  lemma NextStorey(g: Config, tiles: seq<Tile>, p: int, t: Tile)
    requires 1 <= p <= |tiles| && !TileAt(tiles, p).mortgaged && !t.mortgaged
    requires var u := TileAt(tiles, p); (u.hasHotel ==> u.houses == 0) && (t.hasHotel ==> t.houses == 0)
    ensures TileWorth(g, SetTile(tiles, p, t), p)
            == TileWorth(g, tiles, p) + SpaceAt(g, p).houseCost * (Storeys(t) - Storeys(TileAt(tiles, p)))
  {
    var c := SpaceAt(g, p).houseCost;
    assert c * (Storeys(t) - Storeys(TileAt(tiles, p))) == c * Storeys(t) - c * Storeys(TileAt(tiles, p));
  }

  /** A sale takes a storey off, a hotel for four houses; it pays half the price of a house, and the net worth falls by the
      rest. */
  lemma Sold(g: Config, s: State, p: int, env: Env)
    requires ValidConfig(g) && Inv(g, s) && s.bankruptcy.None? && s.turn.current < |s.players|
    requires Apply(g, s, SellHouse(s.turn.current, p), env).Ok?
    ensures var t := TileAt(s.tiles, p);
            var cost := SpaceAt(g, p).houseCost;
            Worked(s, Apply(g, s, SellHouse(s.turn.current, p), env).s, p,
                   if t.hasHotel then t.(houses := 4, hasHotel := false) else t.(houses := t.houses - 1),
                   cost / 2, cost / 2 - cost,
                   if t.hasHotel then s.bankHouses - 4 else s.bankHouses + 1, if t.hasHotel then s.bankHotels + 1 else s.bankHotels)
  {
    hide ValidConfig, Good, Inv, Apply, Rework;
    InvStreets(g, s);
    var cmd := SellHouse(s.turn.current, p);
    AcceptsHandler(g, s, cmd, env);
    Leveled(g, s, p);
    BuiltUnmortgaged(g, s, p);
    var t := TileAt(s.tiles, p);
    var cost := SpaceAt(g, p).houseCost;
    var t' := if t.hasHotel then t.(houses := 4, hasHotel := false) else t.(houses := t.houses - 1);
    ReworkBank(g, s, s.turn.current, p, t', cost / 2);
    NextStorey(g, s.tiles, p, t');
    WorkApplied(g, s, cmd, env, t', cost / 2, cost / 2 - cost,
                if t.hasHotel then s.bankHouses - 4 else s.bankHouses + 1, if t.hasHotel then s.bankHotels + 1 else s.bankHotels);
  }

  lemma BuiltUnmortgaged(g: Config, s: State, p: int)
    requires Streets(g, s.tiles) && OnBoard(g, p) && SpaceAt(g, p).color.Some? && (TileAt(s.tiles, p).houses != 0 || TileAt(s.tiles, p).hasHotel)
    ensures !TileAt(s.tiles, p).mortgaged
  {
    assert SameGroup(g, p, p);
    assert TileOk(g, p, TileAt(s.tiles, p));
    assert Even(TileAt(s.tiles, p), TileAt(s.tiles, p));
  }

  /** A mortgage pays the mortgage value, for which the net worth gives up the printed price. */
  lemma Pledged(g: Config, s: State, p: int, env: Env)
    requires ValidConfig(g) && Inv(g, s) && s.bankruptcy.None? && s.turn.current < |s.players|
    requires Apply(g, s, Mortgage(s.turn.current, p), env).Ok?
    ensures SpaceAt(g, p).price.Some?
    ensures var space := SpaceAt(g, p);
            Worked(s, Apply(g, s, Mortgage(s.turn.current, p), env).s, p, TileAt(s.tiles, p).(mortgaged := true),
                   space.mortgageValue, space.mortgageValue - space.price.value, s.bankHouses, s.bankHotels)
  {
    hide Good, Inv, Apply, Rework;
    InvStreets(g, s);
    var cmd := Mortgage(s.turn.current, p);
    AcceptsHandler(g, s, cmd, env);
    Leveled(g, s, p);
    assert SpaceOk(g, p);
    hide ValidConfig;
    var t := TileAt(s.tiles, p).(mortgaged := true);
    var value := SpaceAt(g, p).mortgageValue;
    ReworkBank(g, s, s.turn.current, p, t, value);
    WorkApplied(g, s, cmd, env, t, value, value - SpaceAt(g, p).price.value, s.bankHouses, s.bankHotels);
  }

  /** Lifting a mortgage costs what the square says, for which the net worth gets the printed price back. */
  lemma Redeemed(g: Config, s: State, p: int, env: Env)
    requires ValidConfig(g) && Inv(g, s) && s.bankruptcy.None? && s.turn.current < |s.players|
    requires Apply(g, s, Unmortgage(s.turn.current, p), env).Ok?
    ensures SpaceAt(g, p).price.Some?
    ensures var space := SpaceAt(g, p);
            Worked(s, Apply(g, s, Unmortgage(s.turn.current, p), env).s, p, TileAt(s.tiles, p).(mortgaged := false),
                   -space.unmortgageCost, space.price.value - space.unmortgageCost, s.bankHouses, s.bankHotels)
  {
    hide Good, Inv, Apply, Rework;
    InvStreets(g, s);
    var cmd := Unmortgage(s.turn.current, p);
    AcceptsHandler(g, s, cmd, env);
    Leveled(g, s, p);
    assert SpaceOk(g, p);
    assert TileOk(g, p, TileAt(s.tiles, p));
    MortgagedUnbuilt(g, s, p);
    hide ValidConfig;
    var t := TileAt(s.tiles, p).(mortgaged := false);
    var cost := SpaceAt(g, p).unmortgageCost;
    ReworkBank(g, s, s.turn.current, p, t, -cost);
    WorkApplied(g, s, cmd, env, t, -cost, SpaceAt(g, p).price.value - cost, s.bankHouses, s.bankHotels);
  }

  lemma MortgagedUnbuilt(g: Config, s: State, p: int)
    requires Streets(g, s.tiles) && OnBoard(g, p) && TileAt(s.tiles, p).mortgaged
    ensures TileAt(s.tiles, p).houses == 0 && !TileAt(s.tiles, p).hasHotel
  {
    assert TileOk(g, p, TileAt(s.tiles, p));
    if SpaceAt(g, p).color.Some? {
      assert SameGroup(g, p, p);
      assert Even(TileAt(s.tiles, p), TileAt(s.tiles, p));
    }
  }

  // ---------------------------------------------------------------- worth and rent from one command to the next

  /** A purchase at the printed price leaves the buyer's net worth, and everybody else's, as it was. */
  lemma PurchaseKeepsWorth(g: Config, s: State, p: int, env: Env)
    requires ValidConfig(g) && Inv(g, s) && Apply(g, s, BuyProperty(s.turn.current, p), env).Ok?
    ensures var s' := Apply(g, s, BuyProperty(s.turn.current, p), env).s;
            |s'.players| == |s.players| && forall j :: 0 <= j < |s.players| ==> s'.players[j].netWorth == s.players[j].netWorth
  {
    hide ValidConfig, Good, Inv, Apply, Dispatch, Acquire, Sorted;
    InvStreets(g, s);
    CurrentInRange(g, s);
    var i := s.turn.current;
    var cmd := BuyProperty(i, p);
    AcceptsHandler(g, s, cmd, env);
    BuyWorth(g, s, p, env);
    TurnApplied(g, s, cmd, env);
  }

  lemma BuyWorth(g: Config, s: State, p: int, env: Env)
    requires ValidConfig(g) && Inv(g, s) && Good(g, s) && s.turn.current < |s.players|
    requires Dispatch(g, s, BuyProperty(s.turn.current, p), env).Ok?
    ensures var s1 := Dispatch(g, s, BuyProperty(s.turn.current, p), env).s;
            && s1.bankruptcy.None? && |s1.players| == |s.players|
            && (forall j :: 0 <= j < |s.players| ==> s1.players[j].netWorth == s.players[j].netWorth)
  {
    hide ValidConfig, DeckKept, Assets, Sorted, TileWorth, Streets, Inventory, Roster;
    var i := s.turn.current;
    assert Phases(g, s);
    BareSale(g, s, p);
    var tiles := SetTile(s.tiles, p, TileAt(s.tiles, p).(owner := Some(i)));
    var owned := s.players[i].owned;
    assert p !in owned by { HeldByOne(s, p); }
    AssetsChange(g, s.tiles, tiles, owned, p);
    assert (owned + [p])[..|owned|] == owned;
    SortedIdentity(owned);
    AssetsInsert(g, tiles, p, owned);
    assert Sorted(owned + [p]) == Insert(p, owned) by { SortedStep(owned, p); }
  }

  lemma SortedStep(owned: seq<int>, p: int)
    requires StrictlySorted(owned)
    ensures Sorted(owned + [p]) == Insert(p, owned)
  {
    assert (owned + [p])[..|owned|] == owned;
    SortedIdentity(owned);
  }

  /** The square on offer is worth its price to whoever takes it. */
  lemma BareSale(g: Config, s: State, p: int)
    requires Inv(g, s) && s.turn.pending == Some(p) && (s.turn.phase == PostRoll || s.turn.phase == MustPayRent)
    ensures OnBoard(g, p) && |s.tiles| == |g.board| && TileAt(s.tiles, p) == BARE
    ensures forall i: Seat, price: int :: SpaceAt(g, p).price == Some(price) ==>
              TileWorth(g, SetTile(s.tiles, p, BARE.(owner := Some(i))), p) == price
  {
    hide DeckKept, Owns, Inventory, WorthFresh, Roster;
    assert Phases(g, s);
    assert TileOk(g, p, TileAt(s.tiles, p));
  }

  /** Mortgaging one street of a bare, complete group halves the doubled rent of every other street of it, at multiplier 1,
      and ends its own. */
  lemma MortgageEndsDoubleRent(g: Config, s: State, p: int, q: int, dice: int, env: Env)
    requires ValidConfig(g) && Inv(g, s) && s.bankruptcy.None? && s.turn.current < |s.players|
    requires Apply(g, s, Mortgage(s.turn.current, p), env).Ok? && OnBoard(g, q) && q != p && SameColor(g, p, q)
    requires SpaceAt(g, q).kind == Property && SpaceAt(g, q).color.Some? && SpaceAt(g, q).rent.Some?
    requires forall r :: OnBoard(g, r) && SameColor(g, p, r) ==>
               TileAt(s.tiles, r).owner == Some(s.turn.current) && !TileAt(s.tiles, r).mortgaged
    ensures var s' := Apply(g, s, Mortgage(s.turn.current, p), env).s;
            var base := SpaceAt(g, q).rent.value.base;
            && CalculateRent(g, s.tiles, q, dice, 1) == 2 * base && CalculateRent(g, s'.tiles, q, dice, 1) == base
            && CalculateRent(g, s'.tiles, p, dice, 1) == 0
  {
    hide ValidConfig, Good, Inv, Apply, CalculateRent;
    InvStreets(g, s);
    var s' := Apply(g, s, Mortgage(s.turn.current, p), env).s;
    MortgageAccepted(g, s, p, env);
    Pledged(g, s, p, env);
    Leveled(g, s, q);
    assert TileOk(g, q, TileAt(s.tiles, q));
    StreetRent(g, s.tiles, q, dice, 1);
    StreetRent(g, s'.tiles, q, dice, 1);
    assert TileAt(s'.tiles, p).mortgaged && SpaceAt(g, p).color == SpaceAt(g, q).color;
    PledgedRent(g, s'.tiles, p, dice);
  }

  lemma PledgedRent(g: Config, tiles: seq<Tile>, p: int, dice: int)
    requires TileAt(tiles, p).mortgaged
    ensures CalculateRent(g, tiles, p, dice, 1) == 0
  {}

  // ---------------------------------------------------------------- working off a debt

  /** What a debtor raises by a sale or a mortgage. */
  function Raised(g: Config, cmd: Command): int {
    match cmd
    case SellHouse(_, p) => SpaceAt(g, p).houseCost / 2
    case Mortgage(_, p) => SpaceAt(g, p).mortgageValue
    case BuildHouse(_, p) => -SpaceAt(g, p).houseCost
    case Unmortgage(_, p) => -SpaceAt(g, p).unmortgageCost
    case _ => 0
  }

  /** A debtor who sells or mortgages pays the debt at once if the cash then suffices - all of it, to whom it is owed, and the
      turn goes on after the roll - and otherwise keeps the cash and the debt. */
  lemma DebtWorkedOff(g: Config, s: State, cmd: Command, env: Env)
    requires ValidConfig(g) && Inv(g, s) && s.bankruptcy.Some? && Apply(g, s, cmd, env).Ok?
    requires cmd.BuildHouse? || cmd.SellHouse? || cmd.Mortgage? || cmd.Unmortgage?
    ensures var s' := Apply(g, s, cmd, env).s;
            var debt := s.bankruptcy.value;
            && debt.debtor < |s.players| == |s'.players|
            && var cash := s.players[debt.debtor].balance + Raised(g, cmd);
               if cash >= debt.owed then
                 && s'.bankruptcy.None? && s'.turn.phase == PostRoll
                 && (forall j :: 0 <= j < |s.players| ==>
                       s'.players[j].balance == if j == debt.debtor then cash - debt.owed
                                                else if debt.creditor == Some(j) then s.players[j].balance + debt.owed
                                                else s.players[j].balance)
               else
                 && s'.bankruptcy == s.bankruptcy && s'.turn.phase == Bankrupting
                 && (forall j :: 0 <= j < |s.players| ==>
                       s'.players[j].balance == if j == debt.debtor then cash else s.players[j].balance)
  {
    hide ValidConfig, Good, Inv, Dispatch, Wrap, ResetStrikes, HandleSystem, DispatchOpen;
    InvGood(g, s);
    CurrentInRange(g, s);
    DebtorActs(g, s);
    DispatchGood(g, s, cmd, env);
    var s1 := Dispatch(g, s, cmd, env).s;
    var s2 := ResetStrikes(s1, cmd.player);
    WorkKeepsDebt(g, s, cmd, env);
    ResetGood(g, s1, cmd.player);
    ResetKeepsDebt(s1, cmd.player);
    GoodImpliesRefs(g, s2);
    WrapSettles(g, s, s2, cmd, env.now);
  }

  lemma DebtorActs(g: Config, s: State)
    requires Inv(g, s) && s.bankruptcy.Some? && s.turn.current < |s.players|
    ensures s.bankruptcy.value.debtor == s.turn.current && s.turn.phase == Bankrupting && !s.finished && |Survivors(s)| >= 2
  {
    hide DeckKept, ActiveSeats, Streets, Owns, Inventory, WorthFresh;
    assert Phases(g, s);
  }

  lemma WorkKeepsDebt(g: Config, s: State, cmd: Command, env: Env)
    requires ValidConfig(g) && Good(g, s) && !IsSystem(cmd) && !IsOpen(cmd) && cmd.player == s.turn.current
    requires (cmd.BuildHouse? || cmd.SellHouse? || cmd.Mortgage? || cmd.Unmortgage?) && Dispatch(g, s, cmd, env).Ok?
    ensures var s1 := Dispatch(g, s, cmd, env).s;
            && |s1.players| == |s.players| && s1.bankruptcy == s.bankruptcy && s1.turn == s.turn && s1.finished == s.finished
            && (forall j :: 0 <= j < |s.players| ==>
                  s1.players[j].balance == s.players[j].balance + (if j == s.turn.current then Raised(g, cmd) else 0)
                  && s1.players[j].bankrupt == s.players[j].bankrupt)
  {
    hide ValidConfig, Good, HasMonopoly, Rework;
    CurrentInRange(g, s);
    var p := cmd.position;
    var t := TileAt(s.tiles, p);
    match cmd
    case BuildHouse(_, _) =>
      ReworkKeepsDebt(g, s, p, t.(houses := 0, hasHotel := true), Raised(g, cmd));
      ReworkKeepsDebt(g, s, p, t.(houses := t.houses + 1), Raised(g, cmd));
    case SellHouse(_, _) =>
      ReworkKeepsDebt(g, s, p, t.(houses := 4, hasHotel := false), Raised(g, cmd));
      ReworkKeepsDebt(g, s, p, t.(houses := t.houses - 1), Raised(g, cmd));
    case Mortgage(_, _) => ReworkKeepsDebt(g, s, p, t.(mortgaged := true), Raised(g, cmd));
    case Unmortgage(_, _) => ReworkKeepsDebt(g, s, p, t.(mortgaged := false), Raised(g, cmd));
  }

  lemma ReworkKeepsDebt(g: Config, s: State, p: int, t: Tile, gain: int)
    requires s.turn.current < |s.players|
    ensures var s1 := Rework(g, s, s.turn.current, p, t, gain);
            && |s1.players| == |s.players| && s1.bankruptcy == s.bankruptcy && s1.turn == s.turn && s1.finished == s.finished
            && (forall j :: 0 <= j < |s.players| ==>
                  s1.players[j].balance == s.players[j].balance + (if j == s.turn.current then gain else 0)
                  && s1.players[j].bankrupt == s.players[j].bankrupt)
  {
    hide Assets;
  }

  lemma ResetKeepsDebt(s: State, i: Seat)
    ensures var r := ResetStrikes(s, i);
            && |r.players| == |s.players| && r.bankruptcy == s.bankruptcy && r.turn == s.turn && r.finished == s.finished
            && (forall j :: 0 <= j < |s.players| ==>
                  r.players[j].balance == s.players[j].balance && r.players[j].bankrupt == s.players[j].bankrupt)
  {}

  /** An open debt that can be paid is paid in full, and the turn goes on after the roll; otherwise it stays. */
  ghost predicate DebtSettled(s: State, s': State)
    requires s.bankruptcy.Some? && s.bankruptcy.value.debtor < |s.players|
  {
    var debt := s.bankruptcy.value;
    && |s'.players| == |s.players|
    && (if s.players[debt.debtor].balance >= debt.owed then
          && s'.bankruptcy.None? && s'.turn.phase == PostRoll
          && (forall j :: 0 <= j < |s.players| ==>
                s'.players[j].balance == s.players[j].balance + (if j == debt.debtor then -debt.owed
                                                                 else if debt.creditor == Some(j) then debt.owed else 0))
        else s'.bankruptcy == s.bankruptcy && s'.turn.phase == s.turn.phase
             && (forall j :: 0 <= j < |s.players| ==> s'.players[j].balance == s.players[j].balance))
  }

  lemma DebtSettles(g: Config, s: State)
    requires GoodRefs(g, s) && s.bankruptcy.Some?
    ensures DebtSettled(s, TrySettleDebt(g, s)) && TrySettleDebt(g, s).finished == s.finished
  {
    hide Assets;
  }

  lemma WrapSettles(g: Config, before: State, s: State, cmd: Command, now: int)
    requires GoodRefs(g, s) && s.bankruptcy.Some? && !s.finished
    requires |before.players| == |s.players| && |Survivors(before)| >= 2
    requires forall j :: 0 <= j < |s.players| ==> s.players[j].bankrupt == before.players[j].bankrupt
    ensures DebtSettled(s, Wrap(g, before, s, cmd, now))
  {
    hide ActiveSeats, ComputeActions, TrySettleDebt;
    var s0 := ClearCard(before, s, cmd);
    var s1 := TrySettleDebt(g, s0);
    DebtSettles(g, s0);
    SettledSeats(g, s0);
    ActiveFrame(before.players, s1.players, |s.players|);
  }

  lemma SettledSeats(g: Config, s: State)
    requires GoodRefs(g, s)
    ensures var r := TrySettleDebt(g, s);
            |r.players| == |s.players| && forall j :: 0 <= j < |s.players| ==> r.players[j].bankrupt == s.players[j].bankrupt
  {
    hide Assets;
  }
}
