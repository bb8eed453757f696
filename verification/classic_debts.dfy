/** Classic games in debt: a debtor who is left alone, buildings lost to the bank, a hotel the bank cannot break up, and an
    heir overdrawn by interest. */
module ClassicDebts {
  import opened GameTypes
  import opened Seqs
  import opened Soundness
  import opened Worth
  import opened PropertyRules
  import opened Elimination
  import opened Handlers
  import opened Engine
  import opened Invariants
  import opened PropertyLaws
  import opened ExchangeLaws
  import opened StepProperty
  import opened StepRoll
  import opened StepTable
  import opened Steps
  import opened Setup
  import opened Timers
  import opened Foresight
  import opened Solvency
  import opened Decisions
  import opened Limits
  import opened Offers
  import opened Boards
  import opened ClassicGames

  // ---------------------------------------------------------------- a debt opened by a roll

  /** The first player is about to roll from GO on the classic board. */
  ghost predicate AtGo(g: Config, s: State) {
    && ValidConfig(g) && ClassicBoard(g) && Inv(g, s) && s.turn.current == 0 < |s.players| && s.turn.phase == PreRoll
    && s.players[0].position == 1 && s.players[0].jail.None?
  }

  lemma FirstSquares()
    ensures |NORMAL_BOARD| == 40 && NORMAL_BOARD[4] == TaxSquare(200)
    ensures NORMAL_BOARD[3] == Street(60, Brown, RentTable(4, 20, 60, 180, 320, 450), 50, 33)
    ensures NORMAL_BOARD[1] == Street(60, Brown, RentTable(2, 10, 30, 90, 160, 250), 50, 33)
    ensures NORMAL_BOARD[39] == Street(400, Blue, RentTable(50, 200, 600, 1400, 1700, 2000), 200, 221)
  {}

  /** Without doubles from GO the roller comes to rest on the square of the dice, with the balance as it is. */
  lemma PlainFate(g: Config, s: State, env: Env)
    requires AtGo(g, s) && !DiceOf(g, env).isDoubles && 3 <= DiceOf(g, env).die1 + DiceOf(g, env).die2 <= 4
    ensures Good(g, s)
    ensures var to := 1 + DiceOf(g, env).die1 + DiceOf(g, env).die2;
            && RollFate(g, s, 0, DiceOf(g, env)) == Fate(Square(1), to, s.players[0].balance)
            && !StaysPut(s, 0, DiceOf(g, env))
  {
    hide ValidConfig, Good, Inv, DeckKept, NORMAL_BOARD, ForetellCard;
    InvGood(g, s);
    FirstSquares();
    DecksOf(g, s);
  }

  lemma RollFromGo(g: Config, s: State, env: Env)
    requires AtGo(g, s) && !DiceOf(g, env).isDoubles && 3 <= DiceOf(g, env).die1 + DiceOf(g, env).die2 <= 4
    ensures Good(g, s) && Apply(g, s, RollDice(0), env).Ok?
    ensures var s' := Apply(g, s, RollDice(0), env).s;
            var total := DiceOf(g, env).die1 + DiceOf(g, env).die2;
            var f := Fate(Square(1), 1 + total, s.players[0].balance);
            && Inv(g, s') && |s'.players| == |s.players| && s'.turn.current == 0 && !s'.finished
            && s'.bankruptcy == DebtAfter(g, s, 0, total, f)
            && (forall j :: 0 <= j < |s.players| ==> s'.players[j].balance == BalanceAfter(g, s, 0, total, f, j))
            && SameProperty(s, s')
  {
    hide ValidConfig, Good, Inv, Roll, Apply, RollFate, Due, Gift, NORMAL_BOARD, SameProperty;
    InvGood(g, s);
    RollHandled(g, s, env);
    RollApplied(g, s, RollDice(0), env);
    StepInvariant(g, s, RollDice(0), env);
    RollForetold(g, s, 0, env);
    PlainFate(g, s, env);
    RollShape(g, s, 0, env);
    RollProperty(s, Roll(g, s, 0, env).s, 0);
    StampedProperty(s, Roll(g, s, 0, env).s, Apply(g, s, RollDice(0), env).s, 0);
  }

  lemma StampedProperty(s: State, s1: State, s': State, i: Seat)
    requires SameProperty(s, s1)
    requires var s2 := ResetStrikes(s1, i);
             s' == s2.(activeCard := s'.activeCard, turn := s'.turn)
    ensures SameProperty(s, s')
  {}

  // ---------------------------------------------------------------- a debtor left alone

  /** A roll of 1 and 3 from GO onto the first tax of 200. */
  lemma TaxRoll(g: Config, s: State, env: Env)
    requires AtGo(g, s) && env.die1 == 1 && env.die2 == 3
    ensures Good(g, s) && Apply(g, s, RollDice(0), env).Ok?
    ensures var s' := Apply(g, s, RollDice(0), env).s;
            && Inv(g, s') && SameProperty(s, s') && s'.turn.current == 0 && !s'.finished
            && s'.bankruptcy == if s.players[0].balance < 200 then Some(Bankruptcy(0, None, 200)) else None
  {
    hide ValidConfig, Good, Inv, Apply, NORMAL_BOARD, SameProperty, BalanceAfter;
    RollFromGo(g, s, env);
    FirstSquares();
  }

  /** A classic game whose first roll leaves a debt open if and only if the balance is less than 200; and no timer ever
      closes it. */
  lemma ClassicDebtor(goSalary: int, jailFine: int, order: seq<int>, balance: int, now: int, env: Env)
    requires |order| >= 2 && env.die1 == 1 && env.die2 == 3
    ensures 0 < |CHANCE_DECK|
    ensures var g := Normal(goSalary, jailFine);
            var s := Classic(goSalary, jailFine, order, balance, 0, now);
            && ValidConfig(g) && Good(g, s) && Apply(g, s, RollDice(0), env).Ok?
            && var s' := Apply(g, s, RollDice(0), env).s;
               && (s'.bankruptcy.Some? <==> balance < 200)
               && (balance < 200 ==> !s'.finished && forall envs :: Ticks(g, s', envs) == s')
  {
    ClassicCards();
    hide ValidConfig, Good, Inv, Normal, CHANCE_DECK, Apply, Classic, Ticks;
    var g := Normal(goSalary, jailFine);
    var s := Classic(goSalary, jailFine, order, balance, 0, now);
    ClassicInvariant(goSalary, jailFine, order, balance, 0, now);
    ClassicStart(goSalary, jailFine, order, balance, 0, now);
    TaxRoll(g, s, env);
    var s' := Apply(g, s, RollDice(0), env).s;
    InvGood(g, s');
    if balance < 200 {
      forall envs ensures Ticks(g, s', envs) == s' {
        AbandonedDebtorStays(g, s', envs);
      }
    }
  }

  // ---------------------------------------------------------------- positions later in a game

  /** The game with other holdings, balances and bank. */
  function Arranged(g: Config, s: State, tiles: seq<Tile>, owned: seq<seq<int>>, balances: seq<int>, houses: int, hotels: int): State
    requires |s.players| == |owned| == |balances|
  {
    s.(tiles := tiles, bankHouses := houses, bankHotels := hotels,
       players := seq(|owned|, j requires 0 <= j < |owned| =>
         Refreshed(g, tiles, s.players[j].(owned := owned[j], balance := balances[j]))))
  }

  lemma ArrangedTable(g: Config, s: State, tiles: seq<Tile>, owned: seq<seq<int>>, balances: seq<int>, houses: int, hotels: int)
    requires AtGo(g, s) && |s.players| == |owned| == |balances| && |tiles| == |g.board| && s.turn.pending.None?
    requires forall k :: 0 <= k < |tiles| ==> tiles[k].owner.Some? ==> tiles[k].owner.value < |owned|
    ensures var s' := Arranged(g, s, tiles, owned, balances, houses, hotels);
            Good(g, s') && Table(g, s') && WorthFresh(g, s') && DebtOpen(s')
  {
    hide ValidConfig, DeckKept, Streets, Inventory, Owns, Assets, ActiveSeats, NORMAL_BOARD;
    var s' := Arranged(g, s, tiles, owned, balances, houses, hotels);
    InvParts(g, s);
    assert Live(g, s);
    GoodTilesFrame(g, s, s');
    SameRecordsOf(s, s');
    RosterFrame(s, s');
  }

  lemma SameRecordsOf(a: State, b: State)
    requires Roster(a) && |a.players| == |b.players|
    requires forall i :: 0 <= i < |a.players| ==>
               b.players[i].bankrupt == a.players[i].bankrupt && b.players[i].eliminatedAt == a.players[i].eliminatedAt
               && b.players[i].strikes == a.players[i].strikes && b.players[i].jailCards == a.players[i].jailCards
    ensures SameRecords(a, b)
  {
    hide ActiveSeats;
    forall i | 0 <= i < |a.players| ensures RecordOk(a.players[i], a.turn.number, a.finished) {}
  }

  lemma ArrangedInv(g: Config, s: State, tiles: seq<Tile>, owned: seq<seq<int>>, balances: seq<int>, houses: int, hotels: int)
    requires AtGo(g, s) && |s.players| == |owned| == |balances| && s.turn.pending.None?
    requires Streets(g, tiles) && forall k :: 0 <= k < |tiles| ==> tiles[k].owner.Some? ==> tiles[k].owner.value < |owned|
    requires forall i: Seat :: i < |owned| ==> StrictlySorted(owned[i])
    requires forall i: Seat, p: int :: i < |owned| ==> (p in owned[i] <==> HeldBy(tiles, i, p))
    requires houses + Sum(Houses(tiles)) <= BANK_HOUSES && 0 <= hotels && hotels + Sum(Hotels(tiles)) <= BANK_HOTELS
    ensures AtGo(g, Arranged(g, s, tiles, owned, balances, houses, hotels))
  {
    hide ValidConfig, Good, Table, Assets, WorthFresh, DebtOpen, Sum, ClassicBoard;
    var s' := Arranged(g, s, tiles, owned, balances, houses, hotels);
    ArrangedTable(g, s, tiles, owned, balances, houses, hotels) by { StreetsSize(g, tiles); }
    assert Owns(s') && Inventory(s');
    InvParts(g, s');
  }

  // ---------------------------------------------------------------- buildings

  lemma BrownGroup(g: Config)
    requires g.board == NORMAL_BOARD
    ensures forall q :: OnBoard(g, q) ==> (SpaceAt(g, q).color == Some(Brown) <==> q == 2 || q == 4)
  {
    BrownSides();
    Side1();
    Side2();
    Side3();
    Side4();
    hide SIDE_1, SIDE_2, SIDE_3, SIDE_4;
    forall q | OnBoard(g, q) ensures SpaceAt(g, q).color == Some(Brown) <==> q == 2 || q == 4 {
      var k := q - 1;
      assert NORMAL_BOARD[k] == (if k < 10 then SIDE_1[k] else if k < 20 then SIDE_2[k - 10]
                                 else if k < 30 then SIDE_3[k - 20] else SIDE_4[k - 30]);
    }
  }

  lemma BrownSides()
    ensures |SIDE_1| == |SIDE_2| == |SIDE_3| == |SIDE_4| == 10
    ensures forall k :: 0 <= k < 10 ==> (SIDE_1[k].color == Some(Brown) <==> k == 1 || k == 3)
    ensures forall k :: 0 <= k < 10 ==> SIDE_2[k].color != Some(Brown) && SIDE_3[k].color != Some(Brown) && SIDE_4[k].color != Some(Brown)
  {}

  const WITH_HOTEL := Tile(Some(0), 0, true, false)
  const WITH_FOUR := Tile(Some(0), 4, false, false)

  /** The first player has built a hotel on one brown street and four houses on the other. */
  function BuiltTiles(g: Config): (r: seq<Tile>)
    requires |g.board| == 40
    ensures |r| == 40
    ensures forall p :: 1 <= p <= 40 ==> TileAt(r, p) == if p == 2 then WITH_HOTEL else if p == 4 then WITH_FOUR else BARE
  {
    BareTiles(g)[1 := WITH_HOTEL][3 := WITH_FOUR]
  }

  lemma BuiltStreets(g: Config)
    requires g.board == NORMAL_BOARD && |g.board| == 40
    ensures Streets(g, BuiltTiles(g))
  {
    BrownGroup(g);
    FirstSquares();
    hide NORMAL_BOARD, BuiltTiles;
  }

  lemma BuiltCounts(g: Config)
    requires |g.board| == 40
    ensures Sum(Houses(BuiltTiles(g))) == 4 && Sum(Hotels(BuiltTiles(g))) == 1
  {
    hide Sum;
    var bare := BareTiles(g);
    SumZeros(Houses(bare));
    SumZeros(Hotels(bare));
    SumUpdate(Houses(bare), 3, 4);
    SumUpdate(Hotels(bare), 1, 1);
    assert Houses(BuiltTiles(g)) == Houses(bare)[3 := 4];
    assert Hotels(BuiltTiles(g)) == Hotels(bare)[1 := 1];
  }

  /** A classic position in which the bank has three houses left. */
  function Builder(goSalary: int, jailFine: int, order: seq<int>, balance: int, now: int): State
    requires |order| == 2 && 0 < |CHANCE_DECK| && |NORMAL_BOARD| == 40
  {
    var g := Normal(goSalary, jailFine);
    Arranged(g, Classic(goSalary, jailFine, order, balance, 0, now), BuiltTiles(g), [[2, 4], []], [balance, balance], 3, 11)
  }

  lemma ClassicAtGo(goSalary: int, jailFine: int, order: seq<int>, balance: int, now: int)
    requires |order| == 2
    ensures 0 < |CHANCE_DECK| && |NORMAL_BOARD| == 40
    ensures var g := Normal(goSalary, jailFine);
            var s := Classic(goSalary, jailFine, order, balance, 0, now);
            AtGo(g, s) && |s.players| == 2 && s.turn.pending.None? && g.board == NORMAL_BOARD
  {
    ClassicCards();
    FirstSquares();
    hide ValidConfig, Inv, Normal, Classic, CHANCE_DECK, NORMAL_BOARD;
    ClassicInvariant(goSalary, jailFine, order, balance, 0, now);
    ClassicStart(goSalary, jailFine, order, balance, 0, now);
  }

  lemma BuilderAtGo(goSalary: int, jailFine: int, order: seq<int>, balance: int, now: int)
    requires |order| == 2
    ensures 0 < |CHANCE_DECK| && |NORMAL_BOARD| == 40
    ensures var g := Normal(goSalary, jailFine);
            var s := Builder(goSalary, jailFine, order, balance, now);
            && AtGo(g, s) && g.board == NORMAL_BOARD && |s.players| == 2 && s.tiles == BuiltTiles(g) && s.bankHouses == 3
            && s.players[0].balance == balance && s.players[0].owned == [2, 4]
  {
    ClassicAtGo(goSalary, jailFine, order, balance, now);
    hide AtGo, Normal, Classic, CHANCE_DECK, NORMAL_BOARD, Streets, BuiltTiles, Sum, Assets;
    var g := Normal(goSalary, jailFine);
    BuiltStreets(g);
    BuiltCounts(g);
    BuiltOwned(g);
    ArrangedInv(g, Classic(goSalary, jailFine, order, balance, 0, now), BuiltTiles(g), [[2, 4], []], [balance, balance], 3, 11);
  }

  lemma BuiltOwned(g: Config)
    requires |g.board| == 40
    ensures forall k :: 0 <= k < 40 ==> BuiltTiles(g)[k].owner.Some? ==> BuiltTiles(g)[k].owner.value < 2
    ensures var owned: seq<seq<int>> := [[2, 4], []];
            && (forall i: Seat :: i < 2 ==> StrictlySorted(owned[i]))
            && (forall i: Seat, p: int :: i < 2 ==> (p in owned[i] <==> HeldBy(BuiltTiles(g), i, p)))
  {
    hide BuiltTiles;
    forall k | 0 <= k < 40 ensures BuiltTiles(g)[k] == TileAt(BuiltTiles(g), k + 1) {}
  }

  /** Selling the hotel is accepted, and leaves the bank with one house less than none. */
  lemma ClassicHotel(goSalary: int, jailFine: int, order: seq<int>, balance: int, now: int, env: Env)
    requires |order| == 2
    ensures 0 < |CHANCE_DECK| && |NORMAL_BOARD| == 40
    ensures var g := Normal(goSalary, jailFine);
            var s := Builder(goSalary, jailFine, order, balance, now);
            && ValidConfig(g) && Inv(g, s) && Good(g, s) && s.bankHouses == 3
            && Apply(g, s, SellHouse(0, 2), env).Ok? && Apply(g, s, SellHouse(0, 2), env).s.bankHouses == -1
  {
    BuilderAtGo(goSalary, jailFine, order, balance, now);
    hide ValidConfig, Good, Inv, Normal, Builder, CHANCE_DECK, NORMAL_BOARD, Apply, BuiltTiles, ClassicBoard;
    HotelGone(Normal(goSalary, jailFine), Builder(goSalary, jailFine, order, balance, now), env);
  }

  lemma HotelGone(g: Config, s: State, env: Env)
    requires AtGo(g, s) && g.board == NORMAL_BOARD && |g.board| == 40 && s.tiles == BuiltTiles(g) && s.bankHouses == 3
    ensures Good(g, s) && Apply(g, s, SellHouse(0, 2), env).Ok? && Apply(g, s, SellHouse(0, 2), env).s.bankHouses == -1
  {
    hide ValidConfig, Good, Inv, NORMAL_BOARD, Apply, BuiltTiles, Dispatch, ClassicBoard;
    InvGood(g, s);
    HotelSold(g, s, env);
    AcceptsHandler(g, s, SellHouse(0, 2), env);
    HousesCounter(g, s, SellHouse(0, 2), env);
    assert TileAt(s.tiles, 2) == WITH_HOTEL;
  }

  lemma HotelSold(g: Config, s: State, env: Env)
    requires AtGo(g, s) && Good(g, s) && g.board == NORMAL_BOARD && |g.board| == 40 && s.tiles == BuiltTiles(g)
    ensures Dispatch(g, s, SellHouse(0, 2), env).Ok?
  {
    FirstSquares();
    hide ValidConfig, Good, Inv, NORMAL_BOARD, BuiltTiles, SellHouseOn;
    assert CanSellOn(g, s, 0, 2);
  }

  /** From the same position a roll onto the tax leaves a debt to the bank, and the bankruptcy is accepted and loses houses
      and hotels to the game. */
  lemma ClassicLoss(goSalary: int, jailFine: int, order: seq<int>, balance: int, now: int, env: Env, env': Env)
    requires |order| == 2 && balance < 200 && env.die1 == 1 && env.die2 == 3
    ensures 0 < |CHANCE_DECK| && |NORMAL_BOARD| == 40
    ensures var g := Normal(goSalary, jailFine);
            var s := Builder(goSalary, jailFine, order, balance, now);
            && ValidConfig(g) && Inv(g, s) && Good(g, s) && Apply(g, s, RollDice(0), env).Ok?
            && var d := Apply(g, s, RollDice(0), env).s;
               && Inv(g, d) && d.bankruptcy == Some(Bankruptcy(0, None, 200)) && Apply(g, d, DeclareBankruptcy(0), env').Ok?
               && AllHouses(Apply(g, d, DeclareBankruptcy(0), env').s) != AllHouses(d)
               && AllHotels(Apply(g, d, DeclareBankruptcy(0), env').s) != AllHotels(d)
  {
    BuilderAtGo(goSalary, jailFine, order, balance, now);
    hide ValidConfig, Good, Inv, Normal, Builder, CHANCE_DECK, NORMAL_BOARD, Apply, BuiltTiles, AllHouses, AllHotels, HousesOf, HotelsOf;
    var g := Normal(goSalary, jailFine);
    var s := Builder(goSalary, jailFine, order, balance, now);
    TaxRoll(g, s, env);
    var d := Apply(g, s, RollDice(0), env).s;
    InvGood(g, d);
    NoSoftlock(g, d);
    assert Apply(g, d, DeclareBankruptcy(0), env').Ok?;
    StandingOn(g, d);
    BankBankruptcySupply(g, d, DeclareBankruptcy(0), env');
  }

  lemma StandingOn(g: Config, s: State)
    requires |g.board| == 40 && 0 < |s.players| && s.tiles == BuiltTiles(g) && s.players[0].owned == [2, 4]
    ensures HousesOf(s, 0) == 4 && HotelsOf(s, 0) == 1
  {
    var tiles := BuiltTiles(g);
    hide BuiltTiles;
    assert [2, 4][..1] == [2] && [2][..0] == [];
    assert ReleaseTiles(tiles, []) == Released(tiles, 0, 0);
    assert ReleaseTiles(tiles, [2]) == Released(SetTile(tiles, 2, BARE), 0, 1);
    assert TileAt(SetTile(tiles, 2, BARE), 4) == WITH_FOUR;
  }

  // ---------------------------------------------------------------- an heir overdrawn

  const PLEDGED := Tile(Some(0), 0, false, true)
  const RENTED := Tile(Some(1), 0, false, false)

  /** The first player has the dearest street, mortgaged, and the second a cheap one. */
  function PledgedTiles(g: Config): (r: seq<Tile>)
    requires |g.board| == 40
    ensures |r| == 40
    ensures forall p :: 1 <= p <= 40 ==> TileAt(r, p) == if p == 40 then PLEDGED else if p == 4 then RENTED else BARE
  {
    BareTiles(g)[39 := PLEDGED][3 := RENTED]
  }

  lemma PledgedStreets(g: Config)
    requires g.board == NORMAL_BOARD && |g.board| == 40
    ensures Streets(g, PledgedTiles(g))
  {
    FirstSquares();
    hide NORMAL_BOARD, PledgedTiles;
  }

  lemma PledgedCounts(g: Config)
    requires |g.board| == 40
    ensures Sum(Houses(PledgedTiles(g))) == 0 && Sum(Hotels(PledgedTiles(g))) == 0
    ensures forall k :: 0 <= k < 40 ==> PledgedTiles(g)[k].owner.Some? ==> PledgedTiles(g)[k].owner.value < 2
    ensures var owned: seq<seq<int>> := [[40], [4]];
            && (forall i: Seat :: i < 2 ==> StrictlySorted(owned[i]))
            && (forall i: Seat, p: int :: i < 2 ==> (p in owned[i] <==> HeldBy(PledgedTiles(g), i, p)))
  {
    hide Sum, PledgedTiles;
    forall k | 0 <= k < 40 ensures PledgedTiles(g)[k] == TileAt(PledgedTiles(g), k + 1) {}
    SumZeros(Houses(PledgedTiles(g)));
    SumZeros(Hotels(PledgedTiles(g)));
  }

  /** A classic position in which the first player has no cash. */
  function Pledger(goSalary: int, jailFine: int, order: seq<int>, balance: int, now: int): State
    requires |order| == 2 && 0 < |CHANCE_DECK| && |NORMAL_BOARD| == 40
  {
    var g := Normal(goSalary, jailFine);
    Arranged(g, Classic(goSalary, jailFine, order, balance, 0, now), PledgedTiles(g), [[40], [4]], [0, balance], BANK_HOUSES, BANK_HOTELS)
  }

  lemma PledgerAtGo(goSalary: int, jailFine: int, order: seq<int>, balance: int, now: int)
    requires |order| == 2
    ensures 0 < |CHANCE_DECK| && |NORMAL_BOARD| == 40
    ensures var g := Normal(goSalary, jailFine);
            var s := Pledger(goSalary, jailFine, order, balance, now);
            && AtGo(g, s) && g.board == NORMAL_BOARD && |s.players| == 2 && s.tiles == PledgedTiles(g)
            && s.players[0].balance == 0 && s.players[1].balance == balance && s.players[0].owned == [40]
  {
    ClassicAtGo(goSalary, jailFine, order, balance, now);
    hide AtGo, Normal, Classic, CHANCE_DECK, NORMAL_BOARD, PledgedTiles, ClassicBoard;
    PledgedAtGo(Normal(goSalary, jailFine), Classic(goSalary, jailFine, order, balance, 0, now), balance);
  }

  lemma PledgedAtGo(g: Config, s: State, balance: int)
    requires AtGo(g, s) && |s.players| == 2 && s.turn.pending.None? && g.board == NORMAL_BOARD && |g.board| == 40
    ensures var s' := Arranged(g, s, PledgedTiles(g), [[40], [4]], [0, balance], BANK_HOUSES, BANK_HOTELS);
            && AtGo(g, s') && |s'.players| == 2 && s'.tiles == PledgedTiles(g)
            && s'.players[0].balance == 0 && s'.players[1].balance == balance && s'.players[0].owned == [40]
  {
    hide AtGo, NORMAL_BOARD, Streets, PledgedTiles, Sum, Assets, ClassicBoard;
    PledgedStreets(g);
    PledgedCounts(g);
    ArrangedInv(g, s, PledgedTiles(g), [[40], [4]], [0, balance], BANK_HOUSES, BANK_HOTELS);
  }

  /** The rent of the cheap street, which the first player cannot pay. */
  lemma RentRoll(g: Config, s: State, env: Env)
    requires AtGo(g, s) && g.board == NORMAL_BOARD && |g.board| == 40 && s.tiles == PledgedTiles(g) && |s.players| == 2
    requires s.players[0].balance == 0 && env.die1 == 1 && env.die2 == 2
    ensures Good(g, s) && Apply(g, s, RollDice(0), env).Ok?
    ensures var s' := Apply(g, s, RollDice(0), env).s;
            && Inv(g, s') && SameProperty(s, s') && s'.turn.current == 0 && !s'.finished && |s'.players| == 2
            && s'.bankruptcy == Some(Bankruptcy(0, Some(1), 4))
            && s'.players[0].balance == 0 && s'.players[1].balance == s.players[1].balance
  {
    hide ValidConfig, Good, Inv, Apply, NORMAL_BOARD, SameProperty, PledgedTiles, CalculateRent;
    RollFromGo(g, s, env);
    FirstSquares();
    CheapRent(g);
  }

  lemma CheapRent(g: Config)
    requires g.board == NORMAL_BOARD && |g.board| == 40
    ensures CalculateRent(g, PledgedTiles(g), 4, 3, 1) == 4
  {
    FirstSquares();
    hide NORMAL_BOARD, PledgedTiles;
    assert SameGroup(g, 4, 2) && TileAt(PledgedTiles(g), 2).owner.None?;
  }

  /** The bankruptcy that follows is accepted, and leaves the heir overdrawn if and only if the heir has less than the
      interest of 20. */
  lemma ClassicHeir(goSalary: int, jailFine: int, order: seq<int>, balance: int, now: int, env: Env, env': Env)
    requires goSalary >= 0 && |order| == 2 && balance >= 0 && env.die1 == 1 && env.die2 == 2
    ensures 0 < |CHANCE_DECK| && |NORMAL_BOARD| == 40
    ensures var g := Normal(goSalary, jailFine);
            var s := Pledger(goSalary, jailFine, order, balance, now);
            && ValidConfig(g) && Inv(g, s) && Good(g, s) && Apply(g, s, RollDice(0), env).Ok?
            && var d := Apply(g, s, RollDice(0), env).s;
               && Inv(g, d) && Solvent(d) && d.bankruptcy == Some(Bankruptcy(0, Some(1), 4))
               && Apply(g, d, DeclareBankruptcy(0), env').Ok?
               && (Solvent(Apply(g, d, DeclareBankruptcy(0), env').s) <==> balance >= 20)
  {
    PledgerAtGo(goSalary, jailFine, order, balance, now);
    NormalIsSensible(goSalary, jailFine);
    hide ValidConfig, Good, Inv, Normal, Pledger, CHANCE_DECK, NORMAL_BOARD, Apply, PledgedTiles, Sensible, ClassicBoard;
    HeirPays(Normal(goSalary, jailFine), Pledger(goSalary, jailFine, order, balance, now), env, env');
  }

  lemma HeirPays(g: Config, s: State, env: Env, env': Env)
    requires AtGo(g, s) && g.board == NORMAL_BOARD && |g.board| == 40 && s.tiles == PledgedTiles(g) && |s.players| == 2 && Sensible(g)
    requires s.players[0].balance == 0 && s.players[1].balance >= 0 && s.players[0].owned == [40] && env.die1 == 1 && env.die2 == 2
    ensures Good(g, s) && Apply(g, s, RollDice(0), env).Ok?
    ensures var d := Apply(g, s, RollDice(0), env).s;
            && Inv(g, d) && Solvent(d) && d.bankruptcy == Some(Bankruptcy(0, Some(1), 4))
            && Apply(g, d, DeclareBankruptcy(0), env').Ok?
            && (Solvent(Apply(g, d, DeclareBankruptcy(0), env').s) <==> s.players[1].balance >= 20)
  {
    hide ValidConfig, Good, Inv, NORMAL_BOARD, Apply, PledgedTiles, Sensible, Interest, ClassicBoard;
    RentRoll(g, s, env);
    var d := Apply(g, s, RollDice(0), env).s;
    InvGood(g, d);
    NoSoftlock(g, d);
    assert Apply(g, d, DeclareBankruptcy(0), env').Ok?;
    StepSolvent(g, d, DeclareBankruptcy(0), env');
    PledgedInterest(g);
  }

  lemma PledgedInterest(g: Config)
    requires g.board == NORMAL_BOARD && |g.board| == 40
    ensures Interest(g, PledgedTiles(g), [40]) == 20
  {
    FirstSquares();
    hide NORMAL_BOARD, PledgedTiles;
    assert [40][..0] == [];
    assert Interest(g, PledgedTiles(g), []) == 0;
  }
}
