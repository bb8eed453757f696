/** The shipped boards and cards: `board_data.py`, `cards_data.py` and `modes.py`. */
module Boards {
  import opened GameTypes
  import opened Soundness
  import opened Worth
  import opened Elimination
  import opened Engine
  import opened Invariants
  import opened Setup

  // ---------------------------------------------------------------- squares

  /** A street; `unmortgage` is what the floating-point expression of `unmortgage_cost` yields. */
  function Street(price: int, color: Color, rent: RentTable, houseCost: int, unmortgage: int): Space {
    Space(Property, Some(color), Some(price), Some(rent), houseCost, price / 2, unmortgage, None, None)
  }

  function CornerSquare(variant: CornerVariant): Space {
    FREE_SPACE.(corner := Some(variant))
  }

  function TaxSquare(amount: int): Space {
    FREE_SPACE.(kind := Tax, tax := Some(amount))
  }

  const CHANCE_SQUARE := FREE_SPACE.(kind := Chance)
  const CHEST_SQUARE := FREE_SPACE.(kind := Chest)
  const RAILROAD := Space(Railroad, None, Some(200), None, 0, 100, 111, None, None)
  const UTILITY := Space(Utility, None, Some(150), None, 0, 75, 83, None, None)

  /** The classic board, side by side, from GO on. */
  const SIDE_1: seq<Space> := [
    CornerSquare(Go),
    Street(60, Brown, RentTable(2, 10, 30, 90, 160, 250), 50, 33),
    CHEST_SQUARE,
    Street(60, Brown, RentTable(4, 20, 60, 180, 320, 450), 50, 33),
    TaxSquare(200),
    RAILROAD,
    Street(100, Cyan, RentTable(6, 30, 90, 270, 400, 550), 50, 56),
    CHANCE_SQUARE,
    Street(100, Cyan, RentTable(6, 30, 90, 270, 400, 550), 50, 56),
    Street(120, Cyan, RentTable(8, 40, 100, 300, 450, 600), 50, 66)
  ]

  const SIDE_2: seq<Space> := [
    CornerSquare(Jail),
    Street(140, Pink, RentTable(10, 50, 150, 450, 625, 750), 100, 77),
    UTILITY,
    Street(140, Pink, RentTable(10, 50, 150, 450, 625, 750), 100, 77),
    Street(160, Pink, RentTable(12, 60, 180, 500, 700, 900), 100, 88),
    RAILROAD,
    Street(180, Orange, RentTable(14, 70, 200, 550, 750, 950), 100, 100),
    CHEST_SQUARE,
    Street(180, Orange, RentTable(14, 70, 200, 550, 750, 950), 100, 100),
    Street(200, Orange, RentTable(16, 80, 220, 600, 800, 1000), 100, 111)
  ]

  const SIDE_3: seq<Space> := [
    CornerSquare(Parking),
    Street(220, Red, RentTable(18, 90, 250, 700, 875, 1050), 150, 122),
    CHANCE_SQUARE,
    Street(220, Red, RentTable(18, 90, 250, 700, 875, 1050), 150, 122),
    Street(240, Red, RentTable(20, 100, 300, 750, 925, 1100), 150, 132),
    RAILROAD,
    Street(260, Yellow, RentTable(22, 110, 330, 800, 975, 1150), 150, 143),
    Street(260, Yellow, RentTable(22, 110, 330, 800, 975, 1150), 150, 143),
    UTILITY,
    Street(280, Yellow, RentTable(24, 120, 360, 850, 1025, 1200), 150, 154)
  ]

  const SIDE_4: seq<Space> := [
    CornerSquare(GotoJail),
    Street(300, Green, RentTable(26, 130, 390, 900, 1100, 1275), 200, 165),
    Street(300, Green, RentTable(26, 130, 390, 900, 1100, 1275), 200, 165),
    CHEST_SQUARE,
    Street(320, Green, RentTable(28, 150, 450, 1000, 1200, 1400), 200, 176),
    RAILROAD,
    CHANCE_SQUARE,
    Street(350, Blue, RentTable(35, 175, 500, 1100, 1300, 1500), 200, 193),
    TaxSquare(100),
    Street(400, Blue, RentTable(50, 200, 600, 1400, 1700, 2000), 200, 221)
  ]

  const NORMAL_BOARD: seq<Space> := SIDE_1 + SIDE_2 + SIDE_3 + SIDE_4

  const DUEL_BOARD: seq<Space> := [
    CornerSquare(Go),
    Street(60, Brown, RentTable(4, 20, 60, 180, 320, 450), 50, 33),
    CHANCE_SQUARE,
    Street(80, Brown, RentTable(6, 30, 90, 270, 400, 550), 50, 44),
    TaxSquare(100),
    RAILROAD,
    CornerSquare(Jail),
    Street(120, Cyan, RentTable(8, 40, 100, 300, 450, 600), 50, 66),
    CHANCE_SQUARE,
    UTILITY,
    Street(140, Pink, RentTable(10, 50, 150, 450, 625, 750), 100, 77),
    CHANCE_SQUARE,
    CornerSquare(Parking),
    Street(160, Pink, RentTable(12, 60, 180, 500, 700, 900), 100, 88),
    RAILROAD,
    Street(180, Orange, RentTable(14, 70, 200, 550, 750, 950), 100, 100),
    CHANCE_SQUARE,
    Street(200, Orange, RentTable(16, 80, 220, 600, 800, 1000), 100, 111),
    CornerSquare(GotoJail),
    Street(220, Red, RentTable(18, 90, 250, 700, 875, 1050), 150, 122),
    TaxSquare(75),
    UTILITY,
    Street(260, Red, RentTable(22, 110, 330, 800, 975, 1150), 150, 143),
    Street(280, Yellow, RentTable(24, 120, 360, 850, 1025, 1200), 150, 154)
  ]

  // ---------------------------------------------------------------- cards

  const CHANCE_EFFECTS: seq<Effect> := [
    AdvanceTo(1, true), AdvanceTo(25, true), AdvanceTo(12, true), AdvanceToNearest(false, false),
    AdvanceToNearest(true, true), AdvanceToNearest(true, true), Collect(50), GetOutOfJailFree,
    GoBack(3), GoToJail, Repairs(25, 100), Pay(15),
    AdvanceTo(6, true), AdvanceTo(40, false), PayEach(50), Collect(150)
  ]

  const CHEST_EFFECTS: seq<Effect> := [
    AdvanceTo(1, true), Collect(200), Pay(50), Collect(50),
    GetOutOfJailFree, GoToJail, Collect(100), Collect(20),
    CollectFromEach(10), Collect(100), Pay(100), Pay(150),
    Collect(25), Repairs(40, 115), Collect(10), Collect(100)
  ]

  const DUEL_EFFECTS: seq<Effect> := [
    AdvanceTo(1, true), AdvanceTo(23, false), AdvanceToNearest(true, true), AdvanceToNearest(false, false),
    Collect(75), Pay(50), GoBack(2), GoToJail
  ]

  const CHANCE_DECK: seq<CardId> := [
    ChanceCard(1), ChanceCard(2), ChanceCard(3), ChanceCard(4), ChanceCard(5), ChanceCard(6),
    ChanceCard(7), ChanceCard(8), ChanceCard(9), ChanceCard(10), ChanceCard(11), ChanceCard(12),
    ChanceCard(13), ChanceCard(14), ChanceCard(15), ChanceCard(16)
  ]

  const CHEST_DECK: seq<CardId> := [
    ChestCard(1), ChestCard(2), ChestCard(3), ChestCard(4), ChestCard(5), ChestCard(6),
    ChestCard(7), ChestCard(8), ChestCard(9), ChestCard(10), ChestCard(11), ChestCard(12),
    ChestCard(13), ChestCard(14), ChestCard(15), ChestCard(16)
  ]

  const DUEL_DECK: seq<CardId> := [
    DuelCard(1), DuelCard(2), DuelCard(3), DuelCard(4), DuelCard(5), DuelCard(6),
    DuelCard(7), DuelCard(8)
  ]

  /** Card `n` of a list of effects has the number `n`. */
  predicate IsCard(id: CardId) {
    match id
    case ChanceCard(n) => 1 <= n <= |CHANCE_EFFECTS|
    case ChestCard(n) => 1 <= n <= |CHEST_EFFECTS|
    case DuelCard(n) => 1 <= n <= |DUEL_EFFECTS|
  }

  function EffectOf(id: CardId): Effect
    requires IsCard(id)
  {
    match id
    case ChanceCard(n) => CHANCE_EFFECTS[n - 1]
    case ChestCard(n) => CHEST_EFFECTS[n - 1]
    case DuelCard(n) => DUEL_EFFECTS[n - 1]
  }

  lemma OnlyCards(chance: seq<CardId>, chest: seq<CardId>, duel: seq<CardId>)
    requires chance == CHANCE_DECK && chest == CHEST_DECK && duel == DUEL_DECK
    ensures forall id :: id in chance || id in chest || id in duel ==> IsCard(id)
  {
    DeckOrder();
    EffectTargets();
    hide CHANCE_DECK, CHEST_DECK, DUEL_DECK, CHANCE_EFFECTS, CHEST_EFFECTS, DUEL_EFFECTS;
  }

  /** The effects of the cards of three decks. */
  function EffectsOf(chance: seq<CardId>, chest: seq<CardId>, duel: seq<CardId>): (r: map<CardId, Effect>)
    requires forall id :: id in chance || id in chest || id in duel ==> IsCard(id)
    ensures forall id :: id in r <==> id in chance || id in chest || id in duel
    ensures forall id :: id in r ==> IsCard(id) && r[id] == EffectOf(id)
  {
    map id | id in chance + chest + duel :: EffectOf(id)
  }

  function AllCards(): (r: map<CardId, Effect>)
    ensures forall id :: id in r <==> id in CHANCE_DECK || id in CHEST_DECK || id in DUEL_DECK
    ensures forall id :: id in r ==> IsCard(id) && r[id] == EffectOf(id)
  {
    OnlyCards(CHANCE_DECK, CHEST_DECK, DUEL_DECK);
    EffectsOf(CHANCE_DECK, CHEST_DECK, DUEL_DECK)
  }

  // ---------------------------------------------------------------- the two modes

  function Normal(goSalary: int, jailFine: int): Config {
    Config(NORMAL_BOARD, 2, 1, 11, {6, 16, 26, 36}, {13, 29}, CHANCE_DECK, CHEST_DECK, AllCards(), 90_000, goSalary, jailFine)
  }

  function Duel(goSalary: int, jailFine: int): Config {
    Config(DUEL_BOARD, 1, 1, 7, {6, 14}, {10, 21}, DUEL_DECK, [], AllCards(), 30_000, goSalary, jailFine)
  }

  /** A square the rules can work with, given which decks hold ordinary cards. */
  predicate SquareOk(s: Space, chance: bool, chest: bool) {
    && (s.kind == Chance ==> chance)
    && (s.kind == Chest ==> chest)
    && (s.tax.Some? ==> s.tax.value > 0)
    && (s.kind == Property || s.kind == Railroad || s.kind == Utility ==> s.price.Some?)
    && (s.color.Some? ==> s.kind == Property)
    && s.unmortgageCost >= s.mortgageValue
  }

  predicate SquaresOk(board: seq<Space>, chance: bool, chest: bool) {
    forall k :: 0 <= k < |board| ==> SquareOk(board[k], chance, chest)
  }

  lemma SquaresToSpaces(g: Config, chance: bool, chest: bool)
    requires SquaresOk(g.board, chance, chest)
    requires chance ==> HasOrdinaryCard(g, g.chanceDeck)
    requires chest ==> HasOrdinaryCard(g, g.chestDeck)
    ensures forall p :: OnBoard(g, p) ==> SpaceOk(g, p)
  {
    hide HasOrdinaryCard;
    forall p | OnBoard(g, p) ensures SpaceOk(g, p) {
      assert SquareOk(g.board[p - 1], chance, chest);
    }
  }

  /** One side of the classic board: ten squares, a railroad in the middle, no square elsewhere that counts as one. */
  predicate SideOk(side: seq<Space>, utility: int) {
    && |side| == 10 && SquaresOk(side, true, true)
    && (forall k :: 0 <= k < 10 ==> (side[k].kind == Railroad <==> k == 5) && (side[k].kind == Utility <==> k == utility))
  }

  lemma Side1() ensures SideOk(SIDE_1, -1) {}

  lemma Side2() ensures SideOk(SIDE_2, 2) {}

  lemma Side3() ensures SideOk(SIDE_3, 8) {}

  lemma Side4() ensures SideOk(SIDE_4, -1) {}

  lemma NormalSquares()
    ensures |NORMAL_BOARD| == 40 && SquaresOk(NORMAL_BOARD, true, true)
    ensures forall k :: 0 <= k < 40 ==>
              (NORMAL_BOARD[k].kind == Railroad <==> k % 10 == 5) && (NORMAL_BOARD[k].kind == Utility <==> k == 12 || k == 28)
  {
    Side1();
    Side2();
    Side3();
    Side4();
    hide SIDE_1, SIDE_2, SIDE_3, SIDE_4;
    var board := NORMAL_BOARD;
    forall k | 0 <= k < 40 ensures board[k] == (if k < 10 then SIDE_1[k] else if k < 20 then SIDE_2[k - 10]
                                                else if k < 30 then SIDE_3[k - 20] else SIDE_4[k - 30]) {}
  }

  lemma DuelSquares()
    ensures |DUEL_BOARD| == 24 && SquaresOk(DUEL_BOARD, true, false)
  {}

  /** The squares that cards name are not card squares. */
  predicate PlainTarget(board: seq<Space>, p: int) {
    1 <= p <= |board| && board[p - 1].kind != Chance && board[p - 1].kind != Chest
  }

  lemma NormalTargets()
    ensures forall p :: p in {1, 6, 12, 13, 16, 25, 26, 29, 36, 40, 11} ==> PlainTarget(NORMAL_BOARD, p)
  {}

  lemma DuelTargets()
    ensures forall p :: p in {1, 6, 7, 10, 14, 21, 23} ==> PlainTarget(DUEL_BOARD, p)
  {}

  predicate TargetsAmong(effects: seq<Effect>, targets: set<int>) {
    forall k :: 0 <= k < |effects| && effects[k].AdvanceTo? ==> effects[k].position in targets
  }

  lemma EffectTargets()
    ensures TargetsAmong(CHANCE_EFFECTS, {1, 6, 12, 25, 40}) && |CHANCE_EFFECTS| == 16
    ensures TargetsAmong(CHEST_EFFECTS, {1}) && |CHEST_EFFECTS| == 16
    ensures TargetsAmong(DUEL_EFFECTS, {1, 23}) && |DUEL_EFFECTS| == 8
    ensures CHANCE_EFFECTS[0] == CHEST_EFFECTS[0] == DUEL_EFFECTS[0] == AdvanceTo(1, true)
    ensures CHANCE_EFFECTS[7] == CHEST_EFFECTS[4] == GetOutOfJailFree
  {}

  lemma DeckOrder()
    ensures |CHANCE_DECK| == 16 && forall k :: 0 <= k < 16 ==> CHANCE_DECK[k] == ChanceCard(k + 1)
    ensures |CHEST_DECK| == 16 && forall k :: 0 <= k < 16 ==> CHEST_DECK[k] == ChestCard(k + 1)
    ensures |DUEL_DECK| == 8 && forall k :: 0 <= k < 8 ==> DUEL_DECK[k] == DuelCard(k + 1)
  {}

  /** A deck all of whose cards have an effect from the list, the first of which is an ordinary card. */
  lemma DeckOk(g: Config, deck: seq<CardId>, effects: seq<Effect>, targets: set<int>)
    requires |deck| == |effects| > 0 && TargetsAmong(effects, targets)
    requires forall k :: 0 <= k < |deck| ==> deck[k] in g.cards && g.cards[deck[k]] == effects[k]
    requires forall p :: p in targets ==> PlainTarget(g.board, p)
    requires !effects[0].GetOutOfJailFree?
    ensures forall k :: 0 <= k < |deck| ==> CardOk(g, deck[k])
    ensures HasOrdinaryCard(g, deck)
  {
    assert !IsJailCard(g, deck[0]);
  }

  lemma ChanceCards(g: Config)
    requires g.cards == AllCards() && g.board == NORMAL_BOARD
    ensures forall k :: 0 <= k < |CHANCE_DECK| ==> CardOk(g, CHANCE_DECK[k])
    ensures HasOrdinaryCard(g, CHANCE_DECK) && IsJailCard(g, CHANCE_JAIL_CARD)
  {
    hide NORMAL_BOARD, AllCards, CHANCE_DECK, CHEST_DECK, DUEL_DECK, CHANCE_EFFECTS, CHEST_EFFECTS, DUEL_EFFECTS, PlainTarget,
         CardOk, HasOrdinaryCard;
    NormalTargets();
    EffectTargets();
    DeckOrder();
    DeckOk(g, CHANCE_DECK, CHANCE_EFFECTS, {1, 6, 12, 25, 40});
    assert CHANCE_DECK[7] == CHANCE_JAIL_CARD;
  }

  lemma ChestCards(g: Config)
    requires g.cards == AllCards() && g.board == NORMAL_BOARD
    ensures forall k :: 0 <= k < |CHEST_DECK| ==> CardOk(g, CHEST_DECK[k])
    ensures HasOrdinaryCard(g, CHEST_DECK) && IsJailCard(g, CHEST_JAIL_CARD)
  {
    hide NORMAL_BOARD, AllCards, CHANCE_DECK, CHEST_DECK, DUEL_DECK, CHANCE_EFFECTS, CHEST_EFFECTS, DUEL_EFFECTS, PlainTarget,
         CardOk, HasOrdinaryCard;
    NormalTargets();
    EffectTargets();
    DeckOrder();
    DeckOk(g, CHEST_DECK, CHEST_EFFECTS, {1});
    assert CHEST_DECK[4] == CHEST_JAIL_CARD;
  }

  lemma DuelCards(g: Config)
    requires g.cards == AllCards() && g.board == DUEL_BOARD
    ensures forall k :: 0 <= k < |DUEL_DECK| ==> CardOk(g, DUEL_DECK[k])
    ensures HasOrdinaryCard(g, DUEL_DECK)
    ensures IsJailCard(g, CHANCE_JAIL_CARD) && IsJailCard(g, CHEST_JAIL_CARD)
  {
    hide DUEL_BOARD, AllCards, CHANCE_DECK, CHEST_DECK, DUEL_DECK, CHANCE_EFFECTS, CHEST_EFFECTS, DUEL_EFFECTS, PlainTarget;
    DuelTargets();
    EffectTargets();
    DeckOrder();
    DeckOk(g, DUEL_DECK, DUEL_EFFECTS, {1, 23});
    assert CHANCE_DECK[7] == CHANCE_JAIL_CARD && CHEST_DECK[4] == CHEST_JAIL_CARD;
  }

  lemma TargetOnBoard(g: Config, p: int)
    requires PlainTarget(g.board, p)
    ensures OnBoard(g, p) && !IsCardSquare(g, p)
  {}

  /** The classic mode meets everything the laws of the other modules ask of a mode, whatever the salary
      and the fine the server is set to. */
  lemma NormalIsValid(goSalary: int, jailFine: int)
    ensures ValidConfig(Normal(goSalary, jailFine))
  {
    hide NORMAL_BOARD, AllCards, CHANCE_DECK, CHEST_DECK, CardOk, HasOrdinaryCard, IsJailCard, SpaceOk, PlainTarget;
    var g := Normal(goSalary, jailFine);
    NormalSquares();
    NormalTargets();
    ChanceCards(g);
    ChestCards(g);
    SquaresToSpaces(g, true, true);
    forall p | p in {1, 11} || p in g.railroads || p in g.utilities ensures OnBoard(g, p) && !IsCardSquare(g, p) {
      TargetOnBoard(g, p);
    }
    assert 6 in g.railroads && 13 in g.utilities;
  }

  /** So does the two-player mode, whose chest deck is empty because its board has no chest square. */
  lemma DuelIsValid(goSalary: int, jailFine: int)
    ensures ValidConfig(Duel(goSalary, jailFine))
  {
    hide DUEL_BOARD, AllCards, DUEL_DECK, CardOk, HasOrdinaryCard, IsJailCard, SpaceOk, PlainTarget;
    var g := Duel(goSalary, jailFine);
    DuelSquares();
    DuelTargets();
    DuelCards(g);
    SquaresToSpaces(g, true, false);
    forall p | p in {1, 7} || p in g.railroads || p in g.utilities ensures OnBoard(g, p) && !IsCardSquare(g, p) {
      TargetOnBoard(g, p);
    }
    assert 6 in g.railroads && 10 in g.utilities;
  }

  // ---------------------------------------------------------------- railroads and utilities

  /** The sets of railroads and utilities are those of the board. */
  predicate SetsMatch(g: Config) {
    && (forall p :: p in g.railroads ==> OnBoard(g, p) && SpaceAt(g, p).kind == Railroad)
    && (forall p :: p in g.utilities ==> OnBoard(g, p) && SpaceAt(g, p).kind == Utility)
    && (forall p | 1 <= p <= |g.board| :: SpaceAt(g, p).kind == Railroad ==> p in g.railroads)
    && (forall p | 1 <= p <= |g.board| :: SpaceAt(g, p).kind == Utility ==> p in g.utilities)
  }

  lemma NormalSetsMatch(goSalary: int, jailFine: int)
    ensures SetsMatch(Normal(goSalary, jailFine))
  {
    hide NORMAL_BOARD, CHANCE_DECK, CHEST_DECK, AllCards;
    NormalSquares();
    var g := Normal(goSalary, jailFine);
    forall p | 1 <= p <= 40 ensures SpaceAt(g, p) == NORMAL_BOARD[p - 1] {}
  }

  /** The two-player mode's sets do not match its board: one street counts as a railroad and one tax square
      as a utility, while the second railroad and the second utility count as neither. */
  lemma DuelSetsDiffer(goSalary: int, jailFine: int)
    ensures var g := Duel(goSalary, jailFine);
            && !SetsMatch(g)
            && SpaceAt(g, 14).kind == Property && 14 in g.railroads
            && SpaceAt(g, 21).kind == Tax && 21 in g.utilities
            && SpaceAt(g, 15).kind == Railroad && 15 !in g.railroads
            && SpaceAt(g, 22).kind == Utility && 22 !in g.utilities
  {}

  lemma CountOwnedSome(tiles: seq<Tile>, who: Seat, among: set<int>, p: int)
    requires p in among && TileAt(tiles, p).owner == Some(who) && !TileAt(tiles, p).mortgaged
    ensures 1 <= CountOwned(tiles, who, among) <= |among|
  {
    var owned := set q | q in among && TileAt(tiles, q).owner == Some(who) && !TileAt(tiles, q).mortgaged;
    assert p in owned;
    SubsetSize(owned, among);
  }

  lemma {:induction false} SubsetSize(a: set<int>, b: set<int>)
    requires a <= b
    ensures |a| <= |b|
    decreases |b|
  {
    if exists x :: x in a {
      var x :| x in a;
      SubsetSize(a - {x}, b - {x});
    } else {
      assert a == {};
    }
  }

  /** The squares of a kind on the board. */
  function SquaresOf(g: Config, kind: SpaceKind): (r: set<int>)
    ensures forall p :: p in r <==> OnBoard(g, p) && SpaceAt(g, p).kind == kind
  {
    set p | 1 <= p <= |g.board| && SpaceAt(g, p).kind == kind
  }

  /** What a railroad earns by the number its owner has: 25, doubled from one to the next up to four. */
  function RailroadTariff(n: nat): int {
    if n <= 1 then 25 else if n == 2 then 50 else if n == 3 then 100 else 200
  }

  /** What a utility earns per point thrown. */
  function UtilityTariff(n: nat): int {
    if n <= 1 then 4 else 10
  }

  /** A railroad earns by the number of railroads of the board its owner has, unmortgaged, exactly when the mode's own set
      counts the same number, or both count for four - as counting none does - or nothing is multiplied. */
  lemma RailroadRentExact(g: Config, tiles: seq<Tile>, p: int, diceTotal: int, multiplier: int)
    requires OnBoard(g, p) && SpaceAt(g, p).kind == Railroad && TileAt(tiles, p).owner.Some? && !TileAt(tiles, p).mortgaged
    ensures var who := TileAt(tiles, p).owner.value;
            var n := CountOwned(tiles, who, SquaresOf(g, Railroad));
            var m := CountOwned(tiles, who, g.railroads);
            && n >= 1
            && (CalculateRent(g, tiles, p, diceTotal, multiplier) == RailroadTariff(n) * multiplier
                <==> m == n || (n >= 4 && (m == 0 || m >= 4)) || multiplier == 0)
  {
    hide CountOwned;
    var who := TileAt(tiles, p).owner.value;
    CountOwnedSome(tiles, who, SquaresOf(g, Railroad), p);
    var n := CountOwned(tiles, who, SquaresOf(g, Railroad));
    var m := CountOwned(tiles, who, g.railroads);
    SameProduct(RailroadRent(m), RailroadTariff(n), multiplier);
  }

  lemma SameProduct(a: int, b: int, c: int)
    ensures a * c == b * c <==> a == b || c == 0
  {
    assert a * c - b * c == (a - b) * c;
  }

  /** A utility earns by the number of utilities of the board its owner has, unmortgaged, exactly when the mode's own set
      counts one just if the owner has one, or nothing is thrown. */
  lemma UtilityRentExact(g: Config, tiles: seq<Tile>, p: int, diceTotal: int, multiplier: int)
    requires OnBoard(g, p) && SpaceAt(g, p).kind == Utility && TileAt(tiles, p).owner.Some? && !TileAt(tiles, p).mortgaged
    ensures var who := TileAt(tiles, p).owner.value;
            var n := CountOwned(tiles, who, SquaresOf(g, Utility));
            var m := CountOwned(tiles, who, g.utilities);
            && n >= 1
            && (CalculateRent(g, tiles, p, diceTotal, multiplier) == UtilityTariff(n) * diceTotal
                <==> (m == 1 <==> n == 1) || diceTotal == 0)
  {
    hide CountOwned;
    var who := TileAt(tiles, p).owner.value;
    CountOwnedSome(tiles, who, SquaresOf(g, Utility), p);
  }

  /** With matching sets the tariffs hold, everywhere and for every holding. */
  lemma RentOfLines(g: Config, tiles: seq<Tile>, p: int, diceTotal: int, multiplier: int)
    requires SetsMatch(g) && OnBoard(g, p) && TileAt(tiles, p).owner.Some? && !TileAt(tiles, p).mortgaged
    ensures var who := TileAt(tiles, p).owner.value;
            && (SpaceAt(g, p).kind == Railroad ==>
                  CalculateRent(g, tiles, p, diceTotal, multiplier)
                  == RailroadTariff(CountOwned(tiles, who, SquaresOf(g, Railroad))) * multiplier)
            && (SpaceAt(g, p).kind == Utility ==>
                  CalculateRent(g, tiles, p, diceTotal, multiplier)
                  == UtilityTariff(CountOwned(tiles, who, SquaresOf(g, Utility))) * diceTotal)
  {
    hide CountOwned, CalculateRent;
    assert g.railroads == SquaresOf(g, Railroad) && g.utilities == SquaresOf(g, Utility);
    if SpaceAt(g, p).kind == Railroad {
      RailroadRentExact(g, tiles, p, diceTotal, multiplier);
    } else if SpaceAt(g, p).kind == Utility {
      UtilityRentExact(g, tiles, p, diceTotal, multiplier);
    }
  }

  // ---------------------------------------------------------------- the two-player lines

  /** The player has the square, unmortgaged. */
  predicate Has(tiles: seq<Tile>, who: Seat, p: int) {
    TileAt(tiles, p).owner == Some(who) && !TileAt(tiles, p).mortgaged
  }

  function One(b: bool): nat {
    if b then 1 else 0
  }

  lemma CountPair(tiles: seq<Tile>, who: Seat, among: set<int>, a: int, b: int)
    requires a != b && among == {a, b}
    ensures CountOwned(tiles, who, among) == One(Has(tiles, who, a)) + One(Has(tiles, who, b))
  {
    var owned := set q | q in among && TileAt(tiles, q).owner == Some(who) && !TileAt(tiles, q).mortgaged;
    if Has(tiles, who, a) && Has(tiles, who, b) {
      assert owned == {a, b} && {a, b} - {a} == {b} && |owned| == 1 + |{b}|;
    } else if Has(tiles, who, a) {
      assert owned == {a};
    } else if Has(tiles, who, b) {
      assert owned == {b};
    } else {
      assert owned == {};
    }
  }

  lemma DuelLines(goSalary: int, jailFine: int)
    ensures var g := Duel(goSalary, jailFine);
            && |g.board| == 24 && SquaresOf(g, Railroad) == {6, 15} && SquaresOf(g, Utility) == {10, 22}
            && g.railroads == {6, 14} && g.utilities == {10, 21}
            && SpaceAt(g, 14).kind == Property && SpaceAt(g, 21).kind == Tax
  {
    hide SquaresOf;
    var g := Duel(goSalary, jailFine);
    assert forall p :: 1 <= p <= 24 ==> (SpaceAt(g, p).kind == Railroad <==> p == 6 || p == 15);
    assert forall p :: 1 <= p <= 24 ==> (SpaceAt(g, p).kind == Utility <==> p == 10 || p == 22);
    assert forall p :: p in SquaresOf(g, Railroad) <==> p in {6, 15};
    assert forall p :: p in SquaresOf(g, Utility) <==> p in {10, 22};
  }

  /** The two railroads of the two-player board earn what their number says exactly if their owner has the street that is
      counted as a railroad just if the owner has the railroad that is not. */
  lemma DuelRailroads(goSalary: int, jailFine: int, tiles: seq<Tile>, p: int, diceTotal: int, multiplier: int)
    requires (p == 6 || p == 15) && TileAt(tiles, p).owner.Some? && !TileAt(tiles, p).mortgaged && multiplier != 0
    ensures var g := Duel(goSalary, jailFine);
            var who := TileAt(tiles, p).owner.value;
            var n := One(Has(tiles, who, 6)) + One(Has(tiles, who, 15));
            CalculateRent(g, tiles, p, diceTotal, multiplier) == RailroadTariff(n) * multiplier
            <==> (Has(tiles, who, 14) <==> Has(tiles, who, 15))
  {
    hide CalculateRent, Duel, CountOwned, TileAt;
    var who := TileAt(tiles, p).owner.value;
    DuelLines(goSalary, jailFine);
    RailroadRentExact(Duel(goSalary, jailFine), tiles, p, diceTotal, multiplier);
    CountPair(tiles, who, {6, 15}, 6, 15);
    CountPair(tiles, who, {6, 14}, 6, 14);
  }

  /** For one: the owner of nothing but the second railroad of the
      two-player board collects the rent of four railroads. */
  lemma DuelRailroadRent(goSalary: int, jailFine: int, tiles: seq<Tile>, who: Seat, diceTotal: int)
    requires |tiles| == |DUEL_BOARD|
    requires forall q :: 1 <= q <= |tiles| ==>
               TileAt(tiles, q).owner == (if q == 15 then Some(who) else None) && !TileAt(tiles, q).mortgaged
    ensures CalculateRent(Duel(goSalary, jailFine), tiles, 15, diceTotal, 1) == 200
  {
    var g := Duel(goSalary, jailFine);
    DuelSquares();
    assert SpaceAt(g, 15).kind == Railroad;
    assert CountOwned(tiles, who, g.railroads) == 0 by {
      var owned := set q | q in g.railroads && TileAt(tiles, q).owner == Some(who) && !TileAt(tiles, q).mortgaged;
      assert owned == {};
    }
  }

  /** Its two utilities, while the tax square that is counted as one has no owner: the first earns what their number says
      exactly if its owner does not have the second, and the second never does. */
  lemma DuelUtilities(goSalary: int, jailFine: int, tiles: seq<Tile>, p: int, diceTotal: int, multiplier: int)
    requires (p == 10 || p == 22) && TileAt(tiles, p).owner.Some? && !TileAt(tiles, p).mortgaged && diceTotal != 0
    requires TileAt(tiles, 21).owner.None?
    ensures var g := Duel(goSalary, jailFine);
            var who := TileAt(tiles, p).owner.value;
            var n := One(Has(tiles, who, 10)) + One(Has(tiles, who, 22));
            CalculateRent(g, tiles, p, diceTotal, multiplier) == UtilityTariff(n) * diceTotal
            <==> p == 10 && !Has(tiles, who, 22)
  {
    hide CalculateRent, Duel, CountOwned, TileAt;
    var who := TileAt(tiles, p).owner.value;
    DuelLines(goSalary, jailFine);
    UtilityRentExact(Duel(goSalary, jailFine), tiles, p, diceTotal, multiplier);
    CountPair(tiles, who, {10, 22}, 10, 22);
    CountPair(tiles, who, {10, 21}, 10, 21);
  }

  /** On every orderly run of a two-player game the tax square has no owner, so both laws apply. */
  lemma DuelTaxUnowned(goSalary: int, jailFine: int, s: State)
    requires Inv(Duel(goSalary, jailFine), s)
    ensures TileAt(s.tiles, 21).owner.None?
  {
    hide Good, Owns, Inventory, Duel;
    DuelLines(goSalary, jailFine);
    assert TileOk(Duel(goSalary, jailFine), 21, TileAt(s.tiles, 21));
  }

  // ---------------------------------------------------------------- the rules on the classic board

  /** Every orderly run of a classic game with at least two players satisfies every invariant in every
      state it reaches. */
  lemma ClassicGame(goSalary: int, jailFine: int, order: seq<int>, balance: int, chance: seq<CardId>, chest: seq<CardId>,
                    now: int, steps: seq<Move>)
    requires |order| >= 2 && multiset(chance) == multiset(CHANCE_DECK) && multiset(chest) == multiset(CHEST_DECK)
    ensures var g := Normal(goSalary, jailFine);
            && ValidConfig(g) && Good(g, NewGame(g, order, balance, chance, chest, now))
            && (OrderlyRun(g, NewGame(g, order, balance, chance, chest, now), steps) ==>
                  Inv(g, Run(g, NewGame(g, order, balance, chance, chest, now), steps)))
  {
    hide ValidConfig, Good, Inv, OrderlyRun, Run, NewGame;
    var g := Normal(goSalary, jailFine);
    NormalIsValid(goSalary, jailFine);
    Reachable(g, order, balance, chance, chest, now, steps);
  }
}
