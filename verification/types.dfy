/** The entities of the rules engine: board, cards, game state, commands and events.

    Two representations differ from the Python text and lose nothing.  A player id is the seat
    index of the player in the (never reordered) tuple of players, and a board position `p` is the
    index `p - 1` of the board and of the tuple of ownership records, because both shipped boards
    number their spaces 1..n in order. */
module GameTypes {

  datatype Option<+T> = None | Some(value: T)

  type Seat = nat

  const DOUBLES_JAIL_THRESHOLD: int := 3
  const JAIL_TURNS_INITIAL: int := 3
  const CARD_LANDING_RECURSION_LIMIT: nat := 3
  const MAX_TRADE_OFFERS_PER_TURN: int := 3
  const MAX_AFK_STRIKES: int := 3
  const AUCTION_DURATION_MS: int := 30_000
  const TRADE_DURATION_MS: int := 60_000
  const BANK_HOUSES: int := 32
  const BANK_HOTELS: int := 12
  const JAIL_FINE: int := 50
  const HOTEL_HOUSE_COUNT: int := 5

  // ---------------------------------------------------------------- board and cards

  datatype SpaceKind = Corner | Property | Railroad | Utility | Chance | Chest | Tax

  datatype CornerVariant = Go | Jail | Parking | GotoJail

  datatype Color = Brown | Cyan | Pink | Orange | Red | Yellow | Green | Blue

  datatype RentTable = RentTable(base: int, one: int, two: int, three: int, four: int, hotel: int) {
    function AmountFor(houses: int, hasHotel: bool): int {
      if hasHotel then hotel
      else if houses == 4 then four
      else if houses == 3 then three
      else if houses == 2 then two
      else if houses == 1 then one
      else base
    }
  }

  /** One square of the board.  `unmortgageCost` is the amount the floating-point expression
      `ceil(mortgage_value * 1.1)` yields for this square. */
  datatype Space = Space(kind: SpaceKind, color: Option<Color>, price: Option<int>, rent: Option<RentTable>,
                         houseCost: int, mortgageValue: int, unmortgageCost: int,
                         corner: Option<CornerVariant>, tax: Option<int>)

  const FREE_SPACE := Space(Corner, None, None, None, 0, 0, 0, None, None)

  datatype CardId = ChanceCard(n: nat) | ChestCard(n: nat) | DuelCard(n: nat)

  /** The jail cards that eliminations and `UseJailCard` append to the decks. */
  const CHANCE_JAIL_CARD := ChanceCard(8)
  const CHEST_JAIL_CARD := ChestCard(5)

  datatype CardKind = ChanceKind | ChestKind

  datatype Effect =
    | AdvanceTo(position: int, collectGoBonus: bool)
    | AdvanceToNearest(toRailroad: bool, payDouble: bool)
    | GoToJail
    | GoBack(spaces: int)
    | Collect(amount: int)
    | Pay(amount: int)
    | CollectFromEach(amount: int)
    | PayEach(amount: int)
    | GetOutOfJailFree
    | Repairs(perHouse: int, perHotel: int)

  /** A game mode together with the two server settings the engine is called with. */
  datatype Config = Config(board: seq<Space>, diceCount: nat, start: int, jail: int,
                           railroads: set<int>, utilities: set<int>,
                           chanceDeck: seq<CardId>, chestDeck: seq<CardId>, cards: map<CardId, Effect>,
                           turnTimeout: int, goSalary: int, jailFine: int)

  // ---------------------------------------------------------------- state

  datatype Phase =
    | PreRoll | JailDecision | PostRoll | MustPayRent | DrawingCard
    | Auctioning | Negotiating | Bankrupting | GameOver

  datatype Tile = Tile(owner: Option<Seat>, houses: int, hasHotel: bool, mortgaged: bool)

  const BARE := Tile(None, 0, false, false)

  datatype Player = Player(userId: int, position: int, balance: int, owned: seq<int>, jailCards: int,
                           jail: Option<int>, bankrupt: bool, netWorth: int, strikes: int,
                           eliminatedAt: Option<int>)

  datatype DiceRoll = DiceRoll(die1: int, die2: int, isDoubles: bool)

  datatype ActionSet = ActionSet(canRoll: bool, canBuy: bool, canBuild: bool, canMortgage: bool,
                                 canUnmortgage: bool, canTrade: bool, canEndTurn: bool,
                                 canPayJailFine: bool, canUseJailCard: bool, canBid: bool,
                                 canDeclareBankruptcy: bool, canSurrender: bool)

  const NO_ACTIONS := ActionSet(false, false, false, false, false, false, false, false, false, false, false, false)

  datatype Turn = Turn(phase: Phase, current: Seat, number: int, round: int, dice: Option<DiceRoll>,
                       streak: int, tradeOffers: int, actions: ActionSet, pending: Option<int>,
                       deadline: Option<int>)

  datatype Bid = Bid(bidder: Seat, amount: int)

  datatype Auction = Auction(position: int, bids: seq<Bid>, highest: int, leader: Option<Seat>,
                             remaining: int, startedAt: int)

  datatype TradeOffer = TradeOffer(money: int, positions: seq<int>, jailCards: int)

  datatype Trade = Trade(id: int, proposer: Seat, target: Seat, offer: TradeOffer, request: TradeOffer,
                         countered: bool, expiresAt: int)

  datatype Bankruptcy = Bankruptcy(debtor: Seat, creditor: Option<Seat>, owed: int)

  datatype ActiveCard = ActiveCard(id: CardId, drawer: Seat)

  datatype State = State(players: seq<Player>, turn: Turn, tiles: seq<Tile>,
                         auction: Option<Auction>, trade: Option<Trade>, bankruptcy: Option<Bankruptcy>,
                         activeCard: Option<ActiveCard>, finished: bool, winner: Option<Seat>,
                         bankHouses: int, bankHotels: int,
                         chanceDeck: seq<CardId>, chestDeck: seq<CardId>)

  // ---------------------------------------------------------------- commands and events

  datatype TradeResponse = Accept | Reject | Counter

  datatype Command =
    | RollDice(player: Seat)
    | BuyProperty(player: Seat, position: int)
    | PassBuy(player: Seat)
    | EndTurn(player: Seat)
    | PayJailFine(player: Seat)
    | UseJailCard(player: Seat)
    | BuildHouse(player: Seat, position: int)
    | SellHouse(player: Seat, position: int)
    | Mortgage(player: Seat, position: int)
    | Unmortgage(player: Seat, position: int)
    | ProposeTrade(player: Seat, target: Seat, offer: TradeOffer, request: TradeOffer)
    | RespondTrade(player: Seat, tradeId: int, response: TradeResponse, counter: Option<TradeOffer>)
    | PlaceBid(player: Seat, amount: int)
    | DeclareBankruptcy(player: Seat)
    | Surrender(player: Seat)
    | AdvanceAuction
    | ExpireTrade
    | TurnTimeout

  datatype JailReason = ByDoubles | BySpace | ByCard

  datatype Event =
    | PlayerMoved(player: Seat, from: int, to: int, diceTotal: int, byCard: bool)
    | PassedGo(player: Seat, amount: int)
    | RentPaid(payer: Seat, owner: Seat, position: int, amount: int)
    | PropertyBought(player: Seat, position: int, price: int)
    | BuyDeclined(player: Seat, position: int)
    | RolledDoubles(player: Seat, streak: int)
    | SentToJail(player: Seat, reason: JailReason)
    | TaxPaid(player: Seat, position: int, amount: int)
    | TurnEnded(player: Seat, next: Seat)
    | CardDrawn(player: Seat, card: CardId)
    | PlayerSurrendered(player: Seat, voluntary: bool)
    | TurnTimedOut(player: Seat, strikes: int)

  /** What the clock and the random generator supply to one call of the engine: the time, the two
      dice, the order a reshuffle would give each deck, and the fresh identifier of a new trade. */
  datatype Env = Env(now: int, die1: int, die2: int, chanceShuffle: seq<CardId>, chestShuffle: seq<CardId>,
                     freshId: int)

  /** `IllegalMove` is the engine's own refusal; `Fault` is a Python `KeyError` or `StopIteration`. */
  datatype Outcome = Ok(s: State, events: seq<Event>) | IllegalMove | Fault

  // ---------------------------------------------------------------- look-ups

  /** `get_board_space`; positions off the board do not occur in a well-formed state. */
  function SpaceAt(g: Config, p: int): Space {
    if 1 <= p <= |g.board| then g.board[p - 1] else FREE_SPACE
  }

  /** `space_at`; positions off the board do not occur in a well-formed state. */
  function TileAt(tiles: seq<Tile>, p: int): Tile {
    if 1 <= p <= |tiles| then tiles[p - 1] else BARE
  }

  /** `replace_space`. */
  function SetTile(tiles: seq<Tile>, p: int, t: Tile): (r: seq<Tile>)
    ensures |r| == |tiles|
  {
    if 1 <= p <= |tiles| then tiles[p - 1 := t] else tiles
  }

  predicate OnBoard(g: Config, p: int) {
    1 <= p <= |g.board|
  }

  predicate IsPurchasable(g: Config, p: int) {
    var k := SpaceAt(g, p).kind;
    k == Property || k == Railroad || k == Utility
  }

  predicate IsCardSquare(g: Config, p: int) {
    var k := SpaceAt(g, p).kind;
    k == Chance || k == Chest
  }

  /** Building level of a tile: 0-4 houses, or 5 for a hotel. */
  function Level(t: Tile): int {
    if t.hasHotel then 5 else t.houses
  }

  predicate SameGroup(g: Config, p: int, q: int) {
    SpaceAt(g, p).color.Some? && SpaceAt(g, p).color == SpaceAt(g, q).color
  }
}
