/** What the cards say, case by case: where they lead, what each player pays, and what repairs cost. */
module CardLaws {
  import opened GameTypes
  import opened Seqs
  import opened Soundness
  import opened Worth
  import opened Payments
  import opened Landing
  import opened LandingMoney
  import opened Elimination
  import opened Engine
  import opened Invariants
  import opened ExchangeLaws
  import opened Decks

  // ---------------------------------------------------------------- where a moving card leads

  /** The salary for passing GO is announced right after the first move. */
  predicate PaidForGo(g: Config, i: Seat, events: seq<Event>) {
    |events| > 1 && events[1] == PassedGo(i, g.goSalary)
  }

  /** The events begin with a move of the player by a card. */
  predicate MovedByCard(i: Seat, from: int, events: seq<Event>) {
    events != [] && events[0].PlayerMoved? && events[0] == PlayerMoved(i, from, events[0].to, 0, true)
  }

  /** Nothing a landing announces first is a salary. */
  lemma LandingFirst(g: Config, s: State, i: Seat, dice: DiceRoll, depth: nat, multiplier: int, env: Env)
    requires ValidConfig(g) && Good(g, s) && i < |s.players| && depth <= CARD_LANDING_RECURSION_LIMIT
    ensures var ev := ResolveLanding(g, s, i, dice, depth, multiplier, env).events; ev == [] || !ev[0].PassedGo?
  {
    hide ValidConfig, DeckKept, CalculateRent, AttemptPayment, ApplyEffect, DrawCard, Assets;
  }

  /** What an advance announces first: the move, and the salary if it is paid. */
  lemma CardMoveFirst(g: Config, s: State, i: Seat, effect: Effect, dice: DiceRoll, depth: nat, env: Env)
    requires ValidConfig(g) && Good(g, s) && i < |s.players| && depth <= CARD_LANDING_RECURSION_LIMIT && Moves(effect)
    requires effect.AdvanceTo? ==> OnBoard(g, effect.position) && !IsCardSquare(g, effect.position)
    ensures var ev := ApplyEffect(g, s, i, effect, dice, depth, env).events;
            var (to, salary) := Destination(g, s.players[i].position, effect);
            MovedByCard(i, s.players[i].position, ev) && ev[0].to == to && (PaidForGo(g, i, ev) <==> salary)
  {
    hide ValidConfig, DeckKept, Destination, ResolveLanding, Assets;
    var (to, salary) := Destination(g, s.players[i].position, effect);
    CardMoveGood(g, s, i, to, salary);
    var (s1, ev) := CardMove(g, s, i, to, salary);
    if !(effect.GoBack? && depth >= CARD_LANDING_RECURSION_LIMIT) {
      LandingFirst(g, s1, i, dice, if effect.GoBack? then depth + 1 else depth,
                   if effect.AdvanceToNearest? && effect.payDouble then 2 else 1, env);
    }
  }

  /** A card that names a square leads to that square; the salary is paid exactly if the card allows it and the square lies
      behind. */
  lemma AdvanceToSquare(g: Config, s: State, i: Seat, target: int, bonus: bool, dice: DiceRoll, depth: nat, env: Env)
    requires ValidConfig(g) && Good(g, s) && i < |s.players| && depth <= CARD_LANDING_RECURSION_LIMIT
    requires OnBoard(g, target) && !IsCardSquare(g, target)
    ensures var ev := ApplyEffect(g, s, i, AdvanceTo(target, bonus), dice, depth, env).events;
            var from := s.players[i].position;
            MovedByCard(i, from, ev) && ev[0].to == target && (PaidForGo(g, i, ev) <==> bonus && target < from)
  {
    hide ValidConfig, DeckKept, ApplyEffect, AdvancePosition, StepsTo;
    CardMoveFirst(g, s, i, AdvanceTo(target, bonus), dice, depth, env);
    StepsReach(g, s.players[i].position, target);
  }

  /** A card that names the nearest railroad or utility leads to that one of the mode's railroads, or utilities, which is met
      first walking on; the salary is paid exactly if it lies behind. */
  lemma AdvanceToFirst(g: Config, s: State, i: Seat, toRailroad: bool, payDouble: bool, dice: DiceRoll, depth: nat, env: Env)
    requires ValidConfig(g) && Good(g, s) && i < |s.players| && depth <= CARD_LANDING_RECURSION_LIMIT
    ensures OnBoard(g, s.players[i].position)
    ensures var ev := ApplyEffect(g, s, i, AdvanceToNearest(toRailroad, payDouble), dice, depth, env).events;
            var from := s.players[i].position;
            var lines := if toRailroad then g.railroads else g.utilities;
            && MovedByCard(i, from, ev) && OnBoard(g, ev[0].to) && ev[0].to in lines
            && (forall q :: q in lines && OnBoard(g, q) ==> Ahead(g, from, ev[0].to) <= Ahead(g, from, q))
            && (PaidForGo(g, i, ev) <==> ev[0].to < from)
  {
    hide ValidConfig, DeckKept, ApplyEffect, AdvancePosition, StepsTo, Nearest, Ahead;
    var from := s.players[i].position;
    var lines := if toRailroad then g.railroads else g.utilities;
    CardMoveFirst(g, s, i, AdvanceToNearest(toRailroad, payDouble), dice, depth, env);
    TargetsExist(g, lines);
    NearestIsFirst(g, from, lines);
    StepsReach(g, from, Nearest(g, from, lines));
  }

  /** A card that sends a player back leads as many squares back, round GO if need be, and pays nothing. */
  lemma GoBackSquares(g: Config, s: State, i: Seat, spaces: int, dice: DiceRoll, depth: nat, env: Env)
    requires ValidConfig(g) && Good(g, s) && i < |s.players| && depth <= CARD_LANDING_RECURSION_LIMIT && 0 <= spaces < |g.board|
    ensures var ev := ApplyEffect(g, s, i, GoBack(spaces), dice, depth, env).events;
            var from := s.players[i].position;
            && MovedByCard(i, from, ev) && !PaidForGo(g, i, ev)
            && ev[0].to == if from > spaces then from - spaces else from - spaces + |g.board|
  {
    hide ValidConfig, DeckKept, ApplyEffect;
    CardMoveFirst(g, s, i, GoBack(spaces), dice, depth, env);
    Wrapped(s.players[i].position - 1 - spaces, |g.board|);
  }

  // ---------------------------------------------------------------- cards between players

  /** Collecting takes from each active other player the amount, or all there is, and gives the player what they lose. */
  lemma CollectsFromEach(g: Config, s: State, i: Seat, amount: int, dice: DiceRoll, depth: nat, env: Env)
    requires ValidConfig(g) && Good(g, s) && i < |s.players| && depth <= CARD_LANDING_RECURSION_LIMIT
    ensures var s' := ApplyEffect(g, s, i, CollectFromEach(amount), dice, depth, env).s;
            && |s'.players| == |s.players| && Money(s') == Money(s)
            && forall j :: 0 <= j < |s.players| && j != i ==>
                 s'.players[j].balance == if s.players[j].bankrupt then s.players[j].balance
                                          else if amount < s.players[j].balance then s.players[j].balance - amount else 0
  {
    hide ValidConfig, DeckKept, Assets, Money, Contributions;
    CollectLedger(g, s, i, amount);
  }

  /** Paying gives each active other player the amount, and takes from the player what they get. */
  lemma PaysEach(g: Config, s: State, i: Seat, amount: int, dice: DiceRoll, depth: nat, env: Env)
    requires ValidConfig(g) && Good(g, s) && i < |s.players| && depth <= CARD_LANDING_RECURSION_LIMIT
    ensures var s' := ApplyEffect(g, s, i, PayEach(amount), dice, depth, env).s;
            && |s'.players| == |s.players| && Money(s') == Money(s)
            && forall j :: 0 <= j < |s.players| && j != i ==>
                 s'.players[j].balance == s.players[j].balance + if s.players[j].bankrupt then 0 else amount
  {
    hide ValidConfig, DeckKept, Assets, Money, ActiveOthers;
    PayAllLedger(g, s, i, amount);
  }

  // ---------------------------------------------------------------- repairs

  lemma {:induction false} RepairsReleased(tiles: seq<Tile>, owned: seq<int>, perHouse: int, perHotel: int)
    requires StrictlySorted(owned) && forall k :: 0 <= k < |owned| ==> 1 <= owned[k] <= |tiles|
    requires forall k :: 0 <= k < |tiles| ==> tiles[k].hasHotel ==> tiles[k].houses == 0
    ensures var r := ReleaseTiles(tiles, owned);
            RepairsCost(tiles, owned, perHouse, perHotel) == perHouse * r.houses + perHotel * r.hotels
  {
    if owned != [] {
      var n := |owned| - 1;
      var p := owned[n];
      RepairsReleased(tiles, owned[..n], perHouse, perHotel);
      assert p !in owned[..n];
      ReleaseOwners(tiles, owned[..n], p - 1);
      var r := ReleaseTiles(tiles, owned[..n]);
      var t := TileAt(tiles, p);
      assert TileAt(r.tiles, p) == t;
      assert perHouse * (r.houses + t.houses) == perHouse * r.houses + perHouse * t.houses;
      assert perHotel * (r.hotels + 1) == perHotel * r.hotels + perHotel;
    }
  }

  /** Repairs cost so much for each house, and so much for each hotel, that stands on the player's squares. */
  lemma RepairsByBuildings(g: Config, s: State, who: Seat, perHouse: int, perHotel: int)
    requires Owns(s) && Streets(g, s.tiles) && who < |s.players|
    ensures RepairsCost(s.tiles, s.players[who].owned, perHouse, perHotel) == perHouse * HousesOf(s, who) + perHotel * HotelsOf(s, who)
  {
    hide ReleaseTiles, RepairsCost;
    var owned := s.players[who].owned;
    forall k | 0 <= k < |s.tiles| ensures s.tiles[k].hasHotel ==> s.tiles[k].houses == 0 {
      assert TileOk(g, k + 1, TileAt(s.tiles, k + 1));
    }
    forall k | 0 <= k < |owned| ensures 1 <= owned[k] <= |s.tiles| {
      assert owned[k] in owned && HeldBy(s.tiles, who, owned[k]);
    }
    RepairsReleased(s.tiles, owned, perHouse, perHotel);
  }

  // ---------------------------------------------------------------- what a landing announces

  /** The player the rent is paid to on a square. */
  predicate RentDue(g: Config, s: State, i: Seat, p: int) {
    var t := TileAt(s.tiles, p);
    var kind := SpaceAt(g, p).kind;
    (kind == Property || kind == Railroad || kind == Utility) && t.owner.Some? && t.owner.value != i && !t.mortgaged
  }

  /** What a landing announces where no card is drawn: the arrest, or the tax or rent once it is paid, to whom and how much; an
      open debt, a free square and a square of one's own pass in silence. */
  lemma PlainEvents(g: Config, s: State, i: Seat, dice: DiceRoll, depth: nat, multiplier: int, env: Env)
    requires ValidConfig(g) && Good(g, s) && i < |s.players| && depth <= CARD_LANDING_RECURSION_LIMIT
    requires SpaceAt(g, s.players[i].position).corner == Some(GotoJail) || !IsCardSquare(g, s.players[i].position)
    ensures var p := s.players[i].position;
            var space := SpaceAt(g, p);
            var r := ResolveLanding(g, s, i, dice, depth, multiplier, env);
            r.events == if space.corner == Some(GotoJail) then [SentToJail(i, BySpace)]
                        else if r.s.bankruptcy.Some? then []
                        else if space.kind == Tax && space.tax.Some? then [TaxPaid(i, p, space.tax.value)]
                        else if RentDue(g, s, i, p)
                        then [RentPaid(i, TileAt(s.tiles, p).owner.value, p, CalculateRent(g, s.tiles, p, dice.die1 + dice.die2, multiplier))]
                        else []
  {
    hide ValidConfig, DeckKept, Assets, CalculateRent, AttemptPayment, DrawAndApply;
  }

  /** On a card square the head of the deck is announced, and then whatever it does; a card that jails announces the arrest,
      and one that moves nobody nothing. */
  lemma CardEvents(g: Config, s: State, i: Seat, dice: DiceRoll, depth: nat, multiplier: int, env: Env)
    requires ValidConfig(g) && Good(g, s) && i < |s.players| && depth <= CARD_LANDING_RECURSION_LIMIT
    requires SpaceAt(g, s.players[i].position).corner != Some(GotoJail) && IsCardSquare(g, s.players[i].position)
    ensures var deck := if SpaceAt(g, s.players[i].position).kind == Chance then s.chanceDeck else s.chestDeck;
            var r := ResolveLanding(g, s, i, dice, depth, multiplier, env);
            && deck != [] && deck[0] in g.cards && r.events != [] && r.events[0] == CardDrawn(i, deck[0])
            && r.s.activeCard == Some(ActiveCard(deck[0], i))
            && (g.cards[deck[0]].GoToJail? ==> r.events[1..] == [SentToJail(i, ByCard)] && r.jailed)
            && (!g.cards[deck[0]].GoToJail? && !Moves(g.cards[deck[0]]) ==> r.events[1..] == [] && !r.jailed)
  {
    hide ValidConfig, DeckKept, ApplyEffect, StandingEffect;
    CardSquareDeck(g, s, i);
    MoneyOnlyGood(g, s, Refresh(g, s));
    var kind := if SpaceAt(g, s.players[i].position).kind == Chance then ChanceKind else ChestKind;
    var (s1, card) := DrawCard(g, Refresh(g, s), kind, env);
    StillEvents(g, s1, i, g.cards[card], dice, depth, env);
    var r := ApplyEffect(g, s1, i, g.cards[card], dice, depth, env);
    assert ([CardDrawn(i, card)] + r.events)[1..] == r.events;
  }

  lemma StillEvents(g: Config, s: State, i: Seat, effect: Effect, dice: DiceRoll, depth: nat, env: Env)
    requires ValidConfig(g) && Good(g, s) && i < |s.players| && depth <= CARD_LANDING_RECURSION_LIMIT
    requires effect.AdvanceTo? ==> OnBoard(g, effect.position) && !IsCardSquare(g, effect.position)
    ensures var r := ApplyEffect(g, s, i, effect, dice, depth, env);
            && (effect.GoToJail? ==> r.events == [SentToJail(i, ByCard)] && r.jailed)
            && (!effect.GoToJail? && !Moves(effect) ==> r.events == [] && !r.jailed)
  {
    hide ValidConfig, DeckKept, StandingEffect, ResolveLanding, Assets;
  }
}
