/** What a roll will do to phase and balances, told before it from the dice, the squares, the decks and the
    balances alone. */
module Foresight {
  import opened GameTypes
  import opened Soundness
  import opened Worth
  import opened Payments
  import opened Landing
  import opened LandingLaws
  import opened Handlers
  import opened StepRoll

  // ---------------------------------------------------------------- where a landing comes to rest

  /** A square with a rent multiplier, a card that moves nobody, a go-back card too deep to be resolved,
      or jail. */
  datatype Stop = Square(multiplier: int) | Card(effect: Effect) | Unresolved | Prison

  /** The stop, its square, and the cash in hand on arrival. */
  datatype Fate = Fate(stop: Stop, position: int, cash: int)

  lemma DeckAt(g: Config, chance: seq<CardId>, chest: seq<CardId>, p: int)
    requires ValidConfig(g) && OnBoard(g, p)
    requires DeckKept(g, chance, g.chanceDeck) && DeckKept(g, chest, g.chestDeck)
    ensures SpaceAt(g, p).kind == Chance ==> chance != [] && DeckKept(g, DrawFrom(g, chance, []).0, g.chanceDeck)
                                             && CardOk(g, DrawFrom(g, chance, []).1)
    ensures SpaceAt(g, p).kind == Chest ==> chest != [] && DeckKept(g, DrawFrom(g, chest, []).0, g.chestDeck)
                                            && CardOk(g, DrawFrom(g, chest, []).1)
  {
    hide DeckKept, CardOk, DrawFrom;
    assert SpaceOk(g, p);
    if SpaceAt(g, p).kind == Chance {
      DeckNotEmpty(g, chance, g.chanceDeck);
      DrawKeepsDeck(g, chance, g.chanceDeck, []);
    }
    if SpaceAt(g, p).kind == Chest {
      DeckNotEmpty(g, chest, g.chestDeck);
      DrawKeepsDeck(g, chest, g.chestDeck, []);
    }
  }

  /** The fate of a player who arrives on a square with so much cash, told from the two decks. */
  function Foretell(g: Config, chance: seq<CardId>, chest: seq<CardId>, p: int, cash: int, depth: nat, multiplier: int): (f: Fate)
    requires ValidConfig(g) && OnBoard(g, p) && depth <= CARD_LANDING_RECURSION_LIMIT
    requires DeckKept(g, chance, g.chanceDeck) && DeckKept(g, chest, g.chestDeck)
    ensures OnBoard(g, f.position)
    decreases CARD_LANDING_RECURSION_LIMIT - depth, Rank(g, p)
  {
    if SpaceAt(g, p).corner == Some(GotoJail) then Fate(Prison, g.jail, cash)
    else if !IsCardSquare(g, p) then Fate(Square(multiplier), p, cash)
    else
      DeckAt(g, chance, chest, p);
      if SpaceAt(g, p).kind == Chance then
        var (rest, card) := DrawFrom(g, chance, []);
        ForetellCard(g, rest, chest, p, cash, g.cards[card], depth)
      else
        var (rest, card) := DrawFrom(g, chest, []);
        ForetellCard(g, chance, rest, p, cash, g.cards[card], depth)
  }

  function ForetellCard(g: Config, chance: seq<CardId>, chest: seq<CardId>, p: int, cash: int, effect: Effect, depth: nat): (f: Fate)
    requires ValidConfig(g) && OnBoard(g, p) && depth <= CARD_LANDING_RECURSION_LIMIT
    requires DeckKept(g, chance, g.chanceDeck) && DeckKept(g, chest, g.chestDeck)
    requires effect.AdvanceTo? ==> OnBoard(g, effect.position) && !IsCardSquare(g, effect.position)
    ensures OnBoard(g, f.position)
    decreases CARD_LANDING_RECURSION_LIMIT - depth, 1, 0
  {
    if effect.GoToJail? then Fate(Prison, g.jail, cash)
    else if !Moves(effect) then Fate(Card(effect), p, cash)
    else
      var (to, salary) := Destination(g, p, effect);
      var cash' := cash + if salary then g.goSalary else 0;
      if effect.GoBack? && depth >= CARD_LANDING_RECURSION_LIMIT then Fate(Unresolved, to, cash')
      else Foretell(g, chance, chest, to, cash', if effect.GoBack? then depth + 1 else depth,
                    if effect.AdvanceToNearest? && effect.payDouble then 2 else 1)
  }

  // ---------------------------------------------------------------- what a stop costs and changes

  /** The player rent is owed to on a square. */
  function Landlord(g: Config, s: State, i: Seat, p: int): Option<Seat> {
    var t := TileAt(s.tiles, p);
    if IsPurchasable(g, p) && t.owner.Some? && t.owner.value != i && !t.mortgaged then t.owner else None
  }

  /** What falls due at the stop. */
  function Due(g: Config, s: State, i: Seat, total: int, f: Fate): int
    requires i < |s.players|
  {
    match f.stop
    case Square(multiplier) =>
      if SpaceAt(g, f.position).kind == Tax && SpaceAt(g, f.position).tax.Some? then SpaceAt(g, f.position).tax.value
      else if Landlord(g, s, i, f.position).Some? then CalculateRent(g, s.tiles, f.position, total, multiplier)
      else 0
    case Card(Pay(amount)) => amount
    case Card(Repairs(perHouse, perHotel)) => RepairsCost(s.tiles, s.players[i].owned, perHouse, perHotel)
    case _ => 0
  }

  /** The cash in hand is less than what is due. */
  predicate Defaults(g: Config, s: State, i: Seat, total: int, f: Fate)
    requires i < |s.players|
  {
    Due(g, s, i, total, f) > 0 && f.cash < Due(g, s, i, total, f)
  }

  /** What is paid: all that is due, or nothing. */
  function Paid(g: Config, s: State, i: Seat, total: int, f: Fate): int
    requires i < |s.players|
  {
    if 0 < Due(g, s, i, total, f) <= f.cash then Due(g, s, i, total, f) else 0
  }

  /** Money that changes hands without a debt: the bank's gift, and the cards that collect from or pay everyone. */
  function Gift(s: State, i: Seat, f: Fate, j: Seat): int
    requires i < |s.players| && j < |s.players|
  {
    match f.stop
    case Card(Collect(amount)) => if j == i then amount else 0
    case Card(CollectFromEach(amount)) =>
      if j == i then Contributions(s.players, i, amount, |s.players|) else -Contribution(s.players, i, j, amount)
    case Card(PayEach(amount)) =>
      if j == i then -(amount * ActiveOthers(s.players, i, |s.players|))
      else if s.players[j].bankrupt then 0 else amount
    case _ => 0
  }

  /** Every balance after the landing. */
  function BalanceAfter(g: Config, s: State, i: Seat, total: int, f: Fate, j: Seat): int
    requires i < |s.players| && j < |s.players|
  {
    if j == i then f.cash + Gift(s, i, f, i) - Paid(g, s, i, total, f)
    else
      s.players[j].balance + Gift(s, i, f, j)
      + if f.stop.Square? && Landlord(g, s, i, f.position) == Some(j) then Paid(g, s, i, total, f) else 0
  }

  function PhaseAfter(g: Config, s: State, i: Seat, total: int, f: Fate): Phase
    requires i < |s.players|
  {
    if f.stop.Prison? then PostRoll
    else if Defaults(g, s, i, total, f) then Bankrupting
    else if f.stop.Square? then (if Landlord(g, s, i, f.position).Some? then MustPayRent else PostRoll)
    else s.turn.phase
  }

  /** The debt a landing leaves open: all that is due, to whom it is due. */
  function DebtAfter(g: Config, s: State, i: Seat, total: int, f: Fate): Option<Bankruptcy>
    requires i < |s.players|
  {
    if !Defaults(g, s, i, total, f) then None
    else Some(Bankruptcy(i, if f.stop.Square? then Landlord(g, s, i, f.position) else None, Due(g, s, i, total, f)))
  }

  function PendingAfter(g: Config, s: State, f: Fate): Option<int> {
    if f.stop.Square? && IsPurchasable(g, f.position) && TileAt(s.tiles, f.position).owner.None? then Some(f.position) else None
  }

  /** The landing `r` of player `i` went as foretold. */
  ghost predicate Foretold(g: Config, s: State, r: Landed, i: Seat, total: int, f: Fate)
    requires i < |s.players|
  {
    && |r.s.players| == |s.players|
    && (r.jailed <==> f.stop.Prison?)
    && r.s.players[i].position == f.position
    && (forall j {:trigger r.s.players[j]} :: 0 <= j < |s.players| ==> r.s.players[j].balance == BalanceAfter(g, s, i, total, f, j))
    && r.s.bankruptcy == DebtAfter(g, s, i, total, f)
    && (!r.jailed ==> r.s.turn.phase == PhaseAfter(g, s, i, total, f))
    && r.s.turn.pending == PendingAfter(g, s, f)
  }

  // ---------------------------------------------------------------- one stop

  /** A payment in full or not at all. */
  lemma PaymentForetold(g: Config, s: State, i: Seat, creditor: Option<Seat>, amount: int)
    requires i < |s.players| && s.bankruptcy.None?
    requires creditor.Some? ==> creditor.value < |s.players| && creditor.value != i
    ensures var r := AttemptPayment(g, s, i, creditor, amount);
            var paid := if 0 < amount <= s.players[i].balance then amount else 0;
            && |r.players| == |s.players| && r.players[i].position == s.players[i].position
            && (forall j {:trigger r.players[j]} :: 0 <= j < |s.players| ==>
                  r.players[j].balance == s.players[j].balance + if j == i then -paid else if creditor == Some(j) then paid else 0)
            && r.bankruptcy == (if amount > 0 && s.players[i].balance < amount then Some(Bankruptcy(i, creditor, amount)) else None)
            && r.turn == s.turn.(phase := if r.bankruptcy.Some? then Bankrupting else s.turn.phase)
  {
    hide Assets;
  }

  lemma LandAndPayForetold(g: Config, s: State, i: Seat, creditor: Option<Seat>, amount: int, phase: Phase, event: Event)
    requires i < |s.players| && s.bankruptcy.None? && s.turn.pending.None?
    requires creditor.Some? ==> creditor.value < |s.players| && creditor.value != i
    ensures var r := LandAndPay(g, s, i, creditor, amount, phase, event);
            var paid := if 0 < amount <= s.players[i].balance then amount else 0;
            && |r.s.players| == |s.players| && r.s.players[i].position == s.players[i].position && !r.jailed
            && (forall j {:trigger r.s.players[j]} :: 0 <= j < |s.players| ==>
                  r.s.players[j].balance == s.players[j].balance + if j == i then -paid else if creditor == Some(j) then paid else 0)
            && r.s.bankruptcy == (if amount > 0 && s.players[i].balance < amount then Some(Bankruptcy(i, creditor, amount)) else None)
            && r.s.turn.phase == (if r.s.bankruptcy.Some? then Bankrupting else phase) && r.s.turn.pending.None?
  {
    hide Assets, AttemptPayment;
    PaymentForetold(g, Refresh(g, s), i, creditor, amount);
  }

  lemma ArrestForetold(g: Config, s: State, i: Seat, total: int)
    requires i < |s.players| && s.bankruptcy.None? && s.turn.pending.None?
    ensures Foretold(g, s, LandOnGotoJail(g, s, i), i, total, Fate(Prison, g.jail, s.players[i].balance))
  {
    hide Assets;
  }

  lemma FreelyForetold(g: Config, s: State, i: Seat, total: int, multiplier: int)
    requires i < |s.players| && s.bankruptcy.None? && s.turn.pending.None?
    requires var p := s.players[i].position;
             Landlord(g, s, i, p).None? && !(SpaceAt(g, p).kind == Tax && SpaceAt(g, p).tax.Some?)
    ensures Foretold(g, s, LandFreely(g, s, i), i, total, Fate(Square(multiplier), s.players[i].position, s.players[i].balance))
  {
    hide Assets, CalculateRent;
  }

  lemma PlainForetold(g: Config, s: State, i: Seat, dice: DiceRoll, multiplier: int)
    requires Good(g, s) && i < |s.players| && s.bankruptcy.None? && s.turn.pending.None?
    ensures var p := s.players[i].position;
            var f := if SpaceAt(g, p).corner == Some(GotoJail) then Fate(Prison, g.jail, s.players[i].balance)
                     else Fate(Square(multiplier), p, s.players[i].balance);
            Foretold(g, s, LandOnPlainSquare(g, s, i, dice, multiplier), i, dice.die1 + dice.die2, f)
  {
    hide DeckKept, Assets, CalculateRent, LandAndPay, LandFreely, LandOnGotoJail;
    var p := s.players[i].position;
    var space := SpaceAt(g, p);
    var total := dice.die1 + dice.die2;
    if space.corner == Some(GotoJail) {
      ArrestForetold(g, s, i, total);
    } else if space.kind == Tax && space.tax.Some? {
      LandAndPayForetold(g, s, i, None, space.tax.value, PostRoll, TaxPaid(i, p, space.tax.value));
    } else if Landlord(g, s, i, p).Some? {
      var owner := TileAt(s.tiles, p).owner;
      var rent := CalculateRent(g, s.tiles, p, total, multiplier);
      LandAndPayForetold(g, s, i, owner, rent, MustPayRent, RentPaid(i, owner.value, p, rent));
    } else {
      FreelyForetold(g, s, i, total, multiplier);
    }
  }

  lemma PlainJail(g: Config, s: State, i: Seat, dice: DiceRoll, multiplier: int)
    requires Good(g, s) && i < |s.players|
    ensures var r := LandOnPlainSquare(g, s, i, dice, multiplier); r.jailed ==> r.s.turn.phase == PostRoll
  {
    hide Assets, CalculateRent, AttemptPayment;
  }

  lemma StandingForetold(g: Config, s: State, i: Seat, effect: Effect, total: int)
    requires i < |s.players| && !Moves(effect) && !effect.GoToJail?
    requires s.bankruptcy.None? && s.turn.pending.None?
    ensures Foretold(g, s, Landed(StandingEffect(g, s, i, effect), [], false), i, total,
                     Fate(Card(effect), s.players[i].position, s.players[i].balance))
  {
    hide Assets, Contributions, ActiveOthers, RepairsCost, AttemptPayment;
    if effect.Pay? {
      PaymentForetold(g, s, i, None, effect.amount);
    }
    if effect.Repairs? {
      PaymentForetold(g, s, i, None, RepairsCost(s.tiles, s.players[i].owned, effect.perHouse, effect.perHotel));
    }
  }

  // ---------------------------------------------------------------- the means of the others

  /** Squares, belongings and the means of the other players are the same, and the turn is. */
  ghost predicate SameMeans(a: State, b: State, i: Seat)
    requires i < |a.players|
  {
    && |b.players| == |a.players| && b.tiles == a.tiles && b.turn == a.turn && b.bankruptcy == a.bankruptcy
    && b.players[i].owned == a.players[i].owned
    && (forall j :: 0 <= j < |a.players| && j != i ==>
          b.players[j].balance == a.players[j].balance && b.players[j].bankrupt == a.players[j].bankrupt)
  }

  lemma {:induction false} SameContributions(a: seq<Player>, b: seq<Player>, i: Seat, amount: int, k: nat)
    requires k <= |a| == |b|
    requires forall j :: 0 <= j < |a| && j != i ==> b[j].balance == a[j].balance && b[j].bankrupt == a[j].bankrupt
    ensures Contributions(a, i, amount, k) == Contributions(b, i, amount, k)
    ensures ActiveOthers(a, i, k) == ActiveOthers(b, i, k)
  {
    if k > 0 {
      SameContributions(a, b, i, amount, k - 1);
    }
  }

  /** A landing is foretold alike from any state with the same means. */
  lemma SameForetold(g: Config, a: State, b: State, r: Landed, i: Seat, total: int, f: Fate)
    requires i < |a.players| && SameMeans(a, b, i) && Foretold(g, b, r, i, total, f)
    ensures Foretold(g, a, r, i, total, f)
  {
    hide Contributions, ActiveOthers, RepairsCost, CalculateRent;
    if f.stop.Card? && (f.stop.effect.CollectFromEach? || f.stop.effect.PayEach?) {
      SameContributions(a.players, b.players, i, f.stop.effect.amount, |a.players|);
    }
  }

  lemma CardMoveMeans(g: Config, s: State, i: Seat, to: int, salary: bool)
    requires i < |s.players|
    ensures var s1 := CardMove(g, s, i, to, salary).0;
            && SameMeans(s, s1, i) && s1.chanceDeck == s.chanceDeck && s1.chestDeck == s.chestDeck
            && s1.players[i].balance == s.players[i].balance + if salary then g.goSalary else 0
  {
    hide Assets;
  }

  lemma DrawMeans(g: Config, s: State, i: Seat, env: Env)
    requires ValidConfig(g) && Good(g, s) && i < |s.players| && Good(g, Refresh(g, s))
    requires IsCardSquare(g, s.players[i].position)
    requires var p := s.players[i].position;
             SpaceAt(g, p).kind == Chance ==> s.chanceDeck != []
    requires var p := s.players[i].position;
             SpaceAt(g, p).kind == Chest ==> s.chestDeck != []
    ensures var p := s.players[i].position;
            var (s1, card) := DrawCard(g, Refresh(g, s), if SpaceAt(g, p).kind == Chance then ChanceKind else ChestKind, env);
            && SameMeans(s, s1, i) && s1.players[i].balance == s.players[i].balance && s1.players[i].position == p
            && (if SpaceAt(g, p).kind == Chance
                then (s1.chanceDeck, card) == DrawFrom(g, s.chanceDeck, []) && s1.chestDeck == s.chestDeck
                else (s1.chestDeck, card) == DrawFrom(g, s.chestDeck, []) && s1.chanceDeck == s.chanceDeck)
  {
    hide ValidConfig, DeckKept, Assets;
  }

  // ---------------------------------------------------------------- the whole landing

  function LandingFate(g: Config, s: State, i: Seat, depth: nat, multiplier: int): Fate
    requires ValidConfig(g) && Good(g, s) && i < |s.players| && depth <= CARD_LANDING_RECURSION_LIMIT
  {
    Foretell(g, s.chanceDeck, s.chestDeck, s.players[i].position, s.players[i].balance, depth, multiplier)
  }

  lemma {:induction false} LandingForetold(g: Config, s: State, i: Seat, dice: DiceRoll, depth: nat, multiplier: int, env: Env)
    requires ValidConfig(g) && Good(g, s) && i < |s.players| && depth <= CARD_LANDING_RECURSION_LIMIT
    requires s.bankruptcy.None? && s.turn.pending.None?
    ensures Foretold(g, s, ResolveLanding(g, s, i, dice, depth, multiplier, env), i, dice.die1 + dice.die2,
                     LandingFate(g, s, i, depth, multiplier))
    ensures var r := ResolveLanding(g, s, i, dice, depth, multiplier, env); r.jailed ==> r.s.turn.phase == PostRoll
    decreases CARD_LANDING_RECURSION_LIMIT - depth, Rank(g, s.players[i].position)
  {
    hide ValidConfig, Good, DeckKept, LandOnPlainSquare, Foretold, SameMeans, DrawCard, DrawFrom;
    var p := s.players[i].position;
    var total := dice.die1 + dice.die2;
    if IsCardSquare(g, p) && SpaceAt(g, p).corner != Some(GotoJail) {
      var kind := if SpaceAt(g, p).kind == Chance then ChanceKind else ChestKind;
      var s0 := Refresh(g, s);
      CardSquareDeck(g, s, i);
      MoneyOnlyGood(g, s, s0);
      var (s1, card) := DrawCard(g, s0, kind, env);
      DrawMeans(g, s, i, env);
      MeansSize(s, s1, i);
      DecksOf(g, s);
      DecksOf(g, s1);
      DeckAt(g, s.chanceDeck, s.chestDeck, p);
      EffectForetold(g, s1, i, g.cards[card], dice, depth, env);
      var r := ApplyEffect(g, s1, i, g.cards[card], dice, depth, env);
      var f := LandingFate(g, s, i, depth, multiplier);
      SameForetold(g, s, s1, r, i, total, f);
      DrawnForetold(g, s, r, DrawAndApply(g, s0, i, kind, dice, depth, env), i, total, f, card);
    } else {
      PlainForetold(g, s, i, dice, multiplier);
      PlainJail(g, s, i, dice, multiplier);
    }
  }

  lemma MeansSize(a: State, b: State, i: Seat)
    requires i < |a.players| && SameMeans(a, b, i)
    ensures |b.players| == |a.players| && b.turn == a.turn && b.bankruptcy == a.bankruptcy
  {}

  lemma DecksOf(g: Config, s: State)
    requires Good(g, s)
    ensures DeckKept(g, s.chanceDeck, g.chanceDeck) && DeckKept(g, s.chestDeck, g.chestDeck)
    ensures forall i :: 0 <= i < |s.players| ==> OnBoard(g, s.players[i].position)
  {}

  /** The card put on display, and the turn record of a jailed player, change nothing foretold. */
  lemma DrawnForetold(g: Config, s: State, r: Landed, r': Landed, i: Seat, total: int, f: Fate, card: CardId)
    requires i < |s.players| && Foretold(g, s, r, i, total, f)
    requires r'.jailed == r.jailed
    requires r'.s == r.s.(activeCard := Some(ActiveCard(card, i)),
                          turn := if r.jailed then r.s.turn.(phase := PostRoll, streak := 0) else r.s.turn)
    ensures Foretold(g, s, r', i, total, f)
  {
    hide Due, BalanceAfter;
  }

  lemma {:induction false} EffectForetold(g: Config, s: State, i: Seat, effect: Effect, dice: DiceRoll, depth: nat, env: Env)
    requires ValidConfig(g) && Good(g, s) && i < |s.players| && depth <= CARD_LANDING_RECURSION_LIMIT
    requires effect.AdvanceTo? ==> OnBoard(g, effect.position) && !IsCardSquare(g, effect.position)
    requires s.bankruptcy.None? && s.turn.pending.None?
    ensures Foretold(g, s, ApplyEffect(g, s, i, effect, dice, depth, env), i, dice.die1 + dice.die2,
                     ForetellCard(g, s.chanceDeck, s.chestDeck, s.players[i].position, s.players[i].balance, effect, depth))
    decreases CARD_LANDING_RECURSION_LIMIT - depth, 1, 0
  {
    hide ValidConfig, DeckKept, StandingEffect, CardMove, Destination, Foretold, SameMeans, Foretell, ResolveLanding;
    var total := dice.die1 + dice.die2;
    if effect.GoToJail? {
      JailForetold(g, s, i, total);
    } else if !Moves(effect) {
      StandingForetold(g, s, i, effect, total);
    } else {
      var (to, salary) := Destination(g, s.players[i].position, effect);
      CardMoveGood(g, s, i, to, salary);
      CardMoveMeans(g, s, i, to, salary);
      var (s1, ev) := CardMove(g, s, i, to, salary);
      MeansSize(s, s1, i);
      if effect.GoBack? && depth >= CARD_LANDING_RECURSION_LIMIT {
        UnresolvedForetold(g, s, s1, i, ev, total);
      } else {
        var depth' := if effect.GoBack? then depth + 1 else depth;
        var multiplier := if effect.AdvanceToNearest? && effect.payDouble then 2 else 1;
        LandingForetold(g, s1, i, dice, depth', multiplier, env);
        var r := ResolveLanding(g, s1, i, dice, depth', multiplier, env);
        var f := LandingFate(g, s1, i, depth', multiplier);
        SameForetold(g, s, s1, r, i, total, f);
        EventsForetold(g, s, r, i, total, f, ev + r.events);
      }
    }
  }

  lemma JailForetold(g: Config, s: State, i: Seat, total: int)
    requires i < |s.players| && s.bankruptcy.None? && s.turn.pending.None?
    ensures Foretold(g, s, Landed(StorePlayer(g, s, i, SendToJail(g, s.players[i])), [SentToJail(i, ByCard)], true), i, total,
                     Fate(Prison, g.jail, s.players[i].balance))
  {
    hide Assets;
  }

  lemma UnresolvedForetold(g: Config, s: State, s1: State, i: Seat, ev: seq<Event>, total: int)
    requires i < |s.players| && SameMeans(s, s1, i) && s.bankruptcy.None? && s.turn.pending.None?
    ensures Foretold(g, s, Landed(s1, ev, false), i, total, Fate(Unresolved, s1.players[i].position, s1.players[i].balance))
  {}

  lemma EventsForetold(g: Config, s: State, r: Landed, i: Seat, total: int, f: Fate, events: seq<Event>)
    requires i < |s.players| && Foretold(g, s, r, i, total, f)
    ensures Foretold(g, s, r.(events := events), i, total, f)
  {
    hide Due, BalanceAfter;
  }

  // ---------------------------------------------------------------- the roll

  /** The fate of the roller: the square the dice lead to, with the balance the forced fine and the salary leave. */
  function RollFate(g: Config, s: State, i: Seat, dice: DiceRoll): Fate
    requires ValidConfig(g) && Good(g, s) && i < |s.players|
  {
    DecksOf(g, s);
    var p := Freed(g, s, i, dice);
    var (to, passed) := AdvancePosition(g, p.position, dice.die1 + dice.die2);
    Foretell(g, s.chanceDeck, s.chestDeck, to, p.balance + if passed then g.goSalary else 0, 0, 1)
  }

  /** The phase after a roll. */
  function RolledPhase(g: Config, s: State, i: Seat, dice: DiceRoll): Phase
    requires ValidConfig(g) && Good(g, s) && i < |s.players|
  {
    var f := RollFate(g, s, i, dice);
    var phase := PhaseAfter(g, s, i, dice.die1 + dice.die2, f);
    if StaysPut(s, i, dice) then PostRoll
    else if f.stop.Prison? || phase == Bankrupting || !ExtraRoll(s, i, dice) then phase
    else if PendingAfter(g, s, f).Some? then PostRoll
    else PreRoll
  }

  /** What a roll that moves the player leaves of balances, place, debts and turn. */
  ghost predicate RolledAs(g: Config, s: State, s': State, i: Seat, dice: DiceRoll, f: Fate)
    requires i < |s.players|
  {
    var total := dice.die1 + dice.die2;
    && |s'.players| == |s.players|
    && (forall j {:trigger s'.players[j]} :: 0 <= j < |s.players| ==> s'.players[j].balance == BalanceAfter(g, s, i, total, f, j))
    && s'.players[i].position == f.position
    && s'.players[i].jail == (if f.stop.Prison? then Some(JAIL_TURNS_INITIAL) else None)
    && s'.bankruptcy == DebtAfter(g, s, i, total, f)
    && s'.turn.pending == PendingAfter(g, s, f)
  }

  lemma WalkMeans(g: Config, s: State, i: Seat, steps: int)
    requires ValidConfig(g) && Good(g, s) && i < |s.players|
    ensures var s1 := DiceWalk(g, s, i, steps).0;
            var (to, passed) := AdvancePosition(g, s.players[i].position, steps);
            && SameMeans(s, s1, i) && s1.chanceDeck == s.chanceDeck && s1.chestDeck == s.chestDeck
            && s1.players[i].position == to && s1.players[i].jail == s.players[i].jail
            && s1.players[i].balance == s.players[i].balance + if passed then g.goSalary else 0
  {
    hide ValidConfig, DeckKept, Assets;
  }

  lemma FreedMeans(g: Config, s: State, i: Seat, dice: DiceRoll)
    requires i < |s.players|
    ensures SameMeans(s, WithPlayer(s, i, Freed(g, s, i, dice)), i)
    ensures Freed(g, s, i, dice).jail.None?
  {}

  lemma TransitiveMeans(a: State, b: State, c: State, i: Seat)
    requires i < |a.players| && SameMeans(a, b, i) && SameMeans(b, c, i)
    ensures SameMeans(a, c, i)
  {}

  /** The landing of a roll that moves the player. */
  function RollLanding(g: Config, s: State, i: Seat, dice: DiceRoll, env: Env): Landed
    requires ValidConfig(g) && Good(g, s) && i < |s.players|
  {
    ResolveLanding(g, DiceWalk(g, s, i, dice.die1 + dice.die2).0, i, dice, 0, 1, env)
  }

  lemma RollLands(g: Config, s: State, i: Seat, dice: DiceRoll, env: Env)
    requires ValidConfig(g) && Good(g, s) && i < |s.players| && s.bankruptcy.None? && s.turn.pending.None?
    requires Good(g, WithPlayer(s, i, Freed(g, s, i, dice)))
    ensures var r := RollLanding(g, WithPlayer(s, i, Freed(g, s, i, dice)), i, dice, env);
            && Foretold(g, s, r, i, dice.die1 + dice.die2, RollFate(g, s, i, dice))
            && r.s.players[i].jail == (if r.jailed then Some(JAIL_TURNS_INITIAL) else None)
  {
    hide ValidConfig, Good, DiceWalk, ResolveLanding, Foretold, SameMeans, Foretell, Touches;
    var s0 := WithPlayer(s, i, Freed(g, s, i, dice));
    var total := dice.die1 + dice.die2;
    FreedMeans(g, s, i, dice);
    WalkMeans(g, s0, i, total);
    var s1 := DiceWalk(g, s0, i, total).0;
    TransitiveMeans(s, s0, s1, i);
    MeansSize(s, s1, i);
    LandingForetold(g, s1, i, dice, 0, 1, env);
    LandingTouches(g, s1, i, dice, 0, 1, env);
    DecksOf(g, s);
    assert LandingFate(g, s1, i, 0, 1) == RollFate(g, s, i, dice);
    SameForetold(g, s, s1, ResolveLanding(g, s1, i, dice, 0, 1, env), i, total, RollFate(g, s, i, dice));
  }

  /** A roll that moves the player goes as foretold, for every player's balance. */
  lemma RollForetold(g: Config, s: State, i: Seat, env: Env)
    requires ValidConfig(g) && Good(g, s) && i < |s.players| && Roll(g, s, i, env).Ok?
    requires s.bankruptcy.None? && s.turn.pending.None?
    ensures var dice := DiceOf(g, env);
            var s' := Roll(g, s, i, env).s;
            && s'.turn.phase == RolledPhase(g, s, i, dice)
            && (!StaysPut(s, i, dice) ==> RolledAs(g, s, s', i, dice, RollFate(g, s, i, dice)))
  {
    hide ValidConfig, Good, Roll, DiceWalk, ResolveLanding, Foretell, Due, Gift, Refreshed;
    RollCases(g, s, i, env);
    var dice := DiceOf(g, env);
    if !StaysPut(s, i, dice) {
      RollLands(g, s, i, dice, env);
    }
  }

  /** The rolls that leave the phase as it was: the roller is moved, not jailed and owes nothing that cannot be paid;
      and without doubles the move ends with a card that moves nobody, or a go-back card too deep to be resolved;
      with doubles it is the ordinary extra roll. */
  predicate Lingers(g: Config, s: State, i: Seat, dice: DiceRoll)
    requires ValidConfig(g) && Good(g, s) && i < |s.players|
  {
    var f := RollFate(g, s, i, dice);
    && !StaysPut(s, i, dice) && !f.stop.Prison? && !Defaults(g, s, i, dice.die1 + dice.die2, f)
    && (if ExtraRoll(s, i, dice) then s.turn.phase == PreRoll && PendingAfter(g, s, f).None?
        else f.stop.Card? || f.stop.Unresolved?)
  }

  lemma PhaseKept(g: Config, s: State, i: Seat, env: Env)
    requires ValidConfig(g) && Good(g, s) && i < |s.players| && Roll(g, s, i, env).Ok?
    requires s.bankruptcy.None? && s.turn.pending.None?
    ensures Roll(g, s, i, env).s.turn.phase == s.turn.phase <==> Lingers(g, s, i, DiceOf(g, env))
  {
    hide ValidConfig, Good, Roll, RollFate, Due, RolledAs;
    RollCases(g, s, i, env);
    RollForetold(g, s, i, env);
  }
}
