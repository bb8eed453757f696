/** One landing, however many cards it draws: the walk its events describe, its ledger, the fresh
    net worths, the conservation of jail cards, and the bound on the number of draws. */
module LandingChain {
  import opened GameTypes
  import opened Seqs
  import opened Soundness
  import opened Worth
  import opened Payments
  import opened Landing
  import opened LandingMoney

  // ---------------------------------------------------------------- the walk an event list describes

  /** Follows the moves of player `i` from square `from`; `None` if a move starts elsewhere. */
  function Replay(events: seq<Event>, i: Seat, from: int): Option<int> {
    if events == [] then Some(from)
    else if events[0].PlayerMoved? && events[0].player == i then
      if events[0].from == from then Replay(events[1..], i, events[0].to) else None
    else Replay(events[1..], i, from)
  }

  lemma {:induction false} ReplayConcat(a: seq<Event>, b: seq<Event>, i: Seat, from: int)
    ensures Replay(a + b, i, from)
            == if Replay(a, i, from).Some? then Replay(b, i, Replay(a, i, from).value) else None
  {
    if a == [] {
      assert a + b == b;
    } else {
      assert (a + b)[1..] == a[1..] + b;
      ReplayConcat(a[1..], b, i, if a[0].PlayerMoved? && a[0].player == i then a[0].to else from);
    }
  }

  predicate SaysJailed(events: seq<Event>, i: Seat) {
    exists k :: 0 <= k < |events| && events[k].SentToJail? && events[k].player == i
  }

  /** Every move and every imprisonment in the list is player `i`'s. */
  predicate MovesOnly(events: seq<Event>, i: Seat) {
    forall k :: 0 <= k < |events| && (events[k].PlayerMoved? || events[k].SentToJail?) ==> events[k].player == i
  }

  function Draws(events: seq<Event>): nat {
    if events == [] then 0 else (if events[0].CardDrawn? then 1 else 0) + Draws(events[1..])
  }

  lemma {:induction false} DrawsConcat(a: seq<Event>, b: seq<Event>)
    ensures Draws(a + b) == Draws(a) + Draws(b)
  {
    if a == [] {
      assert a + b == b;
    } else {
      assert (a + b)[1..] == a[1..] + b;
      DrawsConcat(a[1..], b);
    }
  }

  // ---------------------------------------------------------------- jail cards

  function JailsIn(g: Config, deck: seq<CardId>): nat {
    if deck == [] then 0 else JailsIn(g, deck[..|deck| - 1]) + (if IsJailCard(g, deck[|deck| - 1]) then 1 else 0)
  }

  lemma {:induction false} JailsInFront(g: Config, deck: seq<CardId>)
    requires deck != []
    ensures JailsIn(g, deck) == JailsIn(g, deck[1..]) + (if IsJailCard(g, deck[0]) then 1 else 0)
  {
    if |deck| > 1 {
      var n := |deck| - 1;
      JailsInFront(g, deck[..n]);
      assert deck[..n][1..] == deck[1..][..n - 1];
    }
  }

  function Hands(players: seq<Player>): (r: seq<int>)
    ensures |r| == |players|
    ensures forall i :: 0 <= i < |r| ==> r[i] == players[i].jailCards
  {
    seq(|players|, i requires 0 <= i < |players| => players[i].jailCards)
  }

  /** All get-out-of-jail-free cards: in the decks and in players' hands. */
  function JailTotal(g: Config, s: State): int {
    Sum(Hands(s.players)) + JailsIn(g, s.chanceDeck) + JailsIn(g, s.chestDeck)
  }

  lemma HandsSame(g: Config, a: State, b: State)
    requires |a.players| == |b.players| && a.chanceDeck == b.chanceDeck && a.chestDeck == b.chestDeck
    requires forall i :: 0 <= i < |a.players| ==> a.players[i].jailCards == b.players[i].jailCards
    ensures JailTotal(g, a) == JailTotal(g, b)
  {
    assert Hands(a.players) == Hands(b.players);
  }

  /** A drawn jail card leaves its deck; any other card goes to the bottom. */
  lemma DrawJails(g: Config, deck: seq<CardId>, reshuffled: seq<CardId>)
    requires deck != []
    ensures JailsIn(g, DrawFrom(g, deck, reshuffled).0)
            == JailsIn(g, deck) - (if IsJailCard(g, DrawFrom(g, deck, reshuffled).1) then 1 else 0)
  {
    JailsInFront(g, deck);
    assert (deck[1..] + [deck[0]])[..|deck| - 1] == deck[1..];
  }

  // ---------------------------------------------------------------- the laws of a landing

  /** What the events of a landing from `s` say about its result.  `extra` is the number of jail cards
      gained and `due` the money flow of the card being applied, which an earlier event announced;
      `draws` bounds the cards drawn. */
  ghost predicate Chain(g: Config, s: State, r: Landed, i: Seat, extra: int, due: int, draws: int)
    requires i < |s.players| && i < |r.s.players|
  {
    && MovesOnly(r.events, i)
    && Replay(r.events, i, s.players[i].position).Some?
    && (!r.jailed ==> Replay(r.events, i, s.players[i].position).value == r.s.players[i].position)
    && (r.jailed <==> SaysJailed(r.events, i))
    && (r.jailed ==> r.s.players[i].position == g.jail)
    && WorthFresh(g, r.s)
    && Money(r.s) == Money(s) + Flow(g, s, r.events, r.s.bankruptcy.Some?) + due
    && JailTotal(g, r.s) == JailTotal(g, s) + extra
    && Draws(r.events) <= draws
  }

  /** The result of `LandOnPlainSquare` has no moves, and at most one event, about `i`. */
  lemma PlainChain(g: Config, s: State, i: Seat, dice: DiceRoll, multiplier: int)
    requires ValidConfig(g) && Good(g, s) && i < |s.players| && s.bankruptcy.None?
    ensures |LandOnPlainSquare(g, s, i, dice, multiplier).s.players| == |s.players|
    ensures Chain(g, s, LandOnPlainSquare(g, s, i, dice, multiplier), i, 0, 0, 0)
  {
    hide ValidConfig, DeckKept, CalculateRent, LandAndPay, LandFreely, LandOnGotoJail, Flow, Money, JailTotal, WorthFresh;
    PlainLedger(g, s, i, dice, multiplier);
    PlainGood(g, s, i, dice, multiplier) by { ConfigJail(g); }
    var pos := s.players[i].position;
    var space := SpaceAt(g, pos);
    var t := TileAt(s.tiles, pos);
    var r := LandOnPlainSquare(g, s, i, dice, multiplier);
    if space.corner == Some(GotoJail) {
      JailFresh(g, s, i);
      JailEvent(i, BySpace, pos);
    } else if space.kind == Tax && space.tax.Some? {
      PayFresh(g, s, i, None, space.tax.value, PostRoll, TaxPaid(i, pos, space.tax.value));
      QuietEvent(TaxPaid(i, pos, space.tax.value), i, pos);
    } else if IsPurchasable(g, pos) && t.owner.Some? && t.owner.value != i && !t.mortgaged {
      var rent := CalculateRent(g, s.tiles, pos, dice.die1 + dice.die2, multiplier);
      PayFresh(g, s, i, t.owner, rent, MustPayRent, RentPaid(i, t.owner.value, pos, rent));
      QuietEvent(RentPaid(i, t.owner.value, pos, rent), i, pos);
    } else {
      FreelyFresh(g, s, i);
    }
  }

  lemma JailEvent(i: Seat, reason: JailReason, from: int)
    ensures var ev := [SentToJail(i, reason)];
            MovesOnly(ev, i) && SaysJailed(ev, i) && Replay(ev, i, from) == Some(from) && Draws(ev) == 0
  {
    var ev := [SentToJail(i, reason)];
    assert ev[0].SentToJail? && ev[0].player == i;
    assert ev[1..] == [];
  }

  lemma QuietEvent(e: Event, i: Seat, from: int)
    requires !e.PlayerMoved? && !e.SentToJail? && !e.CardDrawn?
    ensures MovesOnly([e], i) && !SaysJailed([e], i) && Replay([e], i, from) == Some(from) && Draws([e]) == 0
  {
    assert [e][1..] == [];
  }

  lemma ConfigJail(g: Config)
    requires ValidConfig(g)
    ensures OnBoard(g, g.jail)
  {}

  lemma JailFresh(g: Config, s: State, i: Seat)
    requires i < |s.players|
    ensures var r := LandOnGotoJail(g, s, i);
            WorthFresh(g, r.s) && JailTotal(g, r.s) == JailTotal(g, s) && |r.s.players| == |s.players|
            && r.s.players[i].position == g.jail && r.jailed && r.events == [SentToJail(i, BySpace)]
  {
    hide Assets, JailTotal;
    HandsSame(g, s, LandOnGotoJail(g, s, i).s);
  }

  lemma FreelyFresh(g: Config, s: State, i: Seat)
    requires i < |s.players|
    ensures var r := LandFreely(g, s, i);
            WorthFresh(g, r.s) && JailTotal(g, r.s) == JailTotal(g, s) && |r.s.players| == |s.players|
            && r.s.players[i].position == s.players[i].position && !r.jailed && r.events == []
  {
    hide Assets, JailTotal;
    HandsSame(g, s, LandFreely(g, s, i).s);
  }

  /** A payment keeps net worths fresh and everything but money where it is. */
  lemma PaymentFresh(g: Config, s: State, i: Seat, creditor: Option<Seat>, amount: int)
    requires i < |s.players| && WorthFresh(g, s)
    requires creditor.Some? ==> creditor.value < |s.players|
    ensures var s' := AttemptPayment(g, s, i, creditor, amount);
            WorthFresh(g, s') && JailTotal(g, s') == JailTotal(g, s) && |s'.players| == |s.players|
            && s'.players[i].position == s.players[i].position
  {
    hide Assets, JailTotal;
    HandsSame(g, s, AttemptPayment(g, s, i, creditor, amount));
  }

  lemma PayFresh(g: Config, s: State, i: Seat, creditor: Option<Seat>, amount: int, phase: Phase, event: Event)
    requires i < |s.players|
    requires creditor.Some? ==> creditor.value < |s.players|
    ensures var r := LandAndPay(g, s, i, creditor, amount, phase, event);
            WorthFresh(g, r.s) && JailTotal(g, r.s) == JailTotal(g, s) && |r.s.players| == |s.players|
            && r.s.players[i].position == s.players[i].position && !r.jailed
            && (r.events == [] || r.events == [event])
  {
    hide Assets, JailTotal, AttemptPayment;
    var s0 := Refresh(g, s);
    HandsSame(g, s, s0);
    PaymentFresh(g, s0, i, creditor, amount);
    HandsSame(g, AttemptPayment(g, s0, i, creditor, amount), LandAndPay(g, s, i, creditor, amount, phase, event).s);
  }

  lemma StoreFresh(g: Config, s: State, i: Seat, p: Player)
    requires i < |s.players|
    ensures var s' := StorePlayer(g, s, i, p);
            WorthFresh(g, s') && JailTotal(g, s') == JailTotal(g, s) - s.players[i].jailCards + p.jailCards
            && |s'.players| == |s.players| && s'.players[i].position == p.position
  {
    hide Assets, Sum;
    SumUpdate(Hands(s.players), i, p.jailCards);
    assert Hands(StorePlayer(g, s, i, p).players) == Hands(s.players)[i := p.jailCards];
  }

  lemma BetweenFresh(g: Config, s: State, i: Seat, amount: int)
    requires i < |s.players| && WorthFresh(g, s)
    ensures forall s' | s' == CollectFromAll(g, s, i, amount) || s' == PayToAll(g, s, i, amount) ::
              WorthFresh(g, s') && JailTotal(g, s') == JailTotal(g, s) && |s'.players| == |s.players|
              && s'.players[i].position == s.players[i].position
  {
    hide Assets, JailTotal, Contributions, ActiveOthers;
    HandsSame(g, s, CollectFromAll(g, s, i, amount));
    HandsSame(g, s, PayToAll(g, s, i, amount));
  }

  lemma StandingFresh(g: Config, s: State, i: Seat, effect: Effect)
    requires i < |s.players| && WorthFresh(g, s) && !Moves(effect) && !effect.GoToJail?
    ensures var s' := StandingEffect(g, s, i, effect);
            WorthFresh(g, s') && |s'.players| == |s.players| && s'.players[i].position == s.players[i].position
            && JailTotal(g, s') == JailTotal(g, s) + (if effect == GetOutOfJailFree then 1 else 0)
  {
    hide WorthFresh, JailTotal, AttemptPayment, CollectFromAll, PayToAll, StorePlayer, RepairsCost;
    var p := s.players[i];
    match effect
    case Collect(amount) => StoreFresh(g, s, i, p.(balance := p.balance + amount));
    case GetOutOfJailFree => StoreFresh(g, s, i, p.(jailCards := p.jailCards + 1));
    case Pay(amount) => PaymentFresh(g, s, i, None, amount);
    case CollectFromEach(amount) => BetweenFresh(g, s, i, amount);
    case PayEach(amount) => BetweenFresh(g, s, i, amount);
    case Repairs(perHouse, perHotel) => PaymentFresh(g, s, i, None, RepairsCost(s.tiles, p.owned, perHouse, perHotel));
  }

  lemma MoveFresh(g: Config, s: State, i: Seat, to: int, salary: bool)
    requires i < |s.players|
    ensures var s' := CardMove(g, s, i, to, salary).0;
            WorthFresh(g, s') && JailTotal(g, s') == JailTotal(g, s) && |s'.players| == |s.players|
            && s'.players[i].position == to && s'.bankruptcy == s.bankruptcy && s'.tiles == s.tiles
            && (forall j :: 0 <= j < |s.players| ==> s'.players[j].owned == s.players[j].owned)
    ensures var ev := CardMove(g, s, i, to, salary).1;
            MovesOnly(ev, i) && Replay(ev, i, s.players[i].position) == Some(to) && !SaysJailed(ev, i) && Draws(ev) == 0
  {
    hide Assets, JailTotal, Replay, Draws, MovesOnly, SaysJailed;
    var p := s.players[i];
    var s1 := StorePlayer(g, s, i, p.(position := to));
    StoreFresh(g, s, i, p.(position := to));
    HandsSame(g, s1, CardMove(g, s, i, to, salary).0);
    var ev := CardMove(g, s, i, to, salary).1;
    MoveThenSalary(i, p.position, to, 0, true, g.goSalary, salary);
    assert ev == [PlayerMoved(i, p.position, to, 0, true)] + (if salary then [PassedGo(i, g.goSalary)] else []);
  }

  /** A move, with the salary for passing GO behind it. */
  lemma MoveThenSalary(i: Seat, from: int, to: int, steps: int, byCard: bool, amount: int, salary: bool)
    ensures var ev := [PlayerMoved(i, from, to, steps, byCard)] + (if salary then [PassedGo(i, amount)] else []);
            MovesOnly(ev, i) && Replay(ev, i, from) == Some(to) && !SaysJailed(ev, i) && Draws(ev) == 0
  {
    var rest := if salary then [PassedGo(i, amount)] else [];
    var ev := [PlayerMoved(i, from, to, steps, byCard)] + rest;
    assert ev[1..] == rest;
    if salary {
      QuietEvent(PassedGo(i, amount), i, to);
    }
  }

  /** A landing and its prefix of events chain together. */
  lemma ChainConcat(g: Config, s: State, s1: State, ev: seq<Event>, r: Landed, i: Seat, extra: int, due: int, draws: int)
    requires i < |s.players| && |s1.players| == |s.players| && i < |r.s.players|
    requires Chain(g, s1, r, i, extra, due, draws)
    requires MovesOnly(ev, i) && !SaysJailed(ev, i) && Draws(ev) == 0
    requires Replay(ev, i, s.players[i].position) == Some(s1.players[i].position)
    requires JailTotal(g, s1) == JailTotal(g, s) && s1.tiles == s.tiles
    requires forall j :: 0 <= j < |s.players| ==> s1.players[j].owned == s.players[j].owned
    requires Money(s1) == Money(s) + Flow(g, s, ev, r.s.bankruptcy.Some?)
    ensures Chain(g, s, r.(events := ev + r.events), i, extra, due, draws)
  {
    hide JailTotal, Money, Flow, WorthFresh, Draws, Replay;
    ReplayConcat(ev, r.events, i, s.players[i].position);
    DrawsConcat(ev, r.events);
    FlowConcat(g, s, ev, r.events, r.s.bankruptcy.Some?);
    FlowFrame(g, s, s1, r.events, r.s.bankruptcy.Some?);
    var all := ev + r.events;
    if SaysJailed(r.events, i) {
      var k :| 0 <= k < |r.events| && r.events[k].SentToJail? && r.events[k].player == i;
      assert all[|ev| + k] == r.events[k];
    }
  }

  /** Drawing the card that `r` applies. */
  lemma ChainDraw(g: Config, s: State, s0: State, s1: State, i: Seat, card: CardId, r: Landed, r': Landed, draws: int)
    requires i < |s.players| && MoneyOnly(s, s0) && Money(s0) == Money(s)
    requires s1 == s0.(chanceDeck := s1.chanceDeck, chestDeck := s1.chestDeck)
    requires JailTotal(g, s1) == JailTotal(g, s) - (if IsJailCard(g, card) then 1 else 0)
    requires i < |r.s.players| && card in g.cards
    requires Chain(g, s1, r, i, if IsJailCard(g, card) then 1 else 0,
                   EventFlow(g, s1, CardDrawn(i, card), r.s.bankruptcy.Some?), draws)
    requires r'.jailed == r.jailed && r'.events == [CardDrawn(i, card)] + r.events
    requires r'.s == r.s.(activeCard := r'.s.activeCard, turn := r'.s.turn)
    ensures Chain(g, s, r', i, 0, 0, draws + 1)
  {
    hide Flow, EventFlow, Assets, Sum, JailsIn;
    var all := [CardDrawn(i, card)] + r.events;
    var unpaid := r.s.bankruptcy.Some?;
    assert all[1..] == r.events;
    FlowConcat(g, s1, [CardDrawn(i, card)], r.events, unpaid);
    FlowOne(g, s1, CardDrawn(i, card), unpaid);
    FlowFrame(g, s, s1, all, unpaid);
    if SaysJailed(r.events, i) {
      var k :| 0 <= k < |r.events| && r.events[k].SentToJail? && r.events[k].player == i;
      assert all[1 + k] == r.events[k];
    }
    assert Money(s1) == Money(s) && Money(r'.s) == Money(r.s);
    assert JailTotal(g, r'.s) == JailTotal(g, r.s);
  }

  /** How many cards a landing at this recursion depth can still draw. */
  function DrawBound(g: Config, p: int, depth: nat): int {
    if IsCardSquare(g, p) then CARD_LANDING_RECURSION_LIMIT + 1 - depth else 0
  }

  lemma DrawStep(g: Config, s: State, kind: CardKind, env: Env)
    requires ValidConfig(g) && Good(g, s)
    requires kind == ChanceKind ==> s.chanceDeck != []
    requires kind == ChestKind ==> s.chestDeck != []
    ensures var r := DrawCard(g, s, kind, env);
            JailTotal(g, r.0) == JailTotal(g, s) - (if IsJailCard(g, r.1) then 1 else 0)
  {
    hide ValidConfig, Good, Sum, JailsIn, DrawFrom;
    if kind == ChanceKind {
      DrawJails(g, s.chanceDeck, env.chanceShuffle);
    } else {
      DrawJails(g, s.chestDeck, env.chestShuffle);
    }
  }

  lemma {:induction false} LandingChains(g: Config, s: State, i: Seat, dice: DiceRoll, depth: nat, multiplier: int, env: Env)
    requires ValidConfig(g) && Good(g, s) && i < |s.players| && depth <= CARD_LANDING_RECURSION_LIMIT
    requires s.bankruptcy.None?
    ensures Chain(g, s, ResolveLanding(g, s, i, dice, depth, multiplier, env), i, 0, 0,
                  DrawBound(g, s.players[i].position, depth))
    decreases CARD_LANDING_RECURSION_LIMIT - depth, Rank(g, s.players[i].position)
  {
    hide ValidConfig, Good, LandOnPlainSquare, Chain, DrawCard, JailTotal, Money;
    var pos := s.players[i].position;
    if IsCardSquare(g, pos) && SpaceAt(g, pos).corner != Some(GotoJail) {
      var kind := if SpaceAt(g, pos).kind == Chance then ChanceKind else ChestKind;
      var s0 := Refresh(g, s);
      CardSquareDeck(g, s, i);
      MoneyOnlyGood(g, s, s0);
      RefreshLedger(g, s);
      HandsSame(g, s, s0);
      DrawStep(g, s0, kind, env);
      var (s1, card) := DrawCard(g, s0, kind, env);
      EffectChains(g, s1, i, card, dice, depth, env);
      ChainDraw(g, s, s0, s1, i, card, ApplyEffect(g, s1, i, g.cards[card], dice, depth, env),
                DrawAndApply(g, s0, i, kind, dice, depth, env), CARD_LANDING_RECURSION_LIMIT - depth);
    } else {
      PlainChain(g, s, i, dice, multiplier);
      ChainWeaken(g, s, LandOnPlainSquare(g, s, i, dice, multiplier), i, 0, 0, 0, DrawBound(g, pos, depth));
    }
  }

  lemma ChainWeaken(g: Config, s: State, r: Landed, i: Seat, extra: int, due: int, draws: int, draws': int)
    requires i < |s.players| && i < |r.s.players| && Chain(g, s, r, i, extra, due, draws) && draws <= draws'
    ensures Chain(g, s, r, i, extra, due, draws')
  {}

  lemma {:induction false} EffectChains(g: Config, s: State, i: Seat, card: CardId, dice: DiceRoll, depth: nat, env: Env)
    requires ValidConfig(g) && Good(g, s) && i < |s.players| && depth <= CARD_LANDING_RECURSION_LIMIT
    requires CardOk(g, card)
    requires s.bankruptcy.None? && WorthFresh(g, s)
    ensures var r := ApplyEffect(g, s, i, g.cards[card], dice, depth, env);
            Chain(g, s, r, i, if IsJailCard(g, card) then 1 else 0,
                  EventFlow(g, s, CardDrawn(i, card), r.s.bankruptcy.Some?), CARD_LANDING_RECURSION_LIMIT - depth)
    decreases CARD_LANDING_RECURSION_LIMIT - depth, 1, 0
  {
    hide ValidConfig, DeckKept, StandingEffect, CardMove, Destination, JailTotal, Money, Flow, WorthFresh, Chain;
    var effect := g.cards[card];
    var r := ApplyEffect(g, s, i, effect, dice, depth, env);
    var draws := CARD_LANDING_RECURSION_LIMIT - depth;
    if effect.GoToJail? {
      CardJailChain(g, s, i, draws);
    } else if !Moves(effect) {
      StandingChain(g, s, i, card, draws);
    } else {
      var (to, salary) := Destination(g, s.players[i].position, effect);
      CardMoveGood(g, s, i, to, salary);
      MoveFresh(g, s, i, to, salary);
      MoveMoney(g, s, i, to, salary, r.s.bankruptcy.Some?);
      var (s1, ev) := CardMove(g, s, i, to, salary);
      if effect.GoBack? && depth >= CARD_LANDING_RECURSION_LIMIT {
        MoveChain(g, s, s1, i, ev, draws);
      } else {
        var depth' := if effect.GoBack? then depth + 1 else depth;
        var multiplier := if effect.AdvanceToNearest? && effect.payDouble then 2 else 1;
        LandingChains(g, s1, i, dice, depth', multiplier, env);
        var r1 := ResolveLanding(g, s1, i, dice, depth', multiplier, env);
        ChainConcat(g, s, s1, ev, r1, i, 0, 0, DrawBound(g, to, depth'));
        ChainWeaken(g, s, r, i, 0, 0, DrawBound(g, to, depth'), draws);
      }
    }
  }

  lemma CardJailChain(g: Config, s: State, i: Seat, draws: nat)
    requires i < |s.players|
    ensures Chain(g, s, Landed(StorePlayer(g, s, i, SendToJail(g, s.players[i])), [SentToJail(i, ByCard)], true), i, 0, 0, draws)
  {
    hide JailTotal, WorthFresh;
    var ev := [SentToJail(i, ByCard)];
    var p := SendToJail(g, s.players[i]);
    StoreFresh(g, s, i, p);
    StoreMoney(g, s, i, p);
    FlowOne(g, s, SentToJail(i, ByCard), StorePlayer(g, s, i, p).bankruptcy.Some?);
    JailEvent(i, ByCard, s.players[i].position);
  }

  lemma StandingChain(g: Config, s: State, i: Seat, card: CardId, draws: nat)
    requires i < |s.players| && s.bankruptcy.None? && card in g.cards && WorthFresh(g, s)
    requires !Moves(g.cards[card]) && !g.cards[card].GoToJail?
    ensures var s' := StandingEffect(g, s, i, g.cards[card]);
            |s'.players| == |s.players|
            && Chain(g, s, Landed(s', [], false), i, if IsJailCard(g, card) then 1 else 0,
                     EventFlow(g, s, CardDrawn(i, card), s'.bankruptcy.Some?), draws)
  {
    hide JailTotal, WorthFresh, Money, EventFlow, StandingEffect;
    StandingFresh(g, s, i, g.cards[card]);
    StandingLedger(g, s, i, card);
  }

  lemma MoveChain(g: Config, s: State, s1: State, i: Seat, ev: seq<Event>, draws: nat)
    requires i < |s.players| && |s1.players| == |s.players|
    requires MovesOnly(ev, i) && !SaysJailed(ev, i) && Draws(ev) == 0
    requires Replay(ev, i, s.players[i].position) == Some(s1.players[i].position)
    requires JailTotal(g, s1) == JailTotal(g, s) && WorthFresh(g, s1)
    requires Money(s1) == Money(s) + Flow(g, s, ev, s1.bankruptcy.Some?)
    ensures Chain(g, s, Landed(s1, ev, false), i, 0, 0, draws)
  {}
}
