/** `rules/movement.py` and `rules/cards.py`, which recurse into each other. */
module Landing {
  import opened GameTypes
  import opened Seqs
  import opened Soundness
  import opened Worth
  import opened Payments

  // ---------------------------------------------------------------- movement

  /** `advance_position`: the new square and whether GO was passed. */
  function AdvancePosition(g: Config, from: int, steps: int): (int, bool)
    requires |g.board| > 0
  {
    ((from - 1 + steps) % |g.board| + 1, from - 1 + steps >= |g.board|)
  }

  /** `_steps_to`. */
  function StepsTo(g: Config, from: int, to: int): int {
    if to >= from then to - from else |g.board| - from + to
  }

  /** Walking `_steps_to` squares reaches the target, passing GO exactly when it lies behind. */
  lemma StepsReach(g: Config, from: int, to: int)
    requires OnBoard(g, from) && OnBoard(g, to)
    ensures AdvancePosition(g, from, StepsTo(g, from, to)) == (to, to < from)
  {
    ModOnce(from - 1 + StepsTo(g, from, to), |g.board|);
  }

  /** `nearest_position`, as a search from `steps` squares ahead. */
  function NearestFrom(g: Config, from: int, targets: set<int>, steps: nat): (p: int)
    requires 0 < |g.board|
    requires OnBoard(g, from)
    requires 1 <= steps <= |g.board|
    requires exists k :: steps <= k <= |g.board| && AdvancePosition(g, from, k).0 in targets
    ensures p in targets
    decreases |g.board| - steps
  {
    var p := AdvancePosition(g, from, steps).0;
    if p in targets then p else NearestFrom(g, from, targets, steps + 1)
  }

  lemma TargetReachable(g: Config, from: int, targets: set<int>, p: int)
    requires OnBoard(g, from) && OnBoard(g, p) && p in targets
    ensures exists k :: 1 <= k <= |g.board| && AdvancePosition(g, from, k).0 in targets
  {
    var k := if p > from then p - from else |g.board| - from + p;
    ModOnce(from - 1 + k, |g.board|);
    assert AdvancePosition(g, from, k).0 == p;
  }

  function Nearest(g: Config, from: int, targets: set<int>): (p: int)
    requires OnBoard(g, from)
    requires exists q :: q in targets && OnBoard(g, q)
    ensures p in targets
  {
    assert exists k :: 1 <= k <= |g.board| && AdvancePosition(g, from, k).0 in targets by {
      var q :| q in targets && OnBoard(g, q);
      TargetReachable(g, from, targets, q);
    }
    NearestFrom(g, from, targets, 1)
  }

  function SendToJail(g: Config, p: Player): Player {
    p.(position := g.jail, jail := Some(JAIL_TURNS_INITIAL))
  }

  /** `_set_player`: stores the player and refreshes every net worth. */
  function StorePlayer(g: Config, s: State, i: Seat, p: Player): State
    requires i < |s.players|
  {
    s.(players := RefreshAll(g, s.tiles, s.players[i := p]))
  }

  function Refresh(g: Config, s: State): State {
    s.(players := RefreshAll(g, s.tiles, s.players))
  }

  /** `apply_go_salary`. */
  function GoSalary(g: Config, s: State, i: Seat, passed: bool): (State, seq<Event>)
    requires i < |s.players|
  {
    if passed then (Credited(g, s, i, g.goSalary), [PassedGo(i, g.goSalary)]) else (s, [])
  }

  // ---------------------------------------------------------------- decks

  /** `draw_card` on one deck: the deck afterwards and the card drawn. */
  function DrawFrom(g: Config, deck: seq<CardId>, reshuffled: seq<CardId>): (seq<CardId>, CardId)
    requires deck != [] || reshuffled != []
  {
    var d := if deck == [] then reshuffled else deck;
    (if IsJailCard(g, d[0]) then d[1..] else d[1..] + [d[0]], d[0])
  }

  lemma DrawKeepsDeck(g: Config, deck: seq<CardId>, full: seq<CardId>, reshuffled: seq<CardId>)
    requires DeckKept(g, deck, full) && deck != []
    ensures DeckKept(g, DrawFrom(g, deck, reshuffled).0, full)
    ensures CardOk(g, DrawFrom(g, deck, reshuffled).1)
  {
    assert deck == [deck[0]] + deck[1..];
  }

  function DrawCard(g: Config, s: State, kind: CardKind, env: Env): (r: (State, CardId))
    requires Good(g, s)
    requires kind == ChanceKind ==> s.chanceDeck != []
    requires kind == ChestKind ==> s.chestDeck != []
    ensures Good(g, r.0) && CardOk(g, r.1)
    ensures r.0 == s.(chanceDeck := r.0.chanceDeck, chestDeck := r.0.chestDeck)
  {
    if kind == ChanceKind then
      DrawKeepsDeck(g, s.chanceDeck, g.chanceDeck, env.chanceShuffle);
      var d := DrawFrom(g, s.chanceDeck, env.chanceShuffle);
      (s.(chanceDeck := d.0), d.1)
    else
      DrawKeepsDeck(g, s.chestDeck, g.chestDeck, env.chestShuffle);
      var d := DrawFrom(g, s.chestDeck, env.chestShuffle);
      (s.(chestDeck := d.0), d.1)
  }

  // ---------------------------------------------------------------- card effects without movement

  /** What `other` hands over to a player who collects `amount` from each. */
  function Contribution(players: seq<Player>, i: Seat, j: nat, amount: int): int
    requires j < |players|
  {
    if j == i || players[j].bankrupt then 0
    else if amount < players[j].balance then amount else players[j].balance
  }

  /** Total of the first `k` contributions. */
  function Contributions(players: seq<Player>, i: Seat, amount: int, k: nat): int
    requires k <= |players|
  {
    if k == 0 then 0 else Contributions(players, i, amount, k - 1) + Contribution(players, i, k - 1, amount)
  }

  function CollectFromAll(g: Config, s: State, i: Seat, amount: int): State
    requires i < |s.players|
  {
    var total := Contributions(s.players, i, amount, |s.players|);
    s.(players := seq(|s.players|, j requires 0 <= j < |s.players| =>
      var p := s.players[j];
      if j == i then Refreshed(g, s.tiles, p.(balance := p.balance + total))
      else if p.bankrupt then p
      else Refreshed(g, s.tiles, p.(balance := p.balance - Contribution(s.players, i, j, amount)))))
  }

  /** Number of active players other than `i` among the first `k`. */
  function ActiveOthers(players: seq<Player>, i: Seat, k: nat): nat
    requires k <= |players|
  {
    if k == 0 then 0
    else ActiveOthers(players, i, k - 1) + (if k - 1 == i || players[k - 1].bankrupt then 0 else 1)
  }

  function PayToAll(g: Config, s: State, i: Seat, amount: int): State
    requires i < |s.players|
  {
    var total := amount * ActiveOthers(s.players, i, |s.players|);
    Refresh(g, s.(players := seq(|s.players|, j requires 0 <= j < |s.players| =>
      var p := s.players[j];
      if j == i then p.(balance := p.balance - total)
      else if p.bankrupt then p
      else p.(balance := p.balance + amount))))
  }

  function RepairsCost(tiles: seq<Tile>, owned: seq<int>, perHouse: int, perHotel: int): int {
    if owned == [] then 0
    else
      var t := TileAt(tiles, owned[|owned| - 1]);
      RepairsCost(tiles, owned[..|owned| - 1], perHouse, perHotel)
      + (if t.hasHotel then perHotel else perHouse * t.houses)
  }

  /** The effects that neither move nor jail the player. */
  function StandingEffect(g: Config, s: State, i: Seat, effect: Effect): State
    requires i < |s.players|
  {
    var p := s.players[i];
    match effect
    case Collect(amount) => StorePlayer(g, s, i, p.(balance := p.balance + amount))
    case Pay(amount) => AttemptPayment(g, s, i, None, amount)
    case CollectFromEach(amount) => CollectFromAll(g, s, i, amount)
    case PayEach(amount) => PayToAll(g, s, i, amount)
    case GetOutOfJailFree => StorePlayer(g, s, i, p.(jailCards := p.jailCards + 1))
    case Repairs(perHouse, perHotel) =>
      AttemptPayment(g, s, i, None, RepairsCost(s.tiles, p.owned, perHouse, perHotel))
    case _ => s
  }

  // ---------------------------------------------------------------- what money operations leave alone

  /** `b` is `a` with other balances and net worths. */
  ghost predicate MoneyOnly(a: State, b: State) {
    && |a.players| == |b.players|
    && b == a.(players := b.players)
    && (forall j :: 0 <= j < |a.players| ==>
          b.players[j] == a.players[j].(balance := b.players[j].balance, netWorth := b.players[j].netWorth))
  }

  /** A payment moves money, or opens a bankruptcy for the whole amount. */
  ghost predicate PaymentOnly(a: State, b: State, payer: Seat, creditor: Option<Seat>, amount: int)
    requires payer < |a.players|
  {
    || MoneyOnly(a, b)
    || (amount > 0 && a.players[payer].balance < amount && a.bankruptcy.None?
        && b == a.(bankruptcy := Some(Bankruptcy(payer, creditor, amount)), turn := a.turn.(phase := Bankrupting)))
  }

  lemma PaymentFrame(g: Config, s: State, payer: Seat, creditor: Option<Seat>, amount: int)
    requires payer < |s.players|
    requires creditor.Some? ==> creditor.value < |s.players|
    ensures PaymentOnly(s, AttemptPayment(g, s, payer, creditor, amount), payer, creditor, amount)
  {}

  lemma TransferFrame(g: Config, s: State, payer: Seat, creditor: Option<Seat>, amount: int)
    requires payer < |s.players|
    requires creditor.Some? ==> creditor.value < |s.players|
    ensures MoneyOnly(s, Transfer(g, s, payer, creditor, amount))
  {
    hide Assets;
  }

  lemma GoodFrame(g: Config, s: State, s': State)
    requires Good(g, s)
    requires s'.tiles == s.tiles && s'.chanceDeck == s.chanceDeck && s'.chestDeck == s.chestDeck
    requires |s'.players| == |s.players|
    requires GoodPlayers(g, s'.players) && GoodRefs(g, s')
    ensures Good(g, s')
  {}

  lemma MoneyOnlyGood(g: Config, s: State, s': State)
    requires Good(g, s) && MoneyOnly(s, s')
    ensures Good(g, s')
  {
    GoodFrame(g, s, s');
  }

  // ---------------------------------------------------------------- landing

  datatype Landed = Landed(s: State, events: seq<Event>, jailed: bool)

  /** Rank of a landing in the termination measure: only card squares lead to a further landing. */
  function Rank(g: Config, p: int): nat {
    if IsCardSquare(g, p) then 2 else 0
  }

  /** Landing on the go-to-jail corner. */
  function LandOnGotoJail(g: Config, s: State, i: Seat): Landed
    requires i < |s.players|
  {
    Landed(Refresh(g, WithPlayer(s, i, SendToJail(g, s.players[i])).(turn := s.turn.(pending := None, phase := PostRoll))),
           [SentToJail(i, BySpace)], true)
  }

  /** A payment due on landing: once paid the turn enters `phase` and `event` announces the payment.
      (Every net worth is fresh at that point, so the refresh the source repeats after a tax is
      the identity: see `LandingChain.PayFresh`.) */
  function LandAndPay(g: Config, s: State, i: Seat, creditor: Option<Seat>, amount: int, phase: Phase, event: Event): Landed
    requires i < |s.players|
    requires creditor.Some? ==> creditor.value < |s.players|
  {
    var s1 := AttemptPayment(g, Refresh(g, s), i, creditor, amount);
    if s1.bankruptcy.Some? then Landed(WithPhase(s1, Bankrupting), [], false)
    else Landed(s1.(turn := s1.turn.(pending := None, phase := phase)), [event], false)
  }

  /** Landing where nothing is due: an unowned property is offered for sale. */
  function LandFreely(g: Config, s: State, i: Seat): Landed
    requires i < |s.players|
  {
    var pos := s.players[i].position;
    var pending := if IsPurchasable(g, pos) && TileAt(s.tiles, pos).owner.None? then Some(pos) else None;
    Landed(Refresh(g, s.(turn := s.turn.(pending := pending, phase := PostRoll))), [], false)
  }

  /** `resolve_landing` on a square that is not a card square. */
  function LandOnPlainSquare(g: Config, s: State, i: Seat, dice: DiceRoll, multiplier: int): Landed
    requires Good(g, s) && i < |s.players|
  {
    var pos := s.players[i].position;
    var space := SpaceAt(g, pos);
    var t := TileAt(s.tiles, pos);
    if space.corner == Some(GotoJail) then LandOnGotoJail(g, s, i)
    else if space.kind == Tax && space.tax.Some? then
      LandAndPay(g, s, i, None, space.tax.value, PostRoll, TaxPaid(i, pos, space.tax.value))
    else if IsPurchasable(g, pos) && t.owner.Some? && t.owner.value != i && !t.mortgaged then
      var rent := CalculateRent(g, s.tiles, pos, dice.die1 + dice.die2, multiplier);
      LandAndPay(g, s, i, t.owner, rent, MustPayRent, RentPaid(i, t.owner.value, pos, rent))
    else LandFreely(g, s, i)
  }

  /** A card move: the new square, with the salary for passing GO if `salary` allows it. */
  function CardMove(g: Config, s: State, i: Seat, to: int, passed: bool): (State, seq<Event>)
    requires i < |s.players|
  {
    var p := s.players[i];
    var s1 := StorePlayer(g, s, i, p.(position := to));
    var (s2, goEvents) := GoSalary(g, s1, i, passed);
    (s2, [PlayerMoved(i, p.position, to, 0, true)] + goEvents)
  }

  lemma CardMoveGood(g: Config, s: State, i: Seat, to: int, passed: bool)
    requires Good(g, s) && i < |s.players| && OnBoard(g, to)
    ensures Good(g, CardMove(g, s, i, to, passed).0)
    ensures |CardMove(g, s, i, to, passed).0.players| == |s.players|
    ensures CardMove(g, s, i, to, passed).0.players[i].position == to
  {}

  lemma LandAndPayGood(g: Config, s: State, i: Seat, creditor: Option<Seat>, amount: int, phase: Phase, event: Event)
    requires Good(g, s) && i < |s.players|
    requires creditor.Some? ==> creditor.value < |s.players| && creditor.value != i
    ensures Good(g, LandAndPay(g, s, i, creditor, amount, phase, event).s)
    ensures |LandAndPay(g, s, i, creditor, amount, phase, event).s.players| == |s.players|
  {
    hide Assets, DeckKept, AttemptPayment;
    var s0 := Refresh(g, s);
    PaymentFrame(g, s0, i, creditor, amount);
    GoodFrame(g, s, LandAndPay(g, s, i, creditor, amount, phase, event).s);
  }

  lemma GotoJailGood(g: Config, s: State, i: Seat)
    requires OnBoard(g, g.jail) && Good(g, s) && i < |s.players|
    ensures Good(g, LandOnGotoJail(g, s, i).s)
    ensures |LandOnGotoJail(g, s, i).s.players| == |s.players|
  {
    GoodFrame(g, s, LandOnGotoJail(g, s, i).s);
  }

  lemma FreelyGood(g: Config, s: State, i: Seat)
    requires Good(g, s) && i < |s.players|
    ensures Good(g, LandFreely(g, s, i).s)
    ensures |LandFreely(g, s, i).s.players| == |s.players|
  {
    GoodFrame(g, s, LandFreely(g, s, i).s);
  }

  lemma PlainGood(g: Config, s: State, i: Seat, dice: DiceRoll, multiplier: int)
    requires OnBoard(g, g.jail) && Good(g, s) && i < |s.players|
    ensures Good(g, LandOnPlainSquare(g, s, i, dice, multiplier).s)
    ensures |LandOnPlainSquare(g, s, i, dice, multiplier).s.players| == |s.players|
  {
    hide CalculateRent, Assets, GoodDecks, LandAndPay, LandFreely, LandOnGotoJail;
    var pos := s.players[i].position;
    var space := SpaceAt(g, pos);
    var t := TileAt(s.tiles, pos);
    if space.corner == Some(GotoJail) {
      GotoJailGood(g, s, i);
    } else if space.kind == Tax && space.tax.Some? {
      LandAndPayGood(g, s, i, None, space.tax.value, PostRoll, TaxPaid(i, pos, space.tax.value));
    } else if IsPurchasable(g, pos) && t.owner.Some? && t.owner.value != i && !t.mortgaged {
      var rent := CalculateRent(g, s.tiles, pos, dice.die1 + dice.die2, multiplier);
      LandAndPayGood(g, s, i, t.owner, rent, MustPayRent, RentPaid(i, t.owner.value, pos, rent));
    } else {
      FreelyGood(g, s, i);
    }
  }

  lemma StandingGood(g: Config, s: State, i: Seat, effect: Effect)
    requires ValidConfig(g) && Good(g, s) && i < |s.players|
    ensures Good(g, StandingEffect(g, s, i, effect))
    ensures |StandingEffect(g, s, i, effect).players| == |s.players|
  {
    hide ValidConfig, DeckKept, Assets, Contributions, ActiveOthers;
    if effect.Pay? {
      PaymentFrame(g, s, i, None, effect.amount);
    }
    if effect.Repairs? {
      PaymentFrame(g, s, i, None, RepairsCost(s.tiles, s.players[i].owned, effect.perHouse, effect.perHotel));
    }
    GoodFrame(g, s, StandingEffect(g, s, i, effect));
  }

  lemma CardSquareDeck(g: Config, s: State, i: Seat)
    requires ValidConfig(g) && Good(g, s) && i < |s.players|
    ensures SpaceAt(g, s.players[i].position).kind == Chance ==> s.chanceDeck != []
    ensures SpaceAt(g, s.players[i].position).kind == Chest ==> s.chestDeck != []
  {
    assert SpaceOk(g, s.players[i].position);
    if SpaceAt(g, s.players[i].position).kind == Chance { DeckNotEmpty(g, s.chanceDeck, g.chanceDeck); }
    if SpaceAt(g, s.players[i].position).kind == Chest { DeckNotEmpty(g, s.chestDeck, g.chestDeck); }
  }

  /** `resolve_landing` with `draw_and_apply`. */
  function ResolveLanding(g: Config, s: State, i: Seat, dice: DiceRoll, depth: nat, multiplier: int, env: Env): (r: Landed)
    requires ValidConfig(g) && Good(g, s) && i < |s.players| && depth <= CARD_LANDING_RECURSION_LIMIT
    ensures Good(g, r.s) && |r.s.players| == |s.players|
    decreases CARD_LANDING_RECURSION_LIMIT - depth, Rank(g, s.players[i].position)
  {
    var pos := s.players[i].position;
    if IsCardSquare(g, pos) && SpaceAt(g, pos).corner != Some(GotoJail) then
      var kind := if SpaceAt(g, pos).kind == Chance then ChanceKind else ChestKind;
      CardSquareDeck(g, s, i);
      MoneyOnlyGood(g, s, Refresh(g, s));
      DrawAndApply(g, Refresh(g, s), i, kind, dice, depth, env)
    else
      PlainGood(g, s, i, dice, multiplier);
      LandOnPlainSquare(g, s, i, dice, multiplier)
  }

  function DrawAndApply(g: Config, s: State, i: Seat, kind: CardKind, dice: DiceRoll, depth: nat, env: Env): (r: Landed)
    requires ValidConfig(g) && Good(g, s) && i < |s.players| && depth <= CARD_LANDING_RECURSION_LIMIT
    requires kind == ChanceKind ==> s.chanceDeck != []
    requires kind == ChestKind ==> s.chestDeck != []
    ensures Good(g, r.s) && |r.s.players| == |s.players|
    decreases CARD_LANDING_RECURSION_LIMIT - depth, 1, 1
  {
    var (s1, card) := DrawCard(g, s, kind, env);
    var r := ApplyEffect(g, s1, i, g.cards[card], dice, depth, env);
    var turn := if r.jailed then r.s.turn.(phase := PostRoll, streak := 0) else r.s.turn;
    Landed(r.s.(activeCard := Some(ActiveCard(card, i)), turn := turn), [CardDrawn(i, card)] + r.events, r.jailed)
  }

  lemma TargetsExist(g: Config, targets: set<int>)
    requires ValidConfig(g) && (targets == g.railroads || targets == g.utilities)
    ensures exists q :: q in targets && OnBoard(g, q)
  {
    var q :| q in targets;
    assert OnBoard(g, q);
  }

  predicate Moves(effect: Effect) {
    effect.AdvanceTo? || effect.AdvanceToNearest? || effect.GoBack?
  }

  /** Where a moving card sends a player, and whether the salary for passing GO is paid. */
  function Destination(g: Config, from: int, effect: Effect): (r: (int, bool))
    requires ValidConfig(g) && OnBoard(g, from) && Moves(effect)
    requires effect.AdvanceTo? ==> OnBoard(g, effect.position) && !IsCardSquare(g, effect.position)
    ensures OnBoard(g, r.0) && (!effect.GoBack? ==> !IsCardSquare(g, r.0))
  {
    match effect
    case AdvanceTo(target, bonus) =>
      StepsReach(g, from, target);
      var (to, passed) := AdvancePosition(g, from, StepsTo(g, from, target));
      (to, passed && bonus)
    case AdvanceToNearest(toRailroad, payDouble) =>
      var targets := if toRailroad then g.railroads else g.utilities;
      TargetsExist(g, targets);
      var target := Nearest(g, from, targets);
      StepsReach(g, from, target);
      AdvancePosition(g, from, StepsTo(g, from, target))
    case GoBack(spaces) => ((from - 1 - spaces) % |g.board| + 1, false)
  }

  /** `apply_card_effect`. */
  function ApplyEffect(g: Config, s: State, i: Seat, effect: Effect, dice: DiceRoll, depth: nat, env: Env): (r: Landed)
    requires ValidConfig(g) && Good(g, s) && i < |s.players| && depth <= CARD_LANDING_RECURSION_LIMIT
    requires effect.AdvanceTo? ==> OnBoard(g, effect.position) && !IsCardSquare(g, effect.position)
    ensures Good(g, r.s) && |r.s.players| == |s.players|
    decreases CARD_LANDING_RECURSION_LIMIT - depth, 1, 0
  {
    if effect.GoToJail? then
      GoodFrame(g, s, StorePlayer(g, s, i, SendToJail(g, s.players[i])));
      Landed(StorePlayer(g, s, i, SendToJail(g, s.players[i])), [SentToJail(i, ByCard)], true)
    else if !Moves(effect) then
      StandingGood(g, s, i, effect);
      Landed(StandingEffect(g, s, i, effect), [], false)
    else
      var (to, salary) := Destination(g, s.players[i].position, effect);
      CardMoveGood(g, s, i, to, salary);
      var (s1, ev) := CardMove(g, s, i, to, salary);
      if effect.GoBack? && depth >= CARD_LANDING_RECURSION_LIMIT then Landed(s1, ev, false)
      else
        var r := ResolveLanding(g, s1, i, dice, if effect.GoBack? then depth + 1 else depth,
                                if effect.AdvanceToNearest? && effect.payDouble then 2 else 1, env);
        r.(events := ev + r.events)
  }
}
