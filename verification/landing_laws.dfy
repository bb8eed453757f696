/** Laws of the landing recursion of `movement.py` and `cards.py`. */
module LandingLaws {
  import opened GameTypes
  import opened Seqs
  import opened Soundness
  import opened Worth
  import opened Payments
  import opened Landing

  /** A walk of less than a lap is paid the salary for passing GO exactly when it ends behind its start. */
  lemma PassedIffBehind(g: Config, from: int, steps: nat)
    requires OnBoard(g, from) && steps < |g.board|
    ensures var (to, passed) := AdvancePosition(g, from, steps);
            OnBoard(g, to) && (passed <==> to < from) && to == (if passed then from + steps - |g.board| else from + steps)
  {
    ModOnce(from - 1 + steps, |g.board|);
  }

  /** Going back is the inverse of walking on: from the square a go-back card leads to, as many steps forward
      lead to the square it was drawn on. */
  lemma BackAndForth(g: Config, from: int, effect: Effect)
    requires ValidConfig(g) && OnBoard(g, from) && effect.GoBack? && 0 <= effect.spaces < |g.board|
    ensures var to := Destination(g, from, effect).0;
            OnBoard(g, to) && AdvancePosition(g, to, effect.spaces).0 == from
  {
    hide ValidConfig;
    var n := |g.board|;
    var k := effect.spaces;
    var x := from - 1 - k;
    ModOnce(x + n, n);
    Wrapped(x, n);
    ModOnce(Destination(g, from, effect).0 - 1 + k, n);
  }

  // ---------------------------------------------------------------- what a landing may change

  /** Between `a` and `b` only the standing of player `i` (who loses no jail card), balances, net worths, the decks, the
      active card, the bankruptcy record and the phase, pending purchase and streak may differ. */
  ghost predicate Touches(a: State, b: State, i: Seat)
    requires i < |a.players|
  {
    && |b.players| == |a.players|
    && b == a.(players := b.players, turn := b.turn, bankruptcy := b.bankruptcy, activeCard := b.activeCard,
               chanceDeck := b.chanceDeck, chestDeck := b.chestDeck)
    && b.turn == a.turn.(phase := b.turn.phase, pending := b.turn.pending, streak := b.turn.streak)
    && (forall j :: 0 <= j < |a.players| && j != i ==>
          b.players[j] == a.players[j].(balance := b.players[j].balance, netWorth := b.players[j].netWorth))
    && b.players[i] == a.players[i].(balance := b.players[i].balance, netWorth := b.players[i].netWorth,
                                     position := b.players[i].position, jail := b.players[i].jail,
                                     jailCards := b.players[i].jailCards)
    && b.players[i].jailCards >= a.players[i].jailCards
  }

  lemma TouchesTrans(a: State, b: State, c: State, i: Seat)
    requires i < |a.players|
    requires Touches(a, b, i) && Touches(b, c, i)
    ensures Touches(a, c, i)
  {}

  /** A result of a landing that leaves phase, purchase and bankruptcy in one of the known shapes. */
  ghost predicate Settled(g: Config, a: State, r: Landed, i: Seat)
    requires i < |a.players| && i < |r.s.players|
  {
    var b := r.s;
    && (r.jailed ==> b.players[i].jail == Some(JAIL_TURNS_INITIAL) && b.players[i].position == g.jail
                     && b.bankruptcy.None? && b.turn.pending.None?)
    && (!r.jailed ==> b.players[i].jail == a.players[i].jail)
    && (b.bankruptcy.Some? ==>
          b.bankruptcy.value.debtor == i && b.turn.phase == Bankrupting && b.turn.pending.None?
          && b.bankruptcy.value.owed > b.players[i].balance && b.bankruptcy.value.owed > 0)
    && (b.bankruptcy.None? ==> b.turn.phase == a.turn.phase || b.turn.phase == PostRoll || b.turn.phase == MustPayRent)
    && (b.turn.pending.Some? ==>
          var p := b.turn.pending.value;
          b.turn.phase == PostRoll && OnBoard(g, p) && IsPurchasable(g, p) && TileAt(b.tiles, p).owner.None?
          && p == b.players[i].position)
  }

  lemma SettledFrom(g: Config, a: State, b: State, r: Landed, i: Seat)
    requires i < |a.players| && i < |b.players| && i < |r.s.players|
    requires a.players[i].jail == b.players[i].jail && a.turn.phase == b.turn.phase
    requires Settled(g, b, r, i)
    ensures Settled(g, a, r, i)
  {}

  lemma JailTouches(g: Config, s: State, i: Seat)
    requires i < |s.players| && s.bankruptcy.None?
    ensures Touches(s, LandOnGotoJail(g, s, i).s, i) && Settled(g, s, LandOnGotoJail(g, s, i), i)
  {
    hide Assets;
  }

  lemma PayTouches(g: Config, s: State, i: Seat, creditor: Option<Seat>, amount: int, phase: Phase, event: Event)
    requires i < |s.players| && s.bankruptcy.None? && s.turn.pending.None?
    requires creditor.Some? ==> creditor.value < |s.players|
    requires phase == PostRoll || phase == MustPayRent
    ensures Touches(s, LandAndPay(g, s, i, creditor, amount, phase, event).s, i)
    ensures Settled(g, s, LandAndPay(g, s, i, creditor, amount, phase, event), i)
  {
    hide Assets, AttemptPayment;
    PaymentFrame(g, Refresh(g, s), i, creditor, amount);
  }

  lemma FreelyTouches(g: Config, s: State, i: Seat)
    requires i < |s.players| && s.bankruptcy.None? && OnBoard(g, s.players[i].position)
    ensures Touches(s, LandFreely(g, s, i).s, i) && Settled(g, s, LandFreely(g, s, i), i)
  {
    hide Assets;
  }

  lemma PlainTouches(g: Config, s: State, i: Seat, dice: DiceRoll, multiplier: int)
    requires Good(g, s) && i < |s.players|
    requires s.bankruptcy.None? && s.turn.pending.None?
    ensures Touches(s, LandOnPlainSquare(g, s, i, dice, multiplier).s, i)
    ensures Settled(g, s, LandOnPlainSquare(g, s, i, dice, multiplier), i)
  {
    hide Settled, Touches, DeckKept, CalculateRent, LandAndPay, LandFreely, LandOnGotoJail;
    var pos := s.players[i].position;
    var space := SpaceAt(g, pos);
    var t := TileAt(s.tiles, pos);
    if space.corner == Some(GotoJail) {
      JailTouches(g, s, i);
    } else if space.kind == Tax && space.tax.Some? {
      PayTouches(g, s, i, None, space.tax.value, PostRoll, TaxPaid(i, pos, space.tax.value));
    } else if IsPurchasable(g, pos) && t.owner.Some? && t.owner.value != i && !t.mortgaged {
      var rent := CalculateRent(g, s.tiles, pos, dice.die1 + dice.die2, multiplier);
      PayTouches(g, s, i, t.owner, rent, MustPayRent, RentPaid(i, t.owner.value, pos, rent));
    } else {
      FreelyTouches(g, s, i);
    }
  }

  lemma StandingTouches(g: Config, s: State, i: Seat, effect: Effect)
    requires i < |s.players| && !Moves(effect) && !effect.GoToJail?
    requires s.bankruptcy.None? && s.turn.pending.None?
    ensures Touches(s, StandingEffect(g, s, i, effect), i)
    ensures Settled(g, s, Landed(StandingEffect(g, s, i, effect), [], false), i)
  {
    hide Assets, Contributions, ActiveOthers, RepairsCost;
    if effect.Pay? {
      PaymentFrame(g, s, i, None, effect.amount);
    }
    if effect.Repairs? {
      PaymentFrame(g, s, i, None, RepairsCost(s.tiles, s.players[i].owned, effect.perHouse, effect.perHotel));
    }
  }

  lemma MoveTouches(g: Config, s: State, i: Seat, to: int, salary: bool)
    requires i < |s.players|
    ensures Touches(s, CardMove(g, s, i, to, salary).0, i)
    ensures CardMove(g, s, i, to, salary).0.players[i].jail == s.players[i].jail
    ensures CardMove(g, s, i, to, salary).0.turn == s.turn
    ensures CardMove(g, s, i, to, salary).0.bankruptcy == s.bankruptcy
  {
    hide Assets;
  }

  /** What `draw_and_apply` adds to the result of a card. */
  lemma DrawTouches(g: Config, s: State, s0: State, s1: State, i: Seat, card: CardId, r: Landed, r': Landed)
    requires i < |s.players| && MoneyOnly(s, s0)
    requires s1 == s0.(chanceDeck := s1.chanceDeck, chestDeck := s1.chestDeck)
    requires Touches(s1, r.s, i) && Settled(g, s1, r, i)
    requires r'.jailed == r.jailed
    requires r'.s == r.s.(activeCard := Some(ActiveCard(card, i)),
                          turn := if r.jailed then r.s.turn.(phase := PostRoll, streak := 0) else r.s.turn)
    ensures Touches(s, r'.s, i) && Settled(g, s, r', i)
  {}

  lemma {:induction false} LandingTouches(g: Config, s: State, i: Seat, dice: DiceRoll, depth: nat, multiplier: int, env: Env)
    requires ValidConfig(g) && Good(g, s) && i < |s.players| && depth <= CARD_LANDING_RECURSION_LIMIT
    requires s.bankruptcy.None? && s.turn.pending.None?
    ensures Touches(s, ResolveLanding(g, s, i, dice, depth, multiplier, env).s, i)
    ensures Settled(g, s, ResolveLanding(g, s, i, dice, depth, multiplier, env), i)
    decreases CARD_LANDING_RECURSION_LIMIT - depth, Rank(g, s.players[i].position)
  {
    hide ValidConfig, Good, LandOnPlainSquare, Touches, Settled, DrawCard;
    var pos := s.players[i].position;
    if IsCardSquare(g, pos) && SpaceAt(g, pos).corner != Some(GotoJail) {
      var kind := if SpaceAt(g, pos).kind == Chance then ChanceKind else ChestKind;
      var s0 := Refresh(g, s);
      CardSquareDeck(g, s, i);
      MoneyOnlyGood(g, s, s0);
      var (s1, card) := DrawCard(g, s0, kind, env);
      EffectTouches(g, s1, i, g.cards[card], dice, depth, env);
      DrawTouches(g, s, s0, s1, i, card, ApplyEffect(g, s1, i, g.cards[card], dice, depth, env),
                  DrawAndApply(g, s0, i, kind, dice, depth, env));
    } else {
      PlainTouches(g, s, i, dice, multiplier);
    }
  }

  lemma {:induction false} EffectTouches(g: Config, s: State, i: Seat, effect: Effect, dice: DiceRoll, depth: nat, env: Env)
    requires ValidConfig(g) && Good(g, s) && i < |s.players| && depth <= CARD_LANDING_RECURSION_LIMIT
    requires effect.AdvanceTo? ==> OnBoard(g, effect.position) && !IsCardSquare(g, effect.position)
    requires s.bankruptcy.None? && s.turn.pending.None?
    ensures Touches(s, ApplyEffect(g, s, i, effect, dice, depth, env).s, i)
    ensures Settled(g, s, ApplyEffect(g, s, i, effect, dice, depth, env), i)
    decreases CARD_LANDING_RECURSION_LIMIT - depth, 1, 0
  {
    hide ValidConfig, StandingEffect, CardMove, Destination, DeckKept, Touches, Settled;
    if effect.GoToJail? {
      CardJailTouches(g, s, i);
    } else if !Moves(effect) {
      StandingTouches(g, s, i, effect);
    } else {
      var (to, salary) := Destination(g, s.players[i].position, effect);
      CardMoveGood(g, s, i, to, salary);
      MoveTouches(g, s, i, to, salary);
      var (s1, ev) := CardMove(g, s, i, to, salary);
      if effect.GoBack? && depth >= CARD_LANDING_RECURSION_LIMIT {
        StillSettled(g, s, s1, i, ev);
      } else {
        var depth' := if effect.GoBack? then depth + 1 else depth;
        var multiplier := if effect.AdvanceToNearest? && effect.payDouble then 2 else 1;
        LandingTouches(g, s1, i, dice, depth', multiplier, env);
        var r := ResolveLanding(g, s1, i, dice, depth', multiplier, env);
        TouchesTrans(s, s1, r.s, i);
        SettledFrom(g, s, s1, r.(events := ev + r.events), i) by { EventsIrrelevant(g, s1, r, ev + r.events, i); }
      }
    }
  }

  lemma EventsIrrelevant(g: Config, a: State, r: Landed, events: seq<Event>, i: Seat)
    requires i < |a.players| && i < |r.s.players| && Settled(g, a, r, i)
    ensures Settled(g, a, r.(events := events), i)
  {}

  lemma StillSettled(g: Config, s: State, s1: State, i: Seat, ev: seq<Event>)
    requires i < |s.players| && Touches(s, s1, i)
    requires s.bankruptcy.None? && s.turn.pending.None?
    requires s1.players[i].jail == s.players[i].jail && s1.turn == s.turn && s1.bankruptcy == s.bankruptcy
    ensures Settled(g, s, Landed(s1, ev, false), i)
  {}

  lemma CardJailTouches(g: Config, s: State, i: Seat)
    requires i < |s.players| && s.bankruptcy.None? && s.turn.pending.None?
    ensures Touches(s, StorePlayer(g, s, i, SendToJail(g, s.players[i])), i)
    ensures Settled(g, s, Landed(StorePlayer(g, s, i, SendToJail(g, s.players[i])), [SentToJail(i, ByCard)], true), i)
  {
    hide Assets;
  }
}
