/** `_handle_roll_dice`: the invariants, and the laws of one roll. */
module StepRoll {
  import opened GameTypes
  import opened Seqs
  import opened Soundness
  import opened Worth
  import opened Payments
  import opened Landing
  import opened LandingLaws
  import opened LandingMoney
  import opened LandingChain
  import opened PropertyRules
  import opened Elimination
  import opened Handlers
  import opened Engine
  import opened Invariants
  import opened PropertyLaws
  import opened StepProperty

  /** What a roll by player `i` may change. */
  ghost predicate RollTouches(a: State, b: State, i: Seat)
    requires i < |a.players|
  {
    Touches(a, b.(turn := b.turn.(dice := a.turn.dice)), i)
  }

  /** The shapes a roll leaves the turn in. */
  ghost predicate Rolled(g: Config, b: State, i: Seat)
    requires i < |b.players|
  {
    var phase := b.turn.phase;
    && (b.bankruptcy.Some? <==> phase == Bankrupting)
    && (b.bankruptcy.Some? ==> b.bankruptcy.value.debtor == i && b.turn.pending.None?
                               && b.bankruptcy.value.owed > b.players[i].balance && b.bankruptcy.value.owed > 0)
    && (phase == Bankrupting || phase == PreRoll || phase == JailDecision || phase == PostRoll || phase == MustPayRent)
    && (phase == PreRoll || b.turn.pending.Some? ==> b.players[i].jail.None?)
    && (b.turn.pending.Some? ==> phase == PostRoll && ForSale(g, b, b.turn.pending.value))
  }

  /** The laws a roll shows in its event list: the moves form one walk of the roller from the old square
      to the final one, unless it ends in jail; at most four cards are drawn; and the money that entered
      or left the players' hands is what the events say. */
  ghost predicate RollStory(g: Config, a: State, b: State, events: seq<Event>, i: Seat, fine: int)
    requires i < |a.players| && i < |b.players|
  {
    && MovesOnly(events, i)
    && Replay(events, i, a.players[i].position).Some?
    && (if SaysJailed(events, i) then b.players[i].position == g.jail && b.players[i].jail.Some?
        else b.players[i].position == Replay(events, i, a.players[i].position).value)
    && Draws(events) <= CARD_LANDING_RECURSION_LIMIT + 1
    && Money(b) == Money(a) + Flow(g, a, events, b.bankruptcy.Some?) - fine
    && JailTotal(g, b) == JailTotal(g, a)
  }

  // ---------------------------------------------------------------- the dice walk

  lemma WalkTouches(g: Config, s: State, i: Seat, steps: int)
    requires ValidConfig(g) && Good(g, s) && i < |s.players|
    ensures var s' := DiceWalk(g, s, i, steps).0;
            Touches(s, s', i) && s'.turn == s.turn && s'.bankruptcy == s.bankruptcy && s'.players[i].jail == s.players[i].jail
  {
    hide ValidConfig, Good, Assets;
  }

  lemma WalkStory(g: Config, s: State, i: Seat, steps: int, unpaid: bool)
    requires ValidConfig(g) && Good(g, s) && i < |s.players|
    ensures var (s', ev) := DiceWalk(g, s, i, steps);
            && MovesOnly(ev, i) && !SaysJailed(ev, i) && Draws(ev) == 0
            && Replay(ev, i, s.players[i].position) == Some(s'.players[i].position)
            && JailTotal(g, s') == JailTotal(g, s)
            && Money(s') == Money(s) + Flow(g, s, ev, unpaid)
  {
    hide ValidConfig, DeckKept, Assets, JailTotal, Flow, Sum, Replay, Draws, MovesOnly, SaysJailed;
    var p := s.players[i];
    var (to, passed) := AdvancePosition(g, p.position, steps);
    var s1 := WithPlayer(s, i, p.(position := to));
    var move := PlayerMoved(i, p.position, to, steps, false);
    var ev := DiceWalk(g, s, i, steps).1;
    HandsSame(g, s, DiceWalk(g, s, i, steps).0);
    MoneyUpdate(s, i, p.(position := to));
    MoneyCredited(g, s1, i, g.goSalary);
    FlowOne(g, s, move, unpaid);
    FlowOne(g, s, PassedGo(i, g.goSalary), unpaid);
    FlowConcat(g, s, [move], [PassedGo(i, g.goSalary)], unpaid);
    assert [move] + [] == [move];
    MoveThenSalary(i, p.position, to, steps, false, g.goSalary, passed);
    assert ev == [move] + (if passed then [PassedGo(i, g.goSalary)] else []);
  }

  // ---------------------------------------------------------------- the move

  lemma MoveShape(g: Config, s: State, i: Seat, dice: DiceRoll, extraRoll: bool, env: Env)
    requires ValidConfig(g) && Good(g, s) && i < |s.players|
    requires s.bankruptcy.None? && s.turn.pending.None? && s.players[i].jail.None?
    requires s.turn.phase == PreRoll || s.turn.phase == JailDecision
    ensures var s' := ExecuteMove(g, s, i, dice, extraRoll, env).0;
            |s'.players| == |s.players| && RollTouches(s, s', i) && Rolled(g, s', i)
  {
    hide ValidConfig, Good, DiceWalk, ResolveLanding;
    var (s1, walk) := DiceWalk(g, s, i, dice.die1 + dice.die2);
    WalkTouches(g, s, i, dice.die1 + dice.die2);
    LandingTouches(g, s1, i, dice, 0, 1, env);
    TouchesTrans(s, s1, ResolveLanding(g, s1, i, dice, 0, 1, env).s, i);
  }

  lemma MoveStory(g: Config, s: State, i: Seat, dice: DiceRoll, extraRoll: bool, env: Env)
    requires ValidConfig(g) && Good(g, s) && i < |s.players| && s.bankruptcy.None? && s.turn.pending.None?
    ensures var (s', events) := ExecuteMove(g, s, i, dice, extraRoll, env);
            |s'.players| == |s.players| && WorthFresh(g, s') && RollStory(g, s, s', events, i, 0)
  {
    hide ValidConfig, Good, DiceWalk, ResolveLanding, Flow, Draws, Replay, Touches, Settled;
    var (s1, walk) := DiceWalk(g, s, i, dice.die1 + dice.die2);
    var r := ResolveLanding(g, s1, i, dice, 0, 1, env);
    var unpaid := r.s.bankruptcy.Some?;
    WalkTouches(g, s, i, dice.die1 + dice.die2);
    WalkOwned(g, s, s1, i);
    WalkStory(g, s, i, dice.die1 + dice.die2, unpaid);
    LandingChains(g, s1, i, dice, 0, 1, env);
    LandingJail(g, s1, i, dice, env);
    var streak := if dice.isDoubles then s.turn.streak + 1 else 0;
    var doubles := if dice.isDoubles && extraRoll then [RolledDoubles(i, streak)] else [];
    PrefixStory(g, s, walk, doubles, i, streak, unpaid);
    ChainConcat(g, s, s1, walk + doubles, r, i, 0, 0, DrawBound(g, s1.players[i].position, 0));
    StoryFromChain(g, s, r.(events := walk + doubles + r.events), ExecuteMove(g, s, i, dice, extraRoll, env).0, i,
                   DrawBound(g, s1.players[i].position, 0));
  }

  lemma WalkOwned(g: Config, s: State, s1: State, i: Seat)
    requires i < |s.players| && Touches(s, s1, i)
    ensures |s1.players| == |s.players| && s1.tiles == s.tiles
    ensures forall j :: 0 <= j < |s.players| ==> s1.players[j].owned == s.players[j].owned
  {}

  lemma LandingJail(g: Config, s: State, i: Seat, dice: DiceRoll, env: Env)
    requires ValidConfig(g) && Good(g, s) && i < |s.players| && s.bankruptcy.None? && s.turn.pending.None?
    ensures var r := ResolveLanding(g, s, i, dice, 0, 1, env); r.jailed ==> r.s.players[i].jail.Some?
  {
    hide ValidConfig, Good, ResolveLanding;
    LandingTouches(g, s, i, dice, 0, 1, env);
  }

  lemma PrefixStory(g: Config, s: State, walk: seq<Event>, doubles: seq<Event>, i: Seat, streak: int, unpaid: bool)
    requires i < |s.players|
    requires doubles == [] || doubles == [RolledDoubles(i, streak)]
    requires MovesOnly(walk, i) && !SaysJailed(walk, i) && Replay(walk, i, s.players[i].position).Some?
    ensures MovesOnly(walk + doubles, i) && !SaysJailed(walk + doubles, i) && Draws(walk + doubles) == Draws(walk)
    ensures Replay(walk + doubles, i, s.players[i].position) == Replay(walk, i, s.players[i].position)
    ensures Flow(g, s, walk + doubles, unpaid) == Flow(g, s, walk, unpaid)
  {
    hide Flow;
    var from := s.players[i].position;
    QuietEvent(RolledDoubles(i, streak), i, Replay(walk, i, from).value);
    ReplayConcat(walk, doubles, i, from);
    DrawsConcat(walk, doubles);
    FlowConcat(g, s, walk, doubles, unpaid);
    FlowOne(g, s, RolledDoubles(i, streak), unpaid);
    FlowNone(g, s, unpaid);
  }

  lemma StoryFromChain(g: Config, s: State, r: Landed, s': State, i: Seat, draws: int)
    requires i < |s.players| && i < |r.s.players| && Chain(g, s, r, i, 0, 0, draws)
    requires draws <= CARD_LANDING_RECURSION_LIMIT + 1
    requires r.jailed ==> r.s.players[i].jail.Some?
    requires s' == r.s.(turn := s'.turn)
    ensures WorthFresh(g, s') && RollStory(g, s, s', r.events, i, 0)
  {
    hide Flow, Draws, Replay, Assets;
    MoneySame(r.s, s');
    HandsSame(g, r.s, s');
  }

  // ---------------------------------------------------------------- the roll

  /** What happens to the player before the dice move them. */
  function Freed(g: Config, s: State, i: Seat, dice: DiceRoll): Player
    requires i < |s.players|
  {
    var p := s.players[i];
    if p.jail.None? then p
    else if dice.isDoubles then p.(jail := None)
    else p.(jail := None, balance := p.balance - g.jailFine)
  }

  /** The cases in which the dice do not move anyone. */
  predicate StaysPut(s: State, i: Seat, dice: DiceRoll)
    requires i < |s.players|
  {
    var p := s.players[i];
    if p.jail.Some? then !dice.isDoubles && p.jail.value - 1 > 0
    else dice.isDoubles && s.turn.streak + 1 >= DOUBLES_JAIL_THRESHOLD
  }

  /** Doubles earn another roll, but not a prisoner. */
  predicate ExtraRoll(s: State, i: Seat, dice: DiceRoll)
    requires i < |s.players|
  {
    s.players[i].jail.None? && dice.isDoubles
  }

  /** A roll that is not refused either leaves the player where they are, in jail, or moves them. */
  lemma RollCases(g: Config, s: State, i: Seat, env: Env)
    requires ValidConfig(g) && Good(g, s) && i < |s.players| && Roll(g, s, i, env).Ok?
    ensures s.turn.phase == PreRoll || s.turn.phase == JailDecision
    ensures s.turn.phase == PreRoll ==> s.players[i].jail.None?
    ensures var dice := DiceOf(g, env);
            var s' := Roll(g, s, i, env).s;
            if StaysPut(s, i, dice) then
              var p := if s.players[i].jail.Some? then s.players[i].(jail := Some(s.players[i].jail.value - 1))
                       else SendToJail(g, s.players[i]);
              s' == WithPlayer(s, i, Refreshed(g, s.tiles, p))
                      .(turn := s.turn.(dice := Some(dice), streak := 0, phase := PostRoll, pending := None))
              && Roll(g, s, i, env).events == if s.players[i].jail.Some? then [] else [SentToJail(i, ByDoubles)]
            else
              Good(g, WithPlayer(s, i, Freed(g, s, i, dice)))
              && Roll(g, s, i, env) ==
                   Ok(ExecuteMove(g, WithPlayer(s, i, Freed(g, s, i, dice)), i, dice, ExtraRoll(s, i, dice), env).0,
                      ExecuteMove(g, WithPlayer(s, i, Freed(g, s, i, dice)), i, dice, ExtraRoll(s, i, dice), env).1)
  {
    hide ValidConfig, DeckKept, Assets, ExecuteMove;
    var dice := DiceOf(g, env);
    MoveGood(g, s, i, Freed(g, s, i, dice));
    if s.players[i].jail.None? {
      assert WithPlayer(s, i, Freed(g, s, i, dice)) == s;
    }
  }

  /** The fine a roll takes outside its events: the forced one for the third failed attempt. */
  function ForcedFine(g: Config, s: State, i: Seat, dice: DiceRoll): int
    requires i < |s.players|
  {
    if s.players[i].jail.Some? && !StaysPut(s, i, dice) && !dice.isDoubles then g.jailFine else 0
  }

  /** The story of a whole roll, with whatever the dice do. */
  lemma RollTells(g: Config, s: State, i: Seat, env: Env)
    requires ValidConfig(g) && Good(g, s) && i < |s.players| && Roll(g, s, i, env).Ok?
    requires s.bankruptcy.None? && s.turn.pending.None?
    ensures |Roll(g, s, i, env).s.players| == |s.players|
    ensures RollStory(g, s, Roll(g, s, i, env).s, Roll(g, s, i, env).events, i, ForcedFine(g, s, i, DiceOf(g, env)))
  {
    hide ValidConfig, DeckKept, Roll, ExecuteMove, Flow, Sum, JailTotal, Assets, Money;
    RollCases(g, s, i, env);
    var dice := DiceOf(g, env);
    var s' := Roll(g, s, i, env).s;
    var events := Roll(g, s, i, env).events;
    var p := s.players[i];
    if StaysPut(s, i, dice) {
      MoneySame(s, s');
      HandsSame(g, s, s');
      FlowNone(g, s, s'.bankruptcy.Some?);
      FlowOne(g, s, SentToJail(i, ByDoubles), s'.bankruptcy.Some?);
      JailEvent(i, ByDoubles, p.position);
    } else {
      var s1 := WithPlayer(s, i, Freed(g, s, i, dice));
      var extraRoll := ExtraRoll(s, i, dice);
      MoveStory(g, s1, i, dice, extraRoll, env);
      MoneyUpdate(s, i, Freed(g, s, i, dice));
      HandsSame(g, s, s1);
      FlowFrame(g, s, s1, events, s'.bankruptcy.Some?);
    }
  }

  // ---------------------------------------------------------------- the invariants

  lemma RollFresh(g: Config, s: State, i: Seat, env: Env)
    requires ValidConfig(g) && Good(g, s) && i < |s.players| && Roll(g, s, i, env).Ok?
    requires s.bankruptcy.None? && s.turn.pending.None? && WorthFresh(g, s)
    ensures WorthFresh(g, Roll(g, s, i, env).s)
  {
    hide ValidConfig, DeckKept, Roll, ExecuteMove, Assets, RollStory;
    RollCases(g, s, i, env);
    var dice := DiceOf(g, env);
    if !StaysPut(s, i, dice) {
      var s1 := WithPlayer(s, i, Freed(g, s, i, dice));
      var extraRoll := ExtraRoll(s, i, dice);
      MoveStory(g, s1, i, dice, extraRoll, env);
    }
  }

  /** A roll changes only the roller's standing, and leaves the turn in a known shape. */
  lemma RollShape(g: Config, s: State, i: Seat, env: Env)
    requires ValidConfig(g) && Good(g, s) && i < |s.players| && Roll(g, s, i, env).Ok?
    requires s.bankruptcy.None? && s.turn.pending.None?
    ensures var s' := Roll(g, s, i, env).s;
            |s'.players| == |s.players| && RollTouches(s, s', i) && Rolled(g, s', i)
  {
    hide ValidConfig, DeckKept, Roll, ExecuteMove, Assets;
    RollCases(g, s, i, env);
    var dice := DiceOf(g, env);
    if !StaysPut(s, i, dice) {
      var s1 := WithPlayer(s, i, Freed(g, s, i, dice));
      var extraRoll := ExtraRoll(s, i, dice);
      MoveShape(g, s1, i, dice, extraRoll, env);
    }
  }

  lemma RollProperty(a: State, b: State, i: Seat)
    requires i < |a.players| && RollTouches(a, b, i)
    ensures SameProperty(a, b)
  {}
}
