/** A roll as a command: the dice it records, the walk it announces first, and the streak of doubles it leaves. */
module RollLaws {
  import opened GameTypes
  import opened Seqs
  import opened Soundness
  import opened Worth
  import opened Payments
  import opened Landing
  import opened Handlers
  import opened Engine
  import opened Invariants
  import opened StepRoll
  import opened Timers
  import opened Timeline
  import opened Foresight
  import opened Offers
  import opened Decisions
  import opened CardLaws

  /** The dice as thrown: a mode with one die throws no second, and equal dice are doubles. */
  predicate Threw(g: Config, env: Env, dice: DiceRoll) {
    && dice.die1 == env.die1 && dice.die2 == (if g.diceCount == 1 then 0 else env.die2)
    && (dice.isDoubles <==> dice.die1 == dice.die2)
  }

  /** The roll that moves nobody by the dice: a prisoner throws no doubles before the last attempt, or somebody else the
      third doubles in a row. */
  predicate Held(p: Player, streak: int, dice: DiceRoll) {
    if p.jail.Some? then !dice.isDoubles && p.jail.value > 1 else dice.isDoubles && streak >= 2
  }

  /** The walk comes first: as many squares on as the dice show, then the salary exactly if that leads past the last square,
      then the doubles if they earn another roll. */
  predicate Opening(g: Config, i: Seat, from: int, dice: DiceRoll, streak: int, extraRoll: bool, events: seq<Event>) {
    var total := dice.die1 + dice.die2;
    var passes := from + total > |g.board|;
    && events != [] && events[0].PlayerMoved? && events[0] == PlayerMoved(i, from, events[0].to, total, false)
    && OnBoard(g, events[0].to) && (from + total - events[0].to) % |g.board| == 0
    && (|events| > 1 && events[1].PassedGo? <==> passes)
    && (passes ==> events[1] == PassedGo(i, g.goSalary))
    && (extraRoll ==> var k := if passes then 2 else 1; |events| > k && events[k] == RolledDoubles(i, streak + 1))
  }

  /** What a roll that is held leaves: a prisoner with one attempt less, or a player sent to jail; the turn is over but for
      its end. */
  ghost predicate HeldBack(g: Config, s: State, s': State, i: Seat, events: seq<Event>)
    requires i < |s.players| == |s'.players|
  {
    var p := s.players[i];
    var q := if p.jail.Some? then p.(jail := Some(p.jail.value - 1)) else p.(position := g.jail, jail := Some(3));
    && s' == s.(players := s.players[i := q.(strikes := s'.players[i].strikes)], activeCard := s'.activeCard,
                turn := s.turn.(phase := PostRoll, streak := 0, dice := s'.turn.dice,
                                deadline := s'.turn.deadline, actions := s'.turn.actions))
    && events == (if p.jail.Some? then [] else [SentToJail(i, ByDoubles)])
  }

  /** What a roll leaves: the dice on record; a roll that is not held begins with the walk, and the streak of doubles grows by
      one if the roller stays free and solvent, and is over otherwise. */
  ghost predicate Recorded(g: Config, s: State, s': State, i: Seat, env: Env, events: seq<Event>)
    requires i < |s.players|
  {
    var p := s.players[i];
    && |s'.players| == |s.players| && s'.turn.dice.Some? && Threw(g, env, s'.turn.dice.value)
    && var dice := s'.turn.dice.value;
       if Held(p, s.turn.streak, dice) then HeldBack(g, s, s', i, events)
       else
         && Opening(g, i, p.position, dice, s.turn.streak, dice.isDoubles && p.jail.None?, events)
         && s'.turn.streak == if dice.isDoubles && p.jail.None? && s'.players[i].jail.None? && s'.bankruptcy.None?
                              then s.turn.streak + 1 else 0
  }

  lemma WalkFirst(g: Config, s: State, i: Seat, dice: DiceRoll, extraRoll: bool, env: Env)
    requires ValidConfig(g) && Good(g, s) && i < |s.players|
    ensures Opening(g, i, s.players[i].position, dice, s.turn.streak, dice.isDoubles && extraRoll,
                    ExecuteMove(g, s, i, dice, extraRoll, env).1)
  {
    hide ValidConfig, DeckKept, ResolveLanding, Assets;
    var from := s.players[i].position;
    var (s1, walk) := DiceWalk(g, s, i, dice.die1 + dice.die2);
    LandingFirst(g, s1, i, dice, 0, 1, env);
    WholeLaps(from - 1 + dice.die1 + dice.die2, |g.board|);
  }

  lemma WholeLaps(x: int, n: int)
    requires n > 0
    ensures 0 <= x % n < n && (x - x % n) % n == 0
  {
    var y := x - x % n;
    assert y == x / n * n && y == y / n * n + y % n;
    assert y % n == (x / n - y / n) * n;
    Multiples(x / n - y / n, n);
  }

  lemma MoveRecorded(g: Config, s: State, i: Seat, env: Env)
    requires ValidConfig(g) && Good(g, s) && i < |s.players| && Roll(g, s, i, env).Ok? && s.bankruptcy.None? && s.turn.pending.None?
    requires WorthFresh(g, s)
    ensures Recorded(g, s, Roll(g, s, i, env).s, i, env, Roll(g, s, i, env).events)
  {
    hide ValidConfig, Good, Roll, ExecuteMove, Recorded, WorthFresh, Refreshed;
    RollCases(g, s, i, env);
    var dice := DiceOf(g, env);
    if StaysPut(s, i, dice) {
      var q := if s.players[i].jail.Some? then s.players[i].(jail := Some(s.players[i].jail.value - 1)) else SendToJail(g, s.players[i]);
      HeldRecorded(g, s, i, q, env);
    } else {
      ExecuteRecorded(g, s, i, env);
    }
  }

  lemma HeldRecorded(g: Config, s: State, i: Seat, q: Player, env: Env)
    requires i < |s.players| && WorthFresh(g, s) && StaysPut(s, i, DiceOf(g, env)) && s.turn.pending.None?
    requires q == if s.players[i].jail.Some? then s.players[i].(jail := Some(s.players[i].jail.value - 1)) else SendToJail(g, s.players[i])
    ensures var dice := DiceOf(g, env);
            Recorded(g, s, WithPlayer(s, i, Refreshed(g, s.tiles, q)).(turn := s.turn.(dice := Some(dice), streak := 0, phase := PostRoll, pending := None)),
                     i, env, if s.players[i].jail.Some? then [] else [SentToJail(i, ByDoubles)])
  {
    hide Assets, Opening;
    assert Threw(g, env, DiceOf(g, env));
  }

  lemma ExecuteRecorded(g: Config, s: State, i: Seat, env: Env)
    requires ValidConfig(g) && Good(g, s) && i < |s.players| && s.bankruptcy.None? && s.turn.pending.None?
    requires !StaysPut(s, i, DiceOf(g, env)) && Good(g, WithPlayer(s, i, Freed(g, s, i, DiceOf(g, env))))
    ensures var dice := DiceOf(g, env);
            var (s', events) := ExecuteMove(g, WithPlayer(s, i, Freed(g, s, i, dice)), i, dice, ExtraRoll(s, i, dice), env);
            Recorded(g, s, s', i, env, events)
  {
    hide ValidConfig, DeckKept, DiceWalk, ResolveLanding, Opening, Foretold, Assets, RollFate;
    var dice := DiceOf(g, env);
    var s0 := WithPlayer(s, i, Freed(g, s, i, dice));
    RollLands(g, s, i, dice, env);
    LandedDebt(g, s, RollLanding(g, s0, i, dice, env), i, dice.die1 + dice.die2, RollFate(g, s, i, dice));
    WalkFirst(g, s0, i, dice, ExtraRoll(s, i, dice), env);
    assert Threw(g, env, dice);
  }

  lemma LandedDebt(g: Config, s: State, r: Landed, i: Seat, total: int, f: Fate)
    requires i < |s.players| && Foretold(g, s, r, i, total, f)
    ensures |r.s.players| == |s.players|
  {}

  /** A roll is accepted exactly before it, from a free player, or in the jail decision. */
  lemma RollRecord(g: Config, s: State, env: Env)
    requires ValidConfig(g) && Inv(g, s)
    ensures Good(g, s) && s.turn.current < |s.players|
    ensures var i := s.turn.current;
            var r := Apply(g, s, RollDice(i), env);
            && (r.Ok? <==> (s.turn.phase == PreRoll && s.players[i].jail.None?) || s.turn.phase == JailDecision)
            && (r.Ok? ==> Recorded(g, s, r.s, i, env, r.events) && r.s.players[i].strikes == 0)
  {
    hide ValidConfig, Good, Inv, Apply, Roll, Recorded;
    InvGood(g, s);
    CurrentInRange(g, s);
    var i := s.turn.current;
    AcceptsHandler(g, s, RollDice(i), env);
    RollGuard(g, s, i, env);
    if Apply(g, s, RollDice(i), env).Ok? {
      RollApplied(g, s, RollDice(i), env);
      InvFresh(g, s);
      MoveRecorded(g, s, i, env);
      AppliedRoll(g, s, i, env);
      StampRecorded(g, s, Roll(g, s, i, env).s, Apply(g, s, RollDice(i), env).s, i, env, Roll(g, s, i, env).events);
    }
  }

  lemma InvFresh(g: Config, s: State)
    requires Inv(g, s)
    ensures WorthFresh(g, s)
  {}

  lemma RollGuard(g: Config, s: State, i: Seat, env: Env)
    requires ValidConfig(g) && Good(g, s) && i < |s.players|
    ensures Roll(g, s, i, env).Ok? <==> (s.turn.phase == PreRoll && s.players[i].jail.None?) || s.turn.phase == JailDecision
  {
    hide ValidConfig, DeckKept, ExecuteMove, Assets;
  }

  lemma StampRecorded(g: Config, s: State, s1: State, s': State, i: Seat, env: Env, events: seq<Event>)
    requires i < |s.players| && Recorded(g, s, s1, i, env, events)
    requires var s2 := ResetStrikes(s1, i);
             s' == s2.(activeCard := s'.activeCard, turn := s2.turn.(deadline := s'.turn.deadline, actions := s'.turn.actions))
    ensures Recorded(g, s, s', i, env, events) && s'.players[i].strikes == 0
  {
    hide Opening, Threw;
    assert s1.players[i].strikes == 0 || s1.players[i].strikes != 0;
    assert s'.players == s1.players[i := s1.players[i].(strikes := 0)];
  }
}
