/** Runs told scene by scene: what a few plain commands do to a game of two players. */
module Scenes {
  import opened GameTypes
  import opened Soundness
  import opened Worth
  import opened Payments
  import opened Landing
  import opened Elimination
  import opened Handlers
  import opened Engine
  import opened Invariants
  import opened StepRoll
  import opened StepTable
  import opened Steps
  import opened Setup
  import opened Timers

  // ---------------------------------------------------------------- scenes

  /** What a scene shows of a player. */
  datatype Piece = Piece(position: int, balance: int, jail: Option<int>, strikes: int)

  predicate Shows(p: Player, piece: Piece) {
    !p.bankrupt && p.position == piece.position && p.balance == piece.balance && p.jail == piece.jail && p.strikes == piece.strikes
  }

  /** Two players, whose turn it is, the phase, the two pieces - that of the player whose turn it is first - and the chance
      cards; nothing is for sale. */
  datatype Scene = Scene(current: Seat, phase: Phase, streak: int, mine: Piece, theirs: Piece, chance: seq<CardId>)

  ghost predicate In(g: Config, s: State, c: Scene) {
    && Inv(g, s) && |s.players| == 2 && c.current < 2
    && Shows(s.players[c.current], c.mine) && Shows(s.players[1 - c.current], c.theirs)
    && s.turn.current == c.current && s.turn.phase == c.phase && s.turn.streak == c.streak && s.turn.pending.None?
    && s.chanceDeck == c.chance
  }

  lemma InLive(g: Config, s: State, c: Scene)
    requires In(g, s, c) && IsActivePhase(c.phase)
    ensures Good(g, s) && s.turn.current == c.current < 2 == |s.players| && !s.finished && s.bankruptcy.None? && s.turn.deadline.Some?
    ensures s.auction.None? && s.trade.None?
  {
    hide DeckKept, ActiveSeats, Streets, Owns, Inventory, WorthFresh;
    assert Phases(g, s);
  }

  // ---------------------------------------------------------------- a roll onto a quiet corner

  /** The dice lead to a corner that does nothing, and not past GO. */
  predicate OntoCorner(g: Config, from: int, steps: int)
    requires |g.board| > 0
  {
    var (to, passed) := AdvancePosition(g, from, steps);
    !passed && SpaceAt(g, to).kind == Corner && SpaceAt(g, to).corner != Some(GotoJail)
  }

  lemma CornerMove(g: Config, s: State, i: Seat, dice: DiceRoll, extraRoll: bool, env: Env)
    requires ValidConfig(g) && Good(g, s) && i < |s.players| && s.bankruptcy.None?
    requires OntoCorner(g, s.players[i].position, dice.die1 + dice.die2)
    ensures var s' := ExecuteMove(g, s, i, dice, extraRoll, env).0;
            var to := AdvancePosition(g, s.players[i].position, dice.die1 + dice.die2).0;
            var again := dice.isDoubles && extraRoll;
            && s' == s.(players := s'.players,
                        turn := s.turn.(dice := Some(dice), pending := None, phase := if again then PreRoll else PostRoll,
                                        streak := if again then s.turn.streak + 1 else 0))
            && |s'.players| == |s.players|
            && (forall j :: 0 <= j < |s.players| ==>
                  s'.players[j] == s.players[j].(position := if j == i then to else s.players[j].position, netWorth := s'.players[j].netWorth))
  {
    hide ValidConfig, DeckKept, Assets, DrawAndApply;
  }

  function Swapped(c: Scene): Scene
    requires c.current < 2
  {
    c.(current := 1 - c.current, mine := c.theirs, theirs := c.mine)
  }

  /** The scene in which player `i` has acted: no strikes, and the piece stands as given. */
  function Acted(c: Scene, position: int, balance: int, jail: Option<int>): Scene {
    c.(mine := Piece(position, balance, jail, 0))
  }

  /** After a handler that leaves no debt, the scene is the one the handler sets, the actor's strikes aside. */
  lemma ActedScene(g: Config, s: State, cmd: Command, env: Env, c: Scene, position: int, balance: int, jail: Option<int>)
    requires ValidConfig(g) && Inv(g, s) && Orderly(s, cmd) && !IsSystem(cmd) && !IsOpen(cmd) && cmd.player == s.turn.current
    requires Apply(g, s, cmd, env).Ok? && Good(g, s) && Dispatch(g, s, cmd, env).Ok?
    requires c.current == s.turn.current < 2
    requires var s1 := Dispatch(g, s, cmd, env).s;
             var i := c.current;
             && s1.bankruptcy.None? && |s1.players| == 2 && s1.chanceDeck == c.chance && s1.turn.pending.None?
             && Shows(s1.players[1 - i], c.theirs)
             && !s1.players[i].bankrupt && s1.players[i].position == position && s1.players[i].balance == balance && s1.players[i].jail == jail
    ensures var s' := Apply(g, s, cmd, env).s;
            var s1 := Dispatch(g, s, cmd, env).s;
            var c' := Acted(c, position, balance, jail);
            && s'.turn.current == s1.turn.current
            && (s1.turn.current == c.current || s1.turn.current == 1 - c.current ==>
                  In(g, s', (if s1.turn.current == c.current then c' else Swapped(c')).(phase := s1.turn.phase, streak := s1.turn.streak)))
  {
    hide ValidConfig, Good, Inv, Apply, Dispatch, Orderly;
    TurnApplied(g, s, cmd, env);
    StepInvariant(g, s, cmd, env);
    InvCurrent(g, Apply(g, s, cmd, env).s);
  }

  lemma InvCurrent(g: Config, s: State)
    requires Inv(g, s)
    ensures s.turn.current < |s.players|
  {
    InvParts(g, s);
  }

  lemma RollDispatched(g: Config, s: State, env: Env)
    requires ValidConfig(g) && Good(g, s) && Roll(g, s, s.turn.current, env).Ok?
    ensures Dispatch(g, s, RollDice(s.turn.current), env) == Roll(g, s, s.turn.current, env)
    ensures Apply(g, s, RollDice(s.turn.current), env).Ok?
  {
    hide ValidConfig, Good, Roll, Wrap, ResetStrikes;
  }

  lemma RollAllowed(g: Config, s: State, i: Seat, env: Env)
    requires ValidConfig(g) && Good(g, s) && i < |s.players|
    requires s.turn.phase == (if s.players[i].jail.Some? then JailDecision else PreRoll)
    ensures Roll(g, s, i, env).Ok?
  {
    hide ValidConfig, Good, ExecuteMove, Refreshed;
  }

  /** A roll that moves onto a quiet corner. */
  lemma CornerScene(g: Config, s: State, c: Scene, env: Env)
    requires ValidConfig(g) && In(g, s, c) && c.phase == (if c.mine.jail.Some? then JailDecision else PreRoll)
    requires c.current < |s.players| && !StaysPut(s, c.current, DiceOf(g, env))
    requires OnBoard(g, c.mine.position)
    requires OntoCorner(g, c.mine.position, DiceOf(g, env).die1 + DiceOf(g, env).die2)
    ensures Good(g, s)
    ensures var r := Apply(g, s, RollDice(c.current), env);
            var piece := c.mine;
            var dice := DiceOf(g, env);
            var to := AdvancePosition(g, piece.position, dice.die1 + dice.die2).0;
            var again := dice.isDoubles && piece.jail.None?;
            && r.Ok?
            && In(g, r.s, Acted(c, to, piece.balance - if piece.jail.Some? && !dice.isDoubles then g.jailFine else 0, None)
                            .(phase := if again then PreRoll else PostRoll, streak := if again then c.streak + 1 else 0))
  {
    hide ValidConfig, Good, Inv, Roll, ExecuteMove, Apply, Dispatch, AdvancePosition, OntoCorner;
    InLive(g, s, c);
    var i := c.current;
    var dice := DiceOf(g, env);
    RollAllowed(g, s, i, env);
    RollCases(g, s, i, env);
    RollDispatched(g, s, env);
    var s0 := WithPlayer(s, i, Freed(g, s, i, dice));
    CornerMove(g, s0, i, dice, ExtraRoll(s, i, dice), env);
    var piece := c.mine;
    ActedScene(g, s, RollDice(i), env, c, AdvancePosition(g, piece.position, dice.die1 + dice.die2).0,
               piece.balance - if piece.jail.Some? && !dice.isDoubles then g.jailFine else 0, None);
  }

  /** A roll after which the player is in jail without having moved: a failed attempt to leave, or three doubles. */
  lemma StayScene(g: Config, s: State, c: Scene, env: Env)
    requires ValidConfig(g) && In(g, s, c) && c.phase == (if c.mine.jail.Some? then JailDecision else PreRoll)
    requires c.current < |s.players| && StaysPut(s, c.current, DiceOf(g, env))
    ensures Good(g, s)
    ensures var r := Apply(g, s, RollDice(c.current), env);
            var piece := c.mine;
            && r.Ok?
            && In(g, r.s, Acted(c, if piece.jail.Some? then piece.position else g.jail, piece.balance,
                                Some(if piece.jail.Some? then piece.jail.value - 1 else JAIL_TURNS_INITIAL))
                            .(phase := PostRoll, streak := 0))
  {
    hide ValidConfig, Good, Inv, Roll, Apply, Dispatch, NetWorth;
    InLive(g, s, c);
    var i := c.current;
    var piece := c.mine;
    RollAllowed(g, s, i, env);
    RollCases(g, s, i, env);
    RollDispatched(g, s, env);
    ActedScene(g, s, RollDice(i), env, c, if piece.jail.Some? then piece.position else g.jail, piece.balance,
               Some(if piece.jail.Some? then piece.jail.value - 1 else JAIL_TURNS_INITIAL));
  }

  // ---------------------------------------------------------------- the turn passes on

  /** The scene at the start of the other player's turn. */
  function Handed(c: Scene): Scene
    requires c.current < 2
  {
    Swapped(c).(phase := if c.theirs.jail.Some? then JailDecision else PreRoll, streak := 0)
  }

  lemma TwoActive(players: seq<Player>)
    requires |players| == 2 && !players[0].bankrupt && !players[1].bankrupt
    ensures ActiveSeats(players, 2) == [0, 1]
    ensures NextOffset(players, 0, 1) == Some(1) && NextOffset(players, 1, 1) == Some(1)
  {
    assert ActiveSeats(players, 0) == [] && ActiveSeats(players, 1) == [0];
  }

  lemma EndHandled(g: Config, s: State, i: Seat)
    requires Good(g, s) && |s.players| == 2 && !s.players[0].bankrupt && !s.players[1].bankrupt && i == s.turn.current < 2
    requires s.turn.phase == PostRoll && s.turn.pending.None? && s.bankruptcy.None?
    ensures forall k :: 0 <= k < |Survivors(s)| ==> Survivors(s)[k] < |s.players|
    ensures var r := End(s, i);
            && r.Ok? && r.s == s.(turn := r.s.turn) && r.s.turn.current == 1 - i && r.s.turn.streak == 0 && r.s.turn.pending.None?
            && r.s.turn.phase == if s.players[1 - i].jail.Some? then JailDecision else PreRoll
  {
    hide DeckKept, ActiveSeats, NextOffset;
    TwoActive(s.players);
  }

  /** Ending the turn. */
  lemma EndScene(g: Config, s: State, c: Scene, env: Env)
    requires ValidConfig(g) && In(g, s, c) && c.phase == PostRoll
    ensures Good(g, s)
    ensures var r := Apply(g, s, EndTurn(c.current), env);
            var piece := c.mine;
            r.Ok? && In(g, r.s, Handed(Acted(c, piece.position, piece.balance, piece.jail)))
  {
    hide ValidConfig, Good, Inv, Apply, Dispatch, End, ActiveSeats;
    InLive(g, s, c);
    var i := c.current;
    EndHandled(g, s, i);
    EndDispatched(g, s, env);
    ActedScene(g, s, EndTurn(i), env, c, c.mine.position, c.mine.balance, c.mine.jail);
  }

  lemma EndDispatched(g: Config, s: State, env: Env)
    requires ValidConfig(g) && Good(g, s)
    requires forall k :: 0 <= k < |Survivors(s)| ==> Survivors(s)[k] < |s.players|
    requires End(s, s.turn.current).Ok?
    ensures Dispatch(g, s, EndTurn(s.turn.current), env) == End(s, s.turn.current)
    ensures Apply(g, s, EndTurn(s.turn.current), env).Ok?
  {
    hide ValidConfig, Good, End, Wrap, ResetStrikes, ActiveSeats;
  }

  /** The clock ends the turn of a player who does nothing. */
  lemma ClockScene(g: Config, s: State, c: Scene, env: Env)
    requires ValidConfig(g) && In(g, s, c) && IsActivePhase(c.phase)
    requires s.turn.deadline.Some? && env.now >= s.turn.deadline.value && c.mine.strikes + 1 < MAX_AFK_STRIKES
    ensures Good(g, s)
    ensures var r := Apply(g, s, TurnTimeout, env);
            var piece := c.mine;
            r.Ok? && In(g, r.s, Handed(c.(mine := piece.(strikes := piece.strikes + 1))))
  {
    hide ValidConfig, Good, Inv, Table, HandleSystem, Wrap;
    InLive(g, s, c);
    InvParts(g, s);
    TimedOut(g, s, c, env);
    SystemGood(g, s, TurnTimeout, env);
    SystemTable(g, s, TurnTimeout, env);
    var s1 := HandleSystem(g, s, TurnTimeout, env).0;
    GoodImpliesRefs(g, s1);
    WrapQuiet(g, s, s1, TurnTimeout, env.now);
    StepInvariant(g, s, TurnTimeout, env);
  }

  lemma TimedOut(g: Config, s: State, c: Scene, env: Env)
    requires In(g, s, c) && Good(g, s) && IsActivePhase(c.phase) && s.bankruptcy.None?
    requires s.turn.deadline.Some? && env.now >= s.turn.deadline.value && c.mine.strikes + 1 < MAX_AFK_STRIKES
    ensures var s1 := HandleSystem(g, s, TurnTimeout, env).0;
            var i := c.current;
            && s1.players == s.players[i := s.players[i].(strikes := s.players[i].strikes + 1)]
            && s1.chanceDeck == s.chanceDeck && s1.bankruptcy.None? && s1.turn.pending.None? && s1.turn.current == 1 - i && s1.turn.streak == 0
            && s1.turn.phase == if s.players[1 - i].jail.Some? then JailDecision else PreRoll
  {
    hide Inv, DeckKept, NextOffset, ResolveSurrender, ActiveSeats;
    var s0 := WithPlayer(s, c.current, s.players[c.current].(strikes := s.players[c.current].strikes + 1));
    TwoActive(s0.players);
  }

  // ---------------------------------------------------------------- runs

  /** One more accepted command at the end of an orderly run. */
  lemma RunOn(g: Config, start: State, steps: seq<Move>, cmd: Command, env: Env)
    requires ValidConfig(g) && Good(g, start) && OrderlyRun(g, start, steps)
    requires var s := Run(g, start, steps); s.turn.current < |s.players| && Orderly(s, cmd) && Apply(g, s, cmd, env).Ok?
    ensures OrderlyRun(g, start, steps + [Move(cmd, env)])
    ensures Run(g, start, steps + [Move(cmd, env)]) == Apply(g, Run(g, start, steps), cmd, env).s
  {
    hide ValidConfig, Good, Orderly, Apply;
    var all := steps + [Move(cmd, env)];
    assert all[..|all| - 1] == steps;
  }

  /** The orderly run from `start` leads into the scene. */
  ghost predicate Reached(g: Config, start: State, steps: seq<Move>, c: Scene)
    requires ValidConfig(g) && Good(g, start)
  {
    OrderlyRun(g, start, steps) && In(g, Run(g, start, steps), c)
  }

  function Throw(env: Env, die1: int, die2: int): Env {
    env.(die1 := die1, die2 := die2)
  }

  /** The dice leave the player of the scene where they are. */
  predicate Stays(c: Scene, dice: DiceRoll)
  {
    var jail := c.mine.jail;
    if jail.Some? then !dice.isDoubles && jail.value - 1 > 0 else dice.isDoubles && c.streak + 1 >= DOUBLES_JAIL_THRESHOLD
  }

  /** The scene after a roll onto a quiet corner. */
  function AtCorner(g: Config, c: Scene, dice: DiceRoll, to: int): Scene
  {
    var piece := c.mine;
    var again := dice.isDoubles && piece.jail.None?;
    Acted(c, to, piece.balance - if piece.jail.Some? && !dice.isDoubles then g.jailFine else 0, None)
      .(phase := if again then PreRoll else PostRoll, streak := if again then c.streak + 1 else 0)
  }

  /** The scene after a roll that leaves the player in jail. */
  function InJail(g: Config, c: Scene): Scene
  {
    var piece := c.mine;
    Acted(c, if piece.jail.Some? then piece.position else g.jail, piece.balance,
          Some(if piece.jail.Some? then piece.jail.value - 1 else JAIL_TURNS_INITIAL)).(phase := PostRoll, streak := 0)
  }

  predicate MayRoll(c: Scene) {
    c.current < 2 && c.phase == if c.mine.jail.Some? then JailDecision else PreRoll
  }

  lemma CornerNext(g: Config, start: State, steps: seq<Move>, c: Scene, env: Env, to: int)
    requires ValidConfig(g) && Good(g, start) && Reached(g, start, steps, c) && MayRoll(c) && !Stays(c, DiceOf(g, env))
    requires OnBoard(g, c.mine.position)
    requires OntoCorner(g, c.mine.position, DiceOf(g, env).die1 + DiceOf(g, env).die2)
    requires to == AdvancePosition(g, c.mine.position, DiceOf(g, env).die1 + DiceOf(g, env).die2).0
    ensures Reached(g, start, steps + [Move(RollDice(c.current), env)], AtCorner(g, c, DiceOf(g, env), to))
  {
    hide ValidConfig, Good, Inv, OrderlyRun, Apply, Run, OntoCorner, AdvancePosition;
    var s := Run(g, start, steps);
    CornerScene(g, s, c, env);
    RunOn(g, start, steps, RollDice(c.current), env);
  }

  lemma StayNext(g: Config, start: State, steps: seq<Move>, c: Scene, env: Env)
    requires ValidConfig(g) && Good(g, start) && Reached(g, start, steps, c) && MayRoll(c) && Stays(c, DiceOf(g, env))
    ensures Reached(g, start, steps + [Move(RollDice(c.current), env)], InJail(g, c))
  {
    hide ValidConfig, Good, Inv, OrderlyRun, Apply, Run;
    var s := Run(g, start, steps);
    StayScene(g, s, c, env);
    RunOn(g, start, steps, RollDice(c.current), env);
  }

  lemma EndNext(g: Config, start: State, steps: seq<Move>, c: Scene, env: Env)
    requires ValidConfig(g) && Good(g, start) && Reached(g, start, steps, c) && c.phase == PostRoll && c.current < 2
    ensures Reached(g, start, steps + [Move(EndTurn(c.current), env)],
                    Handed(c.(mine := c.mine.(strikes := 0))))
  {
    hide ValidConfig, Good, Inv, OrderlyRun, Apply, Run;
    var s := Run(g, start, steps);
    EndScene(g, s, c, env);
    RunOn(g, start, steps, EndTurn(c.current), env);
  }

  /** The other player lets the clock run out. */
  lemma ClockNext(g: Config, start: State, steps: seq<Move>, c: Scene, env: Env) returns (m: Move)
    requires ValidConfig(g) && Good(g, start) && Reached(g, start, steps, c) && IsActivePhase(c.phase) && c.current < 2
    requires c.mine.strikes + 1 < MAX_AFK_STRIKES
    ensures Reached(g, start, steps + [m],
                    Handed(c.(mine := c.mine.(strikes := c.mine.strikes + 1))))
  {
    hide ValidConfig, Good, Inv, OrderlyRun, Apply, Run;
    var s := Run(g, start, steps);
    InLive(g, s, c);
    var env' := env.(now := s.turn.deadline.value);
    m := Move(TurnTimeout, env');
    ClockScene(g, s, c, env');
    RunOn(g, start, steps, TurnTimeout, env');
  }
}
