/** Classic games: what the laws of the other modules say of them, and games that break the laws that fail. */
module ClassicGames {
  import opened GameTypes
  import opened Soundness
  import opened Landing
  import opened Handlers
  import opened Engine
  import opened Invariants
  import opened Setup
  import opened Timers
  import opened Foresight
  import opened Solvency
  import opened Decisions
  import opened Scenes
  import opened Boards

  // ---------------------------------------------------------------- the amounts of the classic mode

  predicate SquareSensible(s: Space) {
    s.houseCost >= 0 && s.mortgageValue >= 0
  }

  predicate AllSensible(effects: seq<Effect>) {
    forall k :: 0 <= k < |effects| ==> SensibleEffect(effects[k])
  }

  lemma NormalAmounts()
    ensures forall k :: 0 <= k < 10 ==> SquareSensible(SIDE_1[k]) && SquareSensible(SIDE_2[k])
                                        && SquareSensible(SIDE_3[k]) && SquareSensible(SIDE_4[k])
    ensures AllSensible(CHANCE_EFFECTS) && AllSensible(CHEST_EFFECTS) && AllSensible(DUEL_EFFECTS)
  {}

  /** The classic mode charges nobody by a credit, so its games are covered by `Solvency.StepSolvent`. */
  lemma NormalIsSensible(goSalary: int, jailFine: int)
    requires goSalary >= 0
    ensures Sensible(Normal(goSalary, jailFine))
  {
    NormalAmounts();
    Side1();
    Side2();
    Side3();
    Side4();
    hide SIDE_1, SIDE_2, SIDE_3, SIDE_4, CHANCE_EFFECTS, CHEST_EFFECTS, DUEL_EFFECTS, CHANCE_DECK, CHEST_DECK, DUEL_DECK,
         SquaresOk, SensibleEffect;
    var g := Normal(goSalary, jailFine);
    forall p | 1 <= p <= |g.board| ensures SquareSensible(SpaceAt(g, p)) {
      var k := p - 1;
      assert g.board[k] == (if k < 10 then SIDE_1[k] else if k < 20 then SIDE_2[k - 10]
                            else if k < 30 then SIDE_3[k - 20] else SIDE_4[k - 30]);
    }
    forall id | id in g.cards ensures SensibleEffect(g.cards[id]) {
      assert IsCard(id);
    }
  }

  // ---------------------------------------------------------------- classic games that break the laws

  /** A deck cut so that its card `k` is on top. */
  function Cut(deck: seq<CardId>, k: nat): (r: seq<CardId>)
    requires k < |deck|
    ensures multiset(r) == multiset(deck) && r != [] && r[0] == deck[k]
  {
    assert deck == deck[..k] + deck[k..];
    deck[k..] + deck[..k]
  }

  /** A classic game about to begin, with chance card `k + 1` on top. */
  function Classic(goSalary: int, jailFine: int, order: seq<int>, balance: int, k: nat, now: int): State
    requires order != [] && k < |CHANCE_DECK|
  {
    NewGame(Normal(goSalary, jailFine), order, balance, Cut(CHANCE_DECK, k), CHEST_DECK, now)
  }

  lemma ClassicSquares()
    ensures |NORMAL_BOARD| == 40 && NORMAL_BOARD[7] == CHANCE_SQUARE && NORMAL_BOARD[22] == CHANCE_SQUARE
  {}

  lemma ClassicCards()
    ensures |CHANCE_DECK| == 16 && CHANCE_DECK[6] == ChanceCard(7) && CHANCE_DECK[14] == ChanceCard(15)
    ensures ChanceCard(7) in AllCards() && AllCards()[ChanceCard(7)] == Collect(50)
    ensures ChanceCard(15) in AllCards() && AllCards()[ChanceCard(15)] == PayEach(50)
  {}

  lemma ClassicInvariant(goSalary: int, jailFine: int, order: seq<int>, balance: int, k: nat, now: int)
    requires |order| >= 2 && k < |CHANCE_DECK|
    ensures ValidConfig(Normal(goSalary, jailFine))
    ensures Inv(Normal(goSalary, jailFine), Classic(goSalary, jailFine, order, balance, k, now))
  {
    hide ValidConfig, Inv, Normal, CHANCE_DECK, CHEST_DECK, ComputeActions;
    NormalIsValid(goSalary, jailFine);
    var g := Normal(goSalary, jailFine);
    assert g.chanceDeck == CHANCE_DECK && g.chestDeck == CHEST_DECK by { DecksOfNormal(goSalary, jailFine); }
    NewGameInvariant(g, order, balance, Cut(CHANCE_DECK, k), CHEST_DECK, now);
  }

  lemma DecksOfNormal(goSalary: int, jailFine: int)
    ensures Normal(goSalary, jailFine).chanceDeck == CHANCE_DECK && Normal(goSalary, jailFine).chestDeck == CHEST_DECK
  {}

  /** The roll of 3 and 4 from GO, or of a double six from jail, onto a chance square whose card moves nobody. */
  lemma ChanceFate(g: Config, s: State, dice: DiceRoll, k: nat)
    requires ValidConfig(g) && Good(g, s) && 0 < |s.players| && k < |CHANCE_DECK| && g.board == NORMAL_BOARD
    requires s.chanceDeck == Cut(CHANCE_DECK, k) && CHANCE_DECK[k] in g.cards
    requires !Moves(g.cards[CHANCE_DECK[k]]) && !g.cards[CHANCE_DECK[k]].GoToJail?
    requires if s.players[0].jail.None? then s.players[0].position == 1 && dice.die1 + dice.die2 == 7
             else s.players[0].position == 11 && dice.die1 + dice.die2 == 12 && dice.isDoubles
    ensures RollFate(g, s, 0, dice) == Fate(Card(g.cards[CHANCE_DECK[k]]), if s.players[0].jail.None? then 8 else 23, s.players[0].balance)
  {
    hide ValidConfig, Good, DeckKept, CHANCE_DECK, NORMAL_BOARD, Foretell, AdvancePosition, Cut;
    var to := if s.players[0].jail.None? then 8 else 23;
    OntoChance(g);
    DecksOf(g, s);
    NextCardFate(g, s.chanceDeck, s.chestDeck, to, s.players[0].balance);
  }

  lemma OntoChance(g: Config)
    requires g.board == NORMAL_BOARD
    ensures |g.board| == 40 && AdvancePosition(g, 1, 7) == (8, false) && AdvancePosition(g, 11, 12) == (23, false)
    ensures SpaceAt(g, 8) == CHANCE_SQUARE && SpaceAt(g, 23) == CHANCE_SQUARE
  {
    hide NORMAL_BOARD;
    ClassicSquares();
  }

  lemma {:induction false} EveryoneElse(players: seq<Player>, k: nat)
    requires k <= |players| && forall j :: 0 <= j < |players| ==> !players[j].bankrupt
    ensures ActiveOthers(players, 0, k) == if k == 0 then 0 else k - 1
  {
    if k > 0 {
      EveryoneElse(players, k - 1);
    }
  }

  lemma ClassicStart(goSalary: int, jailFine: int, order: seq<int>, balance: int, k: nat, now: int)
    requires |order| >= 2 && k < |CHANCE_DECK|
    ensures var g := Normal(goSalary, jailFine);
            g.board == NORMAL_BOARD && g.cards == AllCards() && g.diceCount == 2 && g.goSalary == goSalary && g.jail == 11
    ensures var s := Classic(goSalary, jailFine, order, balance, k, now);
            && |s.players| == |order| && s.chanceDeck == Cut(CHANCE_DECK, k) && s.bankruptcy.None?
            && s.turn.current == 0 && s.turn.phase == PreRoll && s.turn.streak == 0
            && (forall j :: 0 <= j < |s.players| ==> s.players[j].balance == balance && !s.players[j].bankrupt)
            && (forall j :: 0 <= j < |s.players| ==>
                  s.players[j].position == 1 && s.players[j].jail.None? && s.players[j].strikes == 0 && s.players[j].owned == [])
            && s.turn.pending.None?
  {
    hide NORMAL_BOARD, AllCards, CHANCE_DECK, CHEST_DECK, Cut, ComputeActions;
  }

  lemma RollHandled(g: Config, s: State, env: Env)
    requires ValidConfig(g) && Good(g, s) && s.turn.current == 0 < |s.players|
    requires s.turn.phase == (if s.players[0].jail.Some? then JailDecision else PreRoll)
    ensures Apply(g, s, RollDice(0), env).Ok?
  {
    hide ValidConfig, Good, ExecuteMove, Wrap, ResetStrikes, HandleSystem, DispatchOpen;
  }

  /** The first roll of a classic game: 3 and 4 onto the first chance square, whose card makes the roller pay 50 to each
      of the others.  It is accepted, and leaves the roller overdrawn exactly when the balance is less than that. */
  lemma ClassicOverdraft(goSalary: int, jailFine: int, order: seq<int>, balance: int, now: int, env: Env)
    requires goSalary >= 0 && |order| >= 2 && balance >= 0 && env.die1 == 3 && env.die2 == 4
    ensures 14 < |CHANCE_DECK|
    ensures var g := Normal(goSalary, jailFine);
            var s := Classic(goSalary, jailFine, order, balance, 14, now);
            && ValidConfig(g) && Inv(g, s) && Solvent(s) && Apply(g, s, RollDice(0), env).Ok?
            && (Solvent(Apply(g, s, RollDice(0), env).s) <==> balance >= 50 * (|order| - 1))
  {
    ClassicCards();
    hide ValidConfig, Good, Inv, Normal, CHANCE_DECK, Cut, Apply, Classic, RollFate, ActiveOthers, Sensible,
         AllCards, Affordable;
    var g := Normal(goSalary, jailFine);
    var s := Classic(goSalary, jailFine, order, balance, 14, now);
    ClassicInvariant(goSalary, jailFine, order, balance, 14, now);
    ClassicStart(goSalary, jailFine, order, balance, 14, now);
    NormalIsSensible(goSalary, jailFine);
    InvGood(g, s);
    RollHandled(g, s, env);
    StepSolvent(g, s, RollDice(0), env);
    ChanceFate(g, s, DiceOf(g, env), 14);
    EveryoneElse(s.players, |s.players|);
    PayEachFirst(g, s, env, balance);
  }

  lemma PayEachFirst(g: Config, s: State, env: Env, balance: int)
    requires ValidConfig(g) && Good(g, s) && s.turn.current == 0 < |s.players|
    requires s.players[0].jail.None? && !DiceOf(g, env).isDoubles
    requires RollFate(g, s, 0, DiceOf(g, env)) == Fate(Card(PayEach(50)), 8, balance)
    ensures Affordable(g, s, RollDice(0), env) <==> balance >= 50 * ActiveOthers(s.players, 0, |s.players|)
  {
    hide ValidConfig, Good, RollFate, ActiveOthers;
  }

  /** The same roll with a card that pays 50 instead: no doubles, and the roller may roll again. */
  lemma ClassicRollAgain(goSalary: int, jailFine: int, order: seq<int>, balance: int, now: int, env: Env, env': Env)
    requires |order| >= 2 && env.die1 == 3 && env.die2 == 4
    ensures 6 < |CHANCE_DECK|
    ensures var g := Normal(goSalary, jailFine);
            var s := Classic(goSalary, jailFine, order, balance, 6, now);
            && ValidConfig(g) && Inv(g, s) && Apply(g, s, RollDice(0), env).Ok?
            && Apply(g, Apply(g, s, RollDice(0), env).s, RollDice(0), env').Ok?
  {
    ClassicCards();
    hide ValidConfig, Good, Inv, Normal, CHANCE_DECK, Apply, Classic, RollFate, AllCards;
    var g := Normal(goSalary, jailFine);
    var s := Classic(goSalary, jailFine, order, balance, 6, now);
    ClassicInvariant(goSalary, jailFine, order, balance, 6, now);
    ClassicStart(goSalary, jailFine, order, balance, 6, now);
    InvGood(g, s);
    RollHandled(g, s, env);
    ChanceFate(g, s, DiceOf(g, env), 6);
    RollAgain(g, s, RollDice(0), env, env');
  }

  // ---------------------------------------------------------------- a classic run into and out of jail

  lemma Corners(g: Config)
    requires g.board == NORMAL_BOARD
    ensures |g.board| == 40 && OntoCorner(g, 1, 10) && OntoCorner(g, 11, 10)
    ensures AdvancePosition(g, 1, 10).0 == 11 && AdvancePosition(g, 11, 10).0 == 21
  {}

  /** A mode with the classic board, dice and jail. */
  predicate ClassicBoard(g: Config) {
    g.board == NORMAL_BOARD && g.diceCount == 2 && g.jail == 11
  }

  function Opening(balance: int, chance: seq<CardId>): Scene {
    Scene(0, PreRoll, 0, Piece(1, balance, None, 0), Piece(1, balance, None, 0), chance)
  }

  /** The first player in jail and asked for the decision. */
  function Asked(balance: int, attempts: int, other: Piece, chance: seq<CardId>): Scene {
    Scene(0, JailDecision, 0, Piece(11, balance, Some(attempts), 0), other, chance)
  }

  /** Three doubles, from GO to jail by way of two corners; the other player lets the clock run out. */
  lemma ToJail(g: Config, start: State, balance: int, chance: seq<CardId>, env: Env) returns (steps: seq<Move>)
    requires ValidConfig(g) && ClassicBoard(g) && Good(g, start) && Reached(g, start, [], Opening(balance, chance))
    ensures Reached(g, start, steps, Asked(balance, 3, Piece(1, balance, None, 1), chance))
  {
    Corners(g);
    hide ValidConfig, Good, Reached, NORMAL_BOARD, OntoCorner, AdvancePosition;
    var fives := Throw(env, 5, 5);
    var other := Piece(1, balance, None, 0);
    steps := [];
    var c := Opening(balance, chance);
    CornerNext(g, start, steps, c, fives, 11);
    steps := steps + [Move(RollDice(0), fives)];
    var c1 := Scene(0, PreRoll, 1, Piece(11, balance, None, 0), other, chance);
    CornerNext(g, start, steps, c1, fives, 21);
    steps := steps + [Move(RollDice(0), fives)];
    var c2 := Scene(0, PreRoll, 2, Piece(21, balance, None, 0), other, chance);
    StayNext(g, start, steps, c2, fives);
    steps := steps + [Move(RollDice(0), fives)];
    var c3 := Scene(0, PostRoll, 0, Piece(11, balance, Some(3), 0), other, chance);
    EndNext(g, start, steps, c3, env);
    steps := steps + [Move(EndTurn(0), env)];
    var c4 := Handed(c3);
    var m := ClockNext(g, start, steps, c4, env);
    steps := steps + [m];
  }

  /** A failed attempt, and the turn of the other player, who lets the clock run out. */
  lemma FailOnce(g: Config, start: State, before: seq<Move>, balance: int, attempts: int, other: Piece, chance: seq<CardId>, env: Env)
    returns (steps: seq<Move>)
    requires ValidConfig(g) && ClassicBoard(g) && Good(g, start) && attempts > 1
    requires Reached(g, start, before, Asked(balance, attempts, other, chance))
    requires other.jail.None? && other.strikes + 1 < MAX_AFK_STRIKES
    ensures Reached(g, start, steps, Asked(balance, attempts - 1, other.(strikes := other.strikes + 1), chance))
  {
    hide ValidConfig, Good, Reached, NORMAL_BOARD;
    var c := Asked(balance, attempts, other, chance);
    var c2 := Attempted(g, start, before, balance, attempts, other, chance, env);
    steps := before + [Move(RollDice(0), Throw(env, 1, 2))] + [Move(EndTurn(0), env)];
    var m := ClockNext(g, start, steps, c2, env);
    steps := steps + [m];
  }

  lemma Attempted(g: Config, start: State, before: seq<Move>, balance: int, attempts: int, other: Piece, chance: seq<CardId>, env: Env)
    returns (c: Scene)
    requires ValidConfig(g) && ClassicBoard(g) && Good(g, start) && attempts > 1
    requires Reached(g, start, before, Asked(balance, attempts, other, chance)) && other.jail.None?
    ensures c == Scene(1, PreRoll, 0, other, Piece(11, balance, Some(attempts - 1), 0), chance)
    ensures Reached(g, start, before + [Move(RollDice(0), Throw(env, 1, 2))] + [Move(EndTurn(0), env)], c)
  {
    hide ValidConfig, Good, Reached, NORMAL_BOARD;
    var c0 := Asked(balance, attempts, other, chance);
    StayNext(g, start, before, c0, Throw(env, 1, 2));
    var c1 := Scene(0, PostRoll, 0, Piece(11, balance, Some(attempts - 1), 0), other, chance);
    EndNext(g, start, before + [Move(RollDice(0), Throw(env, 1, 2))], c1, env);
    c := Handed(c1);
  }

  /** A failed attempt, and the turn of the other player, who walks to the jail corner and ends it. */
  lemma FailAgain(g: Config, start: State, before: seq<Move>, balance: int, attempts: int, other: Piece, chance: seq<CardId>, env: Env)
    returns (steps: seq<Move>)
    requires ValidConfig(g) && ClassicBoard(g) && Good(g, start) && attempts > 1
    requires Reached(g, start, before, Asked(balance, attempts, other, chance)) && other.jail.None? && other.position == 1
    ensures Reached(g, start, steps, Asked(balance, attempts - 1, Piece(11, other.balance, None, 0), chance))
  {
    Corners(g);
    hide ValidConfig, Good, Reached, NORMAL_BOARD, OntoCorner, AdvancePosition;
    var c2 := Attempted(g, start, before, balance, attempts, other, chance, env);
    steps := before + [Move(RollDice(0), Throw(env, 1, 2))] + [Move(EndTurn(0), env)];
    CornerNext(g, start, steps, c2, Throw(env, 4, 6), 11);
    steps := steps + [Move(RollDice(1), Throw(env, 4, 6))];
    var c3 := Scene(1, PostRoll, 0, Piece(11, other.balance, None, 0), c2.theirs, chance);
    EndNext(g, start, steps, c3, env);
    steps := steps + [Move(EndTurn(1), env)];
  }

  lemma ClassicOpening(goSalary: int, jailFine: int, order: seq<int>, balance: int, k: nat, now: int)
    requires |order| == 2 && k < |CHANCE_DECK|
    ensures var g := Normal(goSalary, jailFine);
            var s := Classic(goSalary, jailFine, order, balance, k, now);
            && ValidConfig(g) && ClassicBoard(g) && Good(g, s) && Inv(g, s)
            && Reached(g, s, [], Opening(balance, Cut(CHANCE_DECK, k)))
  {
    hide ValidConfig, Good, Inv, Normal, Classic, CHANCE_DECK, Cut;
    ClassicInvariant(goSalary, jailFine, order, balance, k, now);
    ClassicStart(goSalary, jailFine, order, balance, k, now);
    InvGood(Normal(goSalary, jailFine), Classic(goSalary, jailFine, order, balance, k, now));
  }

  /** An orderly classic run that ends in a jail decision outside jail: three doubles, a timeout of the other player, and a
      double six onto the second chance square with a card that pays 50 on top. */
  lemma ClassicDecision(goSalary: int, jailFine: int, order: seq<int>, balance: int, now: int, env: Env) returns (steps: seq<Move>)
    requires |order| == 2
    ensures 6 < |CHANCE_DECK|
    ensures var g := Normal(goSalary, jailFine);
            var s := Classic(goSalary, jailFine, order, balance, 6, now);
            && ValidConfig(g) && Good(g, s) && OrderlyRun(g, s, steps) && !Confined(Run(g, s, steps))
  {
    ClassicCards();
    hide ValidConfig, Good, Inv, Normal, CHANCE_DECK, Apply, Classic, RollFate, AllCards, OrderlyRun, Run;
    var g := Normal(goSalary, jailFine);
    var start := Classic(goSalary, jailFine, order, balance, 6, now);
    ClassicOpening(goSalary, jailFine, order, balance, 6, now);
    ClassicStart(goSalary, jailFine, order, balance, 6, now);
    steps := ToJail(g, start, balance, Cut(CHANCE_DECK, 6), env);
    var s := Run(g, start, steps);
    var sixes := Throw(env, 6, 6);
    InvGood(g, s);
    RollHandled(g, s, sixes);
    ChanceFate(g, s, DiceOf(g, sixes), 6);
    StepConfined(g, s, RollDice(0), sixes);
    RunOn(g, start, steps, RollDice(0), sixes);
    steps := steps + [Move(RollDice(0), sixes)];
  }

  /** An orderly classic run whose last roll, the third failed attempt to leave jail, takes the fine: it leaves the player
      overdrawn exactly if the balance is less. */
  lemma ClassicFine(goSalary: int, jailFine: int, order: seq<int>, balance: int, now: int, env: Env) returns (steps: seq<Move>)
    requires |order| == 2 && balance >= 0
    ensures 0 < |CHANCE_DECK|
    ensures var g := Normal(goSalary, jailFine);
            var s := Classic(goSalary, jailFine, order, balance, 0, now);
            && ValidConfig(g) && Good(g, s) && OrderlyRun(g, s, steps) && steps != []
            && Solvent(Run(g, s, steps[..|steps| - 1]))
            && (Solvent(Run(g, s, steps)) <==> balance >= jailFine)
  {
    ClassicCards();
    hide ValidConfig, Good, Inv, Normal, CHANCE_DECK, Classic, OrderlyRun, Run, OntoCorner, AdvancePosition;
    var g := Normal(goSalary, jailFine);
    var start := Classic(goSalary, jailFine, order, balance, 0, now);
    var chance := Cut(CHANCE_DECK, 0);
    ClassicOpening(goSalary, jailFine, order, balance, 0, now);
    Corners(g);
    var steps1 := ToJail(g, start, balance, chance, env);
    var steps2 := FailOnce(g, start, steps1, balance, 3, Piece(1, balance, None, 1), chance, env);
    var steps3 := FailAgain(g, start, steps2, balance, 2, Piece(1, balance, None, 2), chance, env);
    var c := Asked(balance, 1, Piece(11, balance, None, 0), chance);
    var throw := Throw(env, 4, 6);
    CornerNext(g, start, steps3, c, throw, 21);
    steps := steps3 + [Move(RollDice(0), throw)];
    assert steps[..|steps| - 1] == steps3;
    SceneSolvent(g, Run(g, start, steps3), c);
    SceneSolvent(g, Run(g, start, steps), AtCorner(g, c, DiceOf(g, throw), 21));
    FineOf(goSalary, jailFine);
  }

  lemma FineOf(goSalary: int, jailFine: int)
    ensures Normal(goSalary, jailFine).jailFine == jailFine && Normal(goSalary, jailFine).diceCount == 2
  {}

  lemma SceneSolvent(g: Config, s: State, c: Scene)
    requires In(g, s, c) && IsActivePhase(c.phase)
    ensures Solvent(s) <==> c.mine.balance >= 0 && c.theirs.balance >= 0
  {
    InLive(g, s, c);
    hide Inv;
  }
}
