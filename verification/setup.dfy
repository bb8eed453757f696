/** `setup.py`: a new game, and the runs that start from it. */
module Setup {
  import opened GameTypes
  import opened Seqs
  import opened Soundness
  import opened Worth
  import opened Payments
  import opened LandingChain
  import opened Elimination
  import opened Handlers
  import opened Engine
  import opened Invariants
  import opened StepTable
  import opened Steps

  // ---------------------------------------------------------------- new_game

  function NewPlayer(g: Config, userId: int, balance: int): Player {
    Player(userId, g.start, balance, [], 0, None, false, balance, 0, None)
  }

  function NewPlayers(g: Config, order: seq<int>, balance: int): (r: seq<Player>)
    ensures |r| == |order|
    ensures forall i :: 0 <= i < |r| ==> r[i] == NewPlayer(g, order[i], balance)
  {
    seq(|order|, i requires 0 <= i < |order| => NewPlayer(g, order[i], balance))
  }

  function BareTiles(g: Config): (r: seq<Tile>)
    ensures |r| == |g.board| && forall k :: 0 <= k < |r| ==> r[k] == BARE
  {
    seq(|g.board|, _ => BARE)
  }

  /** `new_game`, followed by the `with_actions` of `start_game`: `order`, `chance` and `chest` are the
      shuffled members and decks. */
  function NewGame(g: Config, order: seq<int>, balance: int, chance: seq<CardId>, chest: seq<CardId>, now: int): State
    requires order != []
  {
    var turn := Turn(PreRoll, 0, 1, 1, None, 0, 0, NO_ACTIONS, None, Some(now + g.turnTimeout));
    WithActions(g, State(NewPlayers(g, order, balance), turn, BareTiles(g), None, None, None, None, false, None,
                         BANK_HOUSES, BANK_HOTELS, chance, chest))
  }

  /** The loop of `new_game` that seats the players. */
  method SeatPlayers(g: Config, order: seq<int>, balance: int) returns (players: seq<Player>)
    ensures players == NewPlayers(g, order, balance)
  {
    players := [];
    for turnOrder := 0 to |order|
      invariant |players| == turnOrder
      invariant forall i :: 0 <= i < turnOrder ==> players[i] == NewPlayer(g, order[i], balance)
    {
      players := players + [NewPlayer(g, order[turnOrder], balance)];
    }
  }

  lemma ShuffledDeck(g: Config, deck: seq<CardId>, full: seq<CardId>)
    requires multiset(deck) == multiset(full)
    requires forall k :: 0 <= k < |full| ==> CardOk(g, full[k])
    ensures DeckKept(g, deck, full)
  {
    forall k | 0 <= k < |deck| ensures CardOk(g, deck[k]) {
      assert deck[k] in multiset(deck);
      assert deck[k] in multiset(full);
      assert deck[k] in full;
    }
  }

  lemma NewGameGood(g: Config, order: seq<int>, balance: int, chance: seq<CardId>, chest: seq<CardId>, now: int)
    requires ValidConfig(g) && order != []
    requires multiset(chance) == multiset(g.chanceDeck) && multiset(chest) == multiset(g.chestDeck)
    ensures Good(g, NewGame(g, order, balance, chance, chest, now))
  {
    hide DeckKept, ComputeActions;
    ShuffledDeck(g, chance, g.chanceDeck);
    ShuffledDeck(g, chest, g.chestDeck);
  }

  lemma {:induction false} AllActive(players: seq<Player>, k: nat)
    requires k <= |players| && forall i :: 0 <= i < |players| ==> !players[i].bankrupt
    ensures |ActiveSeats(players, k)| == k
  {
    if k > 0 {
      AllActive(players, k - 1);
    }
  }

  lemma {:induction false} SumZeros(xs: seq<int>)
    requires forall i :: 0 <= i < |xs| ==> xs[i] == 0
    ensures Sum(xs) == 0
  {
    if xs != [] {
      SumZeros(xs[..|xs| - 1]);
    }
  }

  /** The base case: a new game with at least two players satisfies every invariant. */
  lemma NewGameInvariant(g: Config, order: seq<int>, balance: int, chance: seq<CardId>, chest: seq<CardId>, now: int)
    requires ValidConfig(g) && |order| >= 2
    requires multiset(chance) == multiset(g.chanceDeck) && multiset(chest) == multiset(g.chestDeck)
    ensures Inv(g, NewGame(g, order, balance, chance, chest, now))
  {
    hide ValidConfig, Good, ComputeActions, Sum, ActiveSeats;
    var s := NewGame(g, order, balance, chance, chest, now);
    NewGameGood(g, order, balance, chance, chest, now);
    AllActive(s.players, |s.players|);
    SumZeros(Houses(s.tiles));
    SumZeros(Hotels(s.tiles));
    assert Owns(s);
    assert Streets(g, s.tiles);
    assert WorthFresh(g, s);
  }

  lemma {:induction false} SumSame(xs: seq<int>, v: int)
    requires forall i :: 0 <= i < |xs| ==> xs[i] == v
    ensures Sum(xs) == |xs| * v
  {
    if xs != [] {
      SumSame(xs[..|xs| - 1], v);
      assert |xs| * v == (|xs| - 1) * v + v;
    }
  }

  /** How a game begins: the members in the given order, each on the start square with the same cash and nothing else, so
      much money in all and all 32 houses and 12 hotels with the bank; the first seat is to roll. */
  lemma NewGameTable(g: Config, order: seq<int>, balance: int, chance: seq<CardId>, chest: seq<CardId>, now: int)
    requires order != []
    ensures var s := NewGame(g, order, balance, chance, chest, now);
            && |s.players| == |order| && Money(s) == |order| * balance
            && (forall i :: 0 <= i < |order| ==>
                  var p := s.players[i];
                  p.userId == order[i] && p.position == g.start && p.balance == balance && p.netWorth == balance && p.owned == []
                  && p.jailCards == 0 && p.jail.None? && !p.bankrupt && p.strikes == 0 && p.eliminatedAt.None?)
            && |s.tiles| == |g.board| && (forall p :: 1 <= p <= |s.tiles| ==> TileAt(s.tiles, p) == BARE)
            && s.bankHouses == AllHouses(s) == 32 && s.bankHotels == AllHotels(s) == 12
            && s.chanceDeck == chance && s.chestDeck == chest
            && s.turn.current == 0 && s.turn.phase == PreRoll && s.turn.number == 1 && s.turn.round == 1 && s.turn.streak == 0
            && s.turn.tradeOffers == 0 && s.turn.pending.None? && s.turn.dice.None? && s.turn.deadline == Some(now + g.turnTimeout)
            && s.auction.None? && s.trade.None? && s.bankruptcy.None? && s.activeCard.None? && !s.finished && s.winner.None?
  {
    hide ComputeActions, Sum;
    var s := NewGame(g, order, balance, chance, chest, now);
    SumSame(Balances(s.players), balance);
    SumZeros(Houses(s.tiles));
    SumZeros(Hotels(s.tiles));
  }

  // ---------------------------------------------------------------- runs

  datatype Move = Move(cmd: Command, env: Env)

  /** The state after a list of commands; refused commands change nothing. */
  function Run(g: Config, s: State, steps: seq<Move>): (r: State)
    requires ValidConfig(g) && Good(g, s)
    ensures Good(g, r)
  {
    if steps == [] then s
    else
      var s' := Run(g, s, steps[..|steps| - 1]);
      var last := steps[|steps| - 1];
      var r := Apply(g, s', last.cmd, last.env);
      if r.Ok? then r.s else s'
  }

  /** Every command of the list is orderly in the state it meets. */
  ghost predicate OrderlyRun(g: Config, s: State, steps: seq<Move>)
    requires ValidConfig(g) && Good(g, s)
  {
    steps == [] ||
    (OrderlyRun(g, s, steps[..|steps| - 1])
     && var s' := Run(g, s, steps[..|steps| - 1]);
        s'.turn.current < |s'.players| && Orderly(s', steps[|steps| - 1].cmd))
  }

  /** Every state of every orderly run satisfies every invariant. */
  lemma {:induction false} RunInvariant(g: Config, s: State, steps: seq<Move>)
    requires ValidConfig(g) && Inv(g, s) && OrderlyRun(g, s, steps)
    ensures Inv(g, Run(g, s, steps))
  {
    hide ValidConfig, Inv, Orderly, Apply;
    InvParts(g, s);
    if steps != [] {
      var n := |steps| - 1;
      RunInvariant(g, s, steps[..n]);
      InvParts(g, Run(g, s, steps[..n]));
      if Apply(g, Run(g, s, steps[..n]), steps[n].cmd, steps[n].env).Ok? {
        StepInvariant(g, Run(g, s, steps[..n]), steps[n].cmd, steps[n].env);
      }
    }
  }

  /** From a new game on, every reachable state of every run whatsoever is well-formed, and on orderly
      runs of at least two players it satisfies every invariant. */
  lemma Reachable(g: Config, order: seq<int>, balance: int, chance: seq<CardId>, chest: seq<CardId>, now: int, steps: seq<Move>)
    requires ValidConfig(g) && order != []
    requires multiset(chance) == multiset(g.chanceDeck) && multiset(chest) == multiset(g.chestDeck)
    ensures Good(g, NewGame(g, order, balance, chance, chest, now))
    ensures Good(g, Run(g, NewGame(g, order, balance, chance, chest, now), steps))
    ensures |order| >= 2 && OrderlyRun(g, NewGame(g, order, balance, chance, chest, now), steps) ==>
              Inv(g, Run(g, NewGame(g, order, balance, chance, chest, now), steps))
  {
    hide ValidConfig, Good, Inv, OrderlyRun, Run, NewGame;
    NewGameGood(g, order, balance, chance, chest, now);
    var s := NewGame(g, order, balance, chance, chest, now);
    if |order| >= 2 && OrderlyRun(g, s, steps) {
      NewGameInvariant(g, order, balance, chance, chest, now);
      RunInvariant(g, s, steps);
    }
  }
}
