/** The card decks, and the nearest square a card names. */
module Decks {
  import opened GameTypes
  import opened Seqs
  import opened Soundness
  import opened Landing
  import opened Setup

  // ---------------------------------------------------------------- drawing

  /** The deck after `n` draws, and the cards drawn. */
  function DrawMany(g: Config, deck: seq<CardId>, n: nat): (r: (seq<CardId>, seq<CardId>))
    requires deck != [] && forall k :: 0 <= k < |deck| ==> !IsJailCard(g, deck[k])
    ensures |r.0| == |deck| && forall k :: 0 <= k < |r.0| ==> !IsJailCard(g, r.0[k])
  {
    if n == 0 then (deck, [])
    else
      var (d, cards) := DrawMany(g, deck, n - 1);
      var (d', card) := DrawFrom(g, d, []);
      (d', cards + [card])
  }

  lemma {:induction false} DrawRotates(g: Config, deck: seq<CardId>, n: nat)
    requires deck != [] && forall k :: 0 <= k < |deck| ==> !IsJailCard(g, deck[k])
    requires n <= |deck|
    ensures DrawMany(g, deck, n) == (deck[n..] + deck[..n], deck[..n])
  {
    if n == 0 {
      assert deck[0..] + deck[..0] == deck;
    } else {
      DrawRotates(g, deck, n - 1);
      var d := deck[n - 1..] + deck[..n - 1];
      assert d[0] == deck[n - 1] && d[1..] + [d[0]] == deck[n..] + deck[..n];
      assert deck[..n] == deck[..n - 1] + [deck[n - 1]];
    }
  }

  /** A deck without jail cards is a wheel: as many draws as it has cards turn up every card once, in
      order, and leave the deck as it was. */
  lemma FullCycle(g: Config, deck: seq<CardId>)
    requires deck != [] && forall k :: 0 <= k < |deck| ==> !IsJailCard(g, deck[k])
    ensures DrawMany(g, deck, |deck|) == (deck, deck)
  {
    DrawRotates(g, deck, |deck|);
    assert deck[|deck|..] + deck[..|deck|] == deck && deck[..|deck|] == deck;
  }

  /** On every run whatsoever each ordinary card is in its deck exactly as often as at the start, so a
      card square never meets an empty deck and the reshuffle is never needed. */
  lemma DecksConserved(g: Config, order: seq<int>, balance: int, chance: seq<CardId>, chest: seq<CardId>, now: int, steps: seq<Move>)
    requires ValidConfig(g) && order != []
    requires multiset(chance) == multiset(g.chanceDeck) && multiset(chest) == multiset(g.chestDeck)
    ensures Good(g, NewGame(g, order, balance, chance, chest, now))
    ensures var s := Run(g, NewGame(g, order, balance, chance, chest, now), steps);
            && (forall id :: !IsJailCard(g, id) ==> multiset(s.chanceDeck)[id] == multiset(chance)[id]
                                                    && multiset(s.chestDeck)[id] == multiset(chest)[id])
            && (forall p :: OnBoard(g, p) ==> (SpaceAt(g, p).kind == Chance ==> s.chanceDeck != [])
                                              && (SpaceAt(g, p).kind == Chest ==> s.chestDeck != []))
  {
    hide ValidConfig, Run, NewGame;
    Reachable(g, order, balance, chance, chest, now, steps);
    var s := Run(g, NewGame(g, order, balance, chance, chest, now), steps);
    forall p | OnBoard(g, p)
      ensures (SpaceAt(g, p).kind == Chance ==> s.chanceDeck != []) && (SpaceAt(g, p).kind == Chest ==> s.chestDeck != [])
    {
      SquareDeck(g, s, p);
    }
  }

  lemma SquareDeck(g: Config, s: State, p: int)
    requires ValidConfig(g) && Good(g, s) && OnBoard(g, p)
    ensures SpaceAt(g, p).kind == Chance ==> s.chanceDeck != []
    ensures SpaceAt(g, p).kind == Chest ==> s.chestDeck != []
  {
    assert SpaceOk(g, p);
    if SpaceAt(g, p).kind == Chance { DeckNotEmpty(g, s.chanceDeck, g.chanceDeck); }
    if SpaceAt(g, p).kind == Chest { DeckNotEmpty(g, s.chestDeck, g.chestDeck); }
  }

  // ---------------------------------------------------------------- the nearest railroad or utility

  /** Steps ahead of `from` at which square `p` is met, going round the board at most once. */
  function Ahead(g: Config, from: int, p: int): (k: int)
    requires OnBoard(g, from) && OnBoard(g, p)
    ensures 1 <= k <= |g.board|
  {
    if p > from then p - from else |g.board| - from + p
  }

  lemma AheadReaches(g: Config, from: int, k: int)
    requires OnBoard(g, from) && 1 <= k <= |g.board|
    ensures var p := AdvancePosition(g, from, k).0; OnBoard(g, p) && Ahead(g, from, p) == k
  {
    ModOnce(from - 1 + k, |g.board|);
  }

  lemma {:induction false} NearestFromIsFirst(g: Config, from: int, targets: set<int>, steps: nat)
    requires OnBoard(g, from) && 1 <= steps <= |g.board|
    requires exists k :: steps <= k <= |g.board| && AdvancePosition(g, from, k).0 in targets
    ensures var p := NearestFrom(g, from, targets, steps);
            && OnBoard(g, p) && p in targets && Ahead(g, from, p) >= steps
            && forall q :: q in targets && OnBoard(g, q) && Ahead(g, from, q) >= steps ==> Ahead(g, from, p) <= Ahead(g, from, q)
    decreases |g.board| - steps
  {
    hide AdvancePosition, Ahead;
    AheadReaches(g, from, steps);
    var p := AdvancePosition(g, from, steps).0;
    if p !in targets {
      NearestFromIsFirst(g, from, targets, steps + 1);
      forall q | q in targets && OnBoard(g, q) && Ahead(g, from, q) >= steps
        ensures Ahead(g, from, q) >= steps + 1
      {
        if Ahead(g, from, q) == steps {
          SameAhead(g, from, p, q);
        }
      }
    }
  }

  lemma SameAhead(g: Config, from: int, p: int, q: int)
    requires OnBoard(g, from) && OnBoard(g, p) && OnBoard(g, q) && Ahead(g, from, p) == Ahead(g, from, q)
    ensures p == q
  {}

  /** `nearest_position` is the target met first when walking on from `from`; standing on a target, it is
      the next one, or the same square a full lap later. */
  lemma NearestIsFirst(g: Config, from: int, targets: set<int>)
    requires OnBoard(g, from) && exists q :: q in targets && OnBoard(g, q)
    ensures var p := Nearest(g, from, targets);
            OnBoard(g, p) && p in targets
            && forall q :: q in targets && OnBoard(g, q) ==> Ahead(g, from, p) <= Ahead(g, from, q)
  {
    var q :| q in targets && OnBoard(g, q);
    TargetReachable(g, from, targets, q);
    NearestFromIsFirst(g, from, targets, 1);
  }

  /** The searching loop of `nearest_position`. */
  method NearestPosition(g: Config, from: int, targets: set<int>) returns (p: int)
    requires OnBoard(g, from) && exists q :: q in targets && OnBoard(g, q)
    ensures p == Nearest(g, from, targets)
  {
    ghost var q :| q in targets && OnBoard(g, q);
    TargetReachable(g, from, targets, q);
    var steps := 1;
    while steps <= |g.board|
      invariant 1 <= steps <= |g.board| + 1
      invariant exists k :: steps <= k <= |g.board| && AdvancePosition(g, from, k).0 in targets
      invariant steps <= |g.board| && Nearest(g, from, targets) == NearestFrom(g, from, targets, steps)
    {
      p := AdvancePosition(g, from, steps).0;
      if p in targets {
        return;
      }
      steps := steps + 1;
    }
  }
}
