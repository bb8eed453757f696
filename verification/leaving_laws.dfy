/** Leaving the game as commands: what becomes of the estate, the cash and the squares, and who plays next. */
module LeavingLaws {
  import opened GameTypes
  import opened Seqs
  import opened Soundness
  import opened Worth
  import opened Payments
  import opened Elimination
  import opened Handlers
  import opened Engine
  import opened Rotation
  import opened Invariants
  import opened ExchangeLaws
  import opened SurrenderLaws
  import opened StepProperty
  import opened StepTable
  import opened Steps
  import opened Setup
  import opened Timers
  import opened Offers
  import opened CommandLaws
  import opened Accounts
  import opened Decisions

  // ---------------------------------------------------------------- who plays next

  /** Going round the table from seat `from`, seat `j` is met before seat `next`. */
  predicate Between(from: Seat, j: Seat, next: Seat) {
    if from < next then from < j < next else j > from || j < next
  }

  /** The turn goes from seat `from` to the next active player round the table, in a new round if that is not further on; a
      prisoner is asked for the jail decision, and nothing of the old turn is left. */
  predicate Handed(s: State, s': State, from: Seat) {
    var next := s'.turn.current;
    && next < |s'.players| && !s'.players[next].bankrupt
    && (forall j: Seat :: j < |s'.players| && Between(from, j, next) ==> s'.players[j].bankrupt)
    && s'.turn == Turn(if s'.players[next].jail.Some? then JailDecision else PreRoll, next, s.turn.number + 1,
                       if next <= from then s.turn.round + 1 else s.turn.round, None, 0, 0, s'.turn.actions, None, s'.turn.deadline)
  }

  lemma {:induction false} ScanLeast(players: seq<Player>, start: nat, k: nat)
    requires players != [] && NextOffset(players, start, k).Some?
    ensures var o := NextOffset(players, start, k).value;
            && k <= o <= |players| && !players[SeatAfter(|players|, start, o)].bankrupt
            && forall j :: k <= j < o ==> players[SeatAfter(|players|, start, j)].bankrupt
    decreases |players| + 1 - k
  {
    hide SeatAfter;
    if players[SeatAfter(|players|, start, k)].bankrupt {
      ScanLeast(players, start, k + 1);
    }
  }

  lemma AdvanceHands(s: State, from: Seat)
    requires from < |s.players| && Survivors(s) != []
    ensures Handed(s, AdvanceOff(s, from), from)
  {
    hide SeatAfter, ActiveSeats, NextOffset;
    var n := |s.players|;
    SurvivorsInRange(s.players, n);
    var a := Survivors(s)[0];
    var d := if a > from then a - from else n - from + a;
    SeatAfterValue(n, from, d);
    ScanReaches(s.players, from, 1, d);
    ScanLeast(s.players, from, 1);
    var o := NextOffset(s.players, from, 1).value;
    SeatAfterValue(n, from, o);
    var next := SeatAfter(n, from, o);
    forall j: Seat | j < n && Between(from, j, next) ensures s.players[j].bankrupt {
      var e := if j > from then j - from else n - from + j;
      SeatAfterValue(n, from, e);
      assert 1 <= e < o;
    }
  }

  /** Ending the turn is accepted exactly after the roll, with nothing on offer and no debt; it hands the turn on, and nothing
      else. */
  lemma EndLaw(g: Config, s: State, env: Env)
    requires ValidConfig(g) && Inv(g, s)
    ensures Good(g, s) && s.turn.current < |s.players|
    ensures var i := s.turn.current;
            var r := Apply(g, s, EndTurn(i), env);
            && (r.Ok? <==> (s.turn.phase == PostRoll || s.turn.phase == MustPayRent) && s.turn.pending.None?)
            && (r.Ok? ==>
                  && r.s == s.(players := s.players[i := s.players[i].(strikes := 0)], activeCard := None, turn := r.s.turn)
                  && Handed(s, r.s, i) && r.events == [TurnEnded(i, r.s.turn.current)])
  {
    hide ValidConfig, Good, Inv, Apply, Dispatch, Handed, End, ActiveSeats;
    InvGood(g, s);
    CurrentInRange(g, s);
    var i := s.turn.current;
    var cmd := EndTurn(i);
    AcceptsHandler(g, s, cmd, env);
    SurvivorsInRange(s.players, |s.players|);
    EndHandled(g, s, env);
    if Apply(g, s, cmd, env).Ok? {
      TurnApplied(g, s, cmd, env);
      CardCleared(g, s, cmd, env);
      ResetStrikesOnly(Dispatch(g, s, cmd, env).s, i);
      TurnEvents(g, s, cmd, env);
      HandedStamped(s, Dispatch(g, s, cmd, env).s, Apply(g, s, cmd, env).s, i);
    }
  }

  /** The events of a command of the current player are those of its handler. */
  lemma TurnEvents(g: Config, s: State, cmd: Command, env: Env)
    requires ValidConfig(g) && Good(g, s) && !IsSystem(cmd) && !IsOpen(cmd) && cmd.player == s.turn.current
    requires Apply(g, s, cmd, env).Ok?
    ensures Dispatch(g, s, cmd, env).Ok? && Apply(g, s, cmd, env).events == Dispatch(g, s, cmd, env).events
  {
    hide ValidConfig, Good, Dispatch, Wrap, ResetStrikes;
  }

  lemma HandedStamped(s: State, s1: State, s': State, from: Seat)
    requires Handed(s, s1, from) && |s'.players| == |s1.players|
    requires forall j :: 0 <= j < |s1.players| ==> s'.players[j].bankrupt == s1.players[j].bankrupt && s'.players[j].jail == s1.players[j].jail
    requires s'.turn == s1.turn.(deadline := s'.turn.deadline, actions := s'.turn.actions)
    ensures Handed(s, s', from)
  {}

  lemma EndHandled(g: Config, s: State, env: Env)
    requires ValidConfig(g) && Inv(g, s) && Good(g, s) && s.turn.current < |s.players|
    ensures var i := s.turn.current;
            var r := Dispatch(g, s, EndTurn(i), env);
            && (r.Ok? <==> (s.turn.phase == PostRoll || s.turn.phase == MustPayRent) && s.turn.pending.None?)
            && (r.Ok? ==> s.bankruptcy.None? && r.s == s.(turn := r.s.turn) && Handed(s, r.s, i) && r.events == [TurnEnded(i, r.s.turn.current)])
  {
    hide ValidConfig, DeckKept, ActiveSeats, Streets, Owns, Inventory, WorthFresh, Handed, NextInList, AdvanceOff;
    SurvivorsInRange(s.players, |s.players|);
    assert Phases(g, s);
    if End(s, s.turn.current).Ok? {
      SameSuccessor(s, s.turn.current);
      AdvanceHands(s, s.turn.current);
    }
  }

  // ---------------------------------------------------------------- one left, or the next one plays

  predicate OneLeft(players: seq<Player>, w: Seat) {
    w < |players| && forall j: Seat :: j < |players| ==> (!players[j].bankrupt <==> j == w)
  }

  /** The last active player has won; as long as there are more, the next one after the leaving player plays. */
  ghost predicate WonOrHanded(s: State, s': State, who: Seat) {
    && (s'.finished <==> exists w :: OneLeft(s'.players, w))
    && (if s'.finished then
          && s'.winner.Some? && OneLeft(s'.players, s'.winner.value)
          && s'.turn == s.turn.(phase := GameOver, deadline := s'.turn.deadline, actions := s'.turn.actions)
        else s'.winner == s.winner && Handed(s, s', who))
  }

  lemma OneSurvivor(players: seq<Player>)
    ensures var active := ActiveSeats(players, |players|);
            && (|active| == 1 ==> OneLeft(players, active[0]))
            && (forall w :: OneLeft(players, w) ==> |active| == 1)
  {
    hide ActiveSeats;
    SurvivorsInRange(players, |players|);
    var active := ActiveSeats(players, |players|);
    assert |active| > 1 ==> active[0] != active[1];
    forall w | OneLeft(players, w) ensures |active| == 1 {
      assert w in active;
      assert forall k :: 0 <= k < |active| ==> active[k] == w;
    }
  }

  /** The last step of both ways of leaving. */
  lemma LeavesTurn(s: State, mid: State, who: Seat)
    requires who < |mid.players| && Survivors(mid) != [] && !mid.finished && mid.turn == s.turn && mid.winner == s.winner
    ensures var f := CheckWin(mid);
            var s' := if f.finished then f else AdvanceOff(f, who);
            WonOrHanded(s, s', who) && s' == mid.(finished := s'.finished, winner := s'.winner, turn := s'.turn)
  {
    hide ActiveSeats, NextOffset, SeatAfter;
    var f := CheckWin(mid);
    OneSurvivor(mid.players);
    if !f.finished {
      AdvanceHands(f, who);
    }
  }

  lemma WonStamped(s: State, s1: State, s': State, who: Seat)
    requires WonOrHanded(s, s1, who) && |s'.players| == |s1.players|
    requires forall j :: 0 <= j < |s1.players| ==> s'.players[j].bankrupt == s1.players[j].bankrupt && s'.players[j].jail == s1.players[j].jail
    requires s'.turn == s1.turn.(deadline := s'.turn.deadline, actions := s'.turn.actions)
    requires s'.finished == s1.finished && s'.winner == s1.winner
    ensures WonOrHanded(s, s', who)
  {
    if !s1.finished {
      HandedStamped(s, s1, s', who);
    }
    assert forall w :: OneLeft(s1.players, w) <==> OneLeft(s'.players, w);
  }

  // ---------------------------------------------------------------- what leaves with the player

  /** The record of a player who has left. */
  predicate Gone(p: Player, p': Player, position: int, number: int) {
    p' == p.(balance := 0, owned := [], jailCards := 0, jail := None, bankrupt := true, position := position,
             eliminatedAt := Some(number), netWorth := 0, strikes := p'.strikes)
  }

  function Copies(card: CardId, n: nat): (r: seq<CardId>)
    ensures |r| == n && forall k :: 0 <= k < n ==> r[k] == card
  {
    seq(n, _ => card)
  }

  lemma {:induction false} AppendedCopies(deck: seq<CardId>, card: CardId, n: nat)
    ensures AppendCards(deck, card, n) == deck + Copies(card, n)
  {
    if n == 0 {
      assert deck + Copies(card, 0) == deck;
    } else {
      AppendedCopies(deck, card, n - 1);
      assert Copies(card, n) == Copies(card, n - 1) + [card];
    }
  }

  /** The tenths of the mortgage values of the mortgaged squares of the list, square by square. */
  function Tenths(g: Config, tiles: seq<Tile>, owned: seq<int>): (r: seq<int>)
    ensures |r| == |g.board|
  {
    seq(|g.board|, k requires 0 <= k < |g.board| =>
      if k + 1 in owned && TileAt(tiles, k + 1).mortgaged then g.board[k].mortgageValue / 10 else 0)
  }

  /** The interest is a tenth of the mortgage value of each mortgaged square. */
  lemma {:induction false} InterestOnBoard(g: Config, tiles: seq<Tile>, owned: seq<int>)
    requires StrictlySorted(owned) && forall k :: 0 <= k < |owned| ==> OnBoard(g, owned[k])
    ensures Interest(g, tiles, owned) == Sum(Tenths(g, tiles, owned))
  {
    hide Sum;
    if owned == [] {
      SumZeros(Tenths(g, tiles, owned));
    } else {
      var n := |owned| - 1;
      var p := owned[n];
      var rest := owned[..n];
      InterestOnBoard(g, tiles, rest);
      assert p !in rest;
      assert forall q :: q in owned <==> q in rest || q == p;
      var v := if TileAt(tiles, p).mortgaged then SpaceAt(g, p).mortgageValue / 10 else 0;
      SumUpdate(Tenths(g, tiles, rest), p - 1, v);
      assert Tenths(g, tiles, owned) == Tenths(g, tiles, rest)[p - 1 := v];
    }
  }

  // ---------------------------------------------------------------- bankruptcy

  /** The estate of player `d`.  An heir gets what cash there is of the debt, less a tenth of each mortgage taken over, the
      squares as they are and the jail cards; the bank gets the squares bare and a copy of each jail card for either deck. */
  ghost predicate EstateLeft(g: Config, s: State, s': State, d: Seat, heir: Option<Seat>, owed: int)
    requires d < |s.players| && (heir.Some? ==> heir.value < |s.players|)
  {
    var p := s.players[d];
    && |s'.players| == |s.players| && |s'.tiles| == |s.tiles| && s'.bankruptcy.None? && p.jailCards >= 0
    && Gone(p, s'.players[d], g.start, s.turn.number)
    && (forall j: Seat :: j < |s.players| && j != d && heir != Some(j) ==>
          s'.players[j] == s.players[j].(netWorth := s'.players[j].netWorth))
    && (heir.Some? ==>
          var c, c' := s.players[heir.value], s'.players[heir.value];
          c' == c.(balance := c.balance + (if p.balance < owed then p.balance else owed) - Sum(Tenths(g, s.tiles, p.owned)),
                   jailCards := c.jailCards + p.jailCards, owned := c'.owned, netWorth := c'.netWorth))
    && (forall q :: 1 <= q <= |s.tiles| ==>
          TileAt(s'.tiles, q) == if TileAt(s.tiles, q).owner != Some(d) then TileAt(s.tiles, q)
                                 else if heir.Some? then TileAt(s.tiles, q).(owner := heir) else BARE)
    && s'.chanceDeck == s.chanceDeck + Copies(CHANCE_JAIL_CARD, if heir.Some? then 0 else p.jailCards)
    && s'.chestDeck == s.chestDeck + Copies(CHEST_JAIL_CARD, if heir.Some? then 0 else p.jailCards)
  }

  lemma OwnedBoard(g: Config, s: State, i: Seat)
    requires Inv(g, s) && i < |s.players|
    ensures Owns(s) && WorthFresh(g, s) && |s.tiles| == |g.board| && StrictlySorted(s.players[i].owned) && s.players[i].jailCards >= 0
    ensures forall q :: 1 <= q <= |s.tiles| ==> (q in s.players[i].owned <==> TileAt(s.tiles, q).owner == Some(i))
    ensures forall k :: 0 <= k < |s.players[i].owned| ==> OnBoard(g, s.players[i].owned[k])
  {
    hide Inventory, Phases, Assets, Good;
    var owned := s.players[i].owned;
    assert RecordOk(s.players[i], s.turn.number, s.finished);
    forall q | 1 <= q <= |s.tiles| ensures q in owned <==> TileAt(s.tiles, q).owner == Some(i) {
      assert q in owned <==> HeldBy(s.tiles, i, q);
    }
    forall k | 0 <= k < |owned| ensures OnBoard(g, owned[k]) {
      assert owned[k] in owned && HeldBy(s.tiles, i, owned[k]);
    }
  }

  lemma EstateCash(g: Config, s: State)
    requires Good(g, s) && s.bankruptcy.Some? && s.players[s.bankruptcy.value.debtor].jailCards >= 0
    ensures var b := s.bankruptcy.value;
            var p := s.players[b.debtor];
            var s' := SettleEstate(g, s);
            && |s'.players| == |s.players| && s'.players[b.debtor].netWorth == 0
            && (b.creditor.Some? ==>
                  s'.players[b.creditor.value].balance
                  == s.players[b.creditor.value].balance + (if p.balance < b.owed then p.balance else b.owed) - Interest(g, s.tiles, p.owned))
            && s'.chanceDeck == s.chanceDeck + Copies(CHANCE_JAIL_CARD, if b.creditor.Some? then 0 else p.jailCards)
            && s'.chestDeck == s.chestDeck + Copies(CHEST_JAIL_CARD, if b.creditor.Some? then 0 else p.jailCards)
  {
    hide SortedSet, DeckKept, AppendCards, Interest;
    var p := s.players[s.bankruptcy.value.debtor];
    AppendedCopies(s.chanceDeck, CHANCE_JAIL_CARD, p.jailCards);
    AppendedCopies(s.chestDeck, CHEST_JAIL_CARD, p.jailCards);
    assert s.chanceDeck + Copies(CHANCE_JAIL_CARD, 0) == s.chanceDeck && s.chestDeck + Copies(CHEST_JAIL_CARD, 0) == s.chestDeck;
  }

  lemma DebtorInRange(g: Config, s: State)
    requires Good(g, s) && s.bankruptcy.Some?
    ensures s.bankruptcy.value.debtor < |s.players|
    ensures s.bankruptcy.value.creditor.Some? ==> s.bankruptcy.value.creditor.value < |s.players|
    ensures s.bankruptcy.value.creditor != Some(s.bankruptcy.value.debtor)
  {}

  lemma EstateHandled(g: Config, s: State)
    requires ValidConfig(g) && Inv(g, s) && Good(g, s) && s.bankruptcy.Some?
    ensures var b := s.bankruptcy.value;
            && b.debtor < |s.players| && (b.creditor.Some? ==> b.creditor.value < |s.players|)
            && EstateLeft(g, s, SettleEstate(g, s), b.debtor, b.creditor, b.owed)
  {
    hide ValidConfig, Inv, Owns, WorthFresh, SortedSet, DeckKept, Interest, Sum, Tenths, SettleEstate;
    var b := s.bankruptcy.value;
    DebtorInRange(g, s);
    var p := s.players[b.debtor];
    OwnedBoard(g, s, b.debtor);
    EstateShape(g, s);
    EstateCash(g, s);
    InterestOnBoard(g, s.tiles, p.owned);
    forall q | 1 <= q <= |s.tiles|
      ensures TileAt(SettleEstate(g, s).tiles, q) == if TileAt(s.tiles, q).owner != Some(b.debtor) then TileAt(s.tiles, q)
                                                     else if b.creditor.Some? then TileAt(s.tiles, q).(owner := b.creditor) else BARE
    {
      ReleaseOwners(s.tiles, p.owned, q - 1);
    }
  }

  /** A bankruptcy is declared exactly while a debt is open.  The estate goes where it belongs, the bank's buildings are as
      they were, and the next player plays unless only one is left, who has won. */
  lemma EstateLaw(g: Config, s: State, env: Env)
    requires ValidConfig(g) && Inv(g, s)
    ensures Good(g, s) && s.turn.current < |s.players|
    ensures var i := s.turn.current;
            var r := Apply(g, s, DeclareBankruptcy(i), env);
            && (r.Ok? <==> s.bankruptcy.Some?)
            && (r.Ok? ==>
                  var b := s.bankruptcy.value;
                  && b.debtor == i && (b.creditor.Some? ==> b.creditor.value < |s.players|)
                  && EstateLeft(g, s, r.s, i, b.creditor, b.owed) && WonOrHanded(s, r.s, i) && r.events == [] && Inv(g, r.s)
                  && r.s == s.(players := r.s.players, tiles := r.s.tiles, chanceDeck := r.s.chanceDeck, chestDeck := r.s.chestDeck,
                               bankruptcy := None, activeCard := None, finished := r.s.finished, winner := r.s.winner, turn := r.s.turn))
  {
    hide ValidConfig, Good, Inv, Apply, Dispatch, EstateLeft, WonOrHanded, ResolveBankruptcy;
    InvGood(g, s);
    CurrentInRange(g, s);
    var i := s.turn.current;
    var cmd := DeclareBankruptcy(i);
    AcceptsHandler(g, s, cmd, env);
    DeclareHandled(g, s, env);
    if Apply(g, s, cmd, env).Ok? {
      var s1 := Dispatch(g, s, cmd, env).s;
      TurnApplied(g, s, cmd, env);
      CardCleared(g, s, cmd, env);
      ResetStrikesOnly(s1, i);
      TurnEvents(g, s, cmd, env);
      WonStamped(s, s1, Apply(g, s, cmd, env).s, i);
      StepInvariant(g, s, cmd, env);
      EstateStamped(g, s, s1, Apply(g, s, cmd, env).s);
    }
  }

  lemma EstateStamped(g: Config, s: State, s1: State, s': State)
    requires s.bankruptcy.Some? && s.bankruptcy.value.debtor < |s.players|
    requires s.bankruptcy.value.creditor.Some? ==> s.bankruptcy.value.creditor.value < |s.players|
    requires var b := s.bankruptcy.value;
             EstateLeft(g, s, s1, b.debtor, b.creditor, b.owed) && b.creditor != Some(b.debtor)
    requires var d := s.bankruptcy.value.debtor;
             s'.players == s1.players[d := s1.players[d].(strikes := 0)]
    requires s'.tiles == s1.tiles && s'.bankruptcy == s1.bankruptcy && s'.chanceDeck == s1.chanceDeck && s'.chestDeck == s1.chestDeck
    ensures var b := s.bankruptcy.value; EstateLeft(g, s, s', b.debtor, b.creditor, b.owed)
  {
    hide Tenths, Sum, Copies;
  }

  lemma DeclareHandled(g: Config, s: State, env: Env)
    requires ValidConfig(g) && Inv(g, s) && Good(g, s) && s.turn.current < |s.players|
    ensures var i := s.turn.current;
            var r := Dispatch(g, s, DeclareBankruptcy(i), env);
            && (r.Ok? <==> s.bankruptcy.Some?)
            && (r.Ok? ==>
                  var b := s.bankruptcy.value;
                  && b.debtor == i && b.creditor != Some(i) && (b.creditor.Some? ==> b.creditor.value < |s.players|)
                  && EstateLeft(g, s, r.s, i, b.creditor, b.owed) && WonOrHanded(s, r.s, i) && r.events == []
                  && |r.s.players| == |s.players|
                  && r.s == s.(players := r.s.players, tiles := r.s.tiles, chanceDeck := r.s.chanceDeck, chestDeck := r.s.chestDeck,
                               bankruptcy := None, finished := r.s.finished, winner := r.s.winner, turn := r.s.turn))
  {
    hide ValidConfig, Good, Inv, EstateLeft, WonOrHanded, SettleEstate, CheckWin, AdvanceOff;
    if s.bankruptcy.Some? {
      DebtorInRange(g, s);
      DebtorPlays(g, s);
      EstateHandled(g, s);
      EstateShape(g, s);
      EstateSurvivors(g, s);
      var mid := SettleEstate(g, s);
      LeavesTurn(s, mid, s.turn.current);
      EstateSame(g, s, mid, ResolveBankruptcy(g, s));
    }
  }

  lemma EstateSame(g: Config, s: State, mid: State, s': State)
    requires s.bankruptcy.Some? && s.bankruptcy.value.debtor < |s.players|
    requires s.bankruptcy.value.creditor.Some? ==> s.bankruptcy.value.creditor.value < |s.players|
    requires var b := s.bankruptcy.value; EstateLeft(g, s, mid, b.debtor, b.creditor, b.owed)
    requires s' == mid.(finished := s'.finished, winner := s'.winner, turn := s'.turn)
    ensures var b := s.bankruptcy.value; EstateLeft(g, s, s', b.debtor, b.creditor, b.owed)
  {
    hide Tenths, Sum, Copies;
  }

  lemma DebtorPlays(g: Config, s: State)
    requires Inv(g, s) && s.bankruptcy.Some? && s.turn.current < |s.players|
    ensures s.bankruptcy.value.debtor == s.turn.current && !s.finished && !s.players[s.turn.current].bankrupt && |Survivors(s)| >= 2
  {
    hide DeckKept, ActiveSeats, Streets, Owns, Inventory, WorthFresh;
    assert Phases(g, s);
  }

  lemma EstateSurvivors(g: Config, s: State)
    requires Inv(g, s) && Good(g, s) && s.bankruptcy.Some? && s.turn.current < |s.players|
    ensures Survivors(SettleEstate(g, s)) != []
  {
    hide Good, ActiveSeats, SettleEstate, Inv;
    DebtorInRange(g, s);
    DebtorPlays(g, s);
    EstateShape(g, s);
    ActiveRemove(s.players, SettleEstate(g, s).players, s.turn.current, |s.players|);
  }

  // ---------------------------------------------------------------- surrender

  /** The cash of a leaving player is split evenly among the others in the game, the earlier seats getting what is left over,
      one each; there is nothing to split unless it is positive. */
  ghost predicate CashSplit(a: seq<Player>, b: seq<Player>, who: Seat)
    requires who < |a| == |b|
  {
    var cash := a[who].balance;
    && (forall j: Seat :: j < |a| && j != who && (a[j].bankrupt || cash <= 0) ==> b[j].balance == a[j].balance)
    && (forall j: Seat, k: Seat :: j < k < |a| && j != who && k != who && !a[j].bankrupt && !a[k].bankrupt ==>
          0 <= (b[j].balance - a[j].balance) - (b[k].balance - a[k].balance) <= 1)
    && Sum(Balances(b)) == Sum(Balances(a)) - if cash > 0 && (exists j: Seat :: j < |a| && j != who && !a[j].bankrupt) then 0 else cash
  }

  /** Two of those who share the cash, the earlier seat first. */
  lemma SplitGap(players: seq<Player>, who: Seat, j: Seat, k: Seat)
    requires who < |players| && j < k < |players| && j != who && k != who && !players[j].bankrupt && !players[k].bankrupt
    requires players[who].balance > 0
    ensures var split := SplitCash(players, who);
            0 <= (split[j].balance - players[j].balance) - (split[k].balance - players[k].balance) <= 1
  {
    hide Recipients, PayShares;
    var to := Recipients(players, who, |players|);
    RecipientsInRange(players, who, |players|);
    var a: nat :| a < |to| && to[a] == j;
    var b: nat :| b < |to| && to[b] == k;
    PaySharesEach(players, to, players[who].balance, |to|, a);
    PaySharesEach(players, to, players[who].balance, |to|, b);
    assert a < b;
  }

  lemma SplitTotal(players: seq<Player>, who: Seat)
    requires who < |players|
    ensures var cash := players[who].balance;
            Sum(Balances(SplitCash(players, who)[who := players[who].(balance := 0)]))
            == Sum(Balances(players)) - if cash > 0 && (exists j: Seat :: j < |players| && j != who && !players[j].bankrupt) then 0 else cash
  {
    hide Recipients, SplitCash, Sum;
    var to := Recipients(players, who, |players|);
    RecipientsInRange(players, who, |players|);
    SplitLedger(players, who);
    SplitFrame(players, who);
    var split := SplitCash(players, who);
    SumUpdate(Balances(split), who, 0);
    assert Balances(split[who := players[who].(balance := 0)]) == Balances(split)[who := 0];
    if to != [] {
      assert to[0] < |players| && to[0] != who && !players[to[0]].bankrupt;
    }
  }

  lemma SplitEven(players: seq<Player>, who: Seat)
    requires who < |players|
    ensures CashSplit(players, SplitCash(players, who)[who := players[who].(balance := 0)], who)
  {
    hide Sum, Balances, SplitCash;
    SplitTotal(players, who);
    SplitFrame(players, who);
    var split := SplitCash(players, who);
    if players[who].balance > 0 {
      forall j: Seat, k: Seat | j < k < |players| && j != who && k != who && !players[j].bankrupt && !players[k].bankrupt
        ensures 0 <= (split[j].balance - players[j].balance) - (split[k].balance - players[k].balance) <= 1
      {
        SplitGap(players, who, j, k);
      }
    } else {
      NoSplit(players, who);
    }
  }

  lemma NoSplit(players: seq<Player>, who: Seat)
    requires who < |players| && players[who].balance <= 0
    ensures SplitCash(players, who) == players
  {}

  /** What a surrender leaves: the cash is split, the squares go to the bank bare, all their buildings with them, and a copy of
      each jail card to either deck; the leaver's piece stays where it is. */
  ghost predicate SurrenderLeft(g: Config, s: State, s': State, who: Seat)
    requires who < |s.players|
  {
    var p := s.players[who];
    && |s'.players| == |s.players| && |s'.tiles| == |s.tiles| && p.jailCards >= 0
    && Gone(p, s'.players[who], p.position, s.turn.number)
    && (forall j: Seat :: j < |s.players| && j != who ==>
          s'.players[j] == s.players[j].(balance := s'.players[j].balance, netWorth := s'.players[j].netWorth))
    && CashSplit(s.players, s'.players, who)
    && (forall q :: 1 <= q <= |s.tiles| ==>
          TileAt(s'.tiles, q) == if TileAt(s.tiles, q).owner == Some(who) then BARE else TileAt(s.tiles, q))
    && AllHouses(s') == AllHouses(s) && AllHotels(s') == AllHotels(s)
    && s'.chanceDeck == s.chanceDeck + Copies(CHANCE_JAIL_CARD, p.jailCards)
    && s'.chestDeck == s.chestDeck + Copies(CHEST_JAIL_CARD, p.jailCards)
  }

  lemma LeaveDecks(g: Config, s: State, who: Seat)
    requires who < |s.players| && s.players[who].jailCards >= 0
    ensures var p := s.players[who];
            var s' := LeaveTable(g, s, who);
            && |s'.players| == |s.players| && s'.players[who].netWorth == 0
            && s'.chanceDeck == s.chanceDeck + Copies(CHANCE_JAIL_CARD, p.jailCards)
            && s'.chestDeck == s.chestDeck + Copies(CHEST_JAIL_CARD, p.jailCards)
            && (forall j: Seat :: j < |s.players| ==> s'.players[j].balance == if j == who then 0 else SplitCash(s.players, who)[j].balance)
  {
    hide AppendCards, SplitCash, ReleaseTiles;
    var p := s.players[who];
    AppendedCopies(s.chanceDeck, CHANCE_JAIL_CARD, p.jailCards);
    AppendedCopies(s.chestDeck, CHEST_JAIL_CARD, p.jailCards);
  }

  lemma SplitSame(a: seq<Player>, b: seq<Player>, c: seq<Player>, who: Seat)
    requires who < |a| == |b| == |c| && CashSplit(a, b, who)
    requires forall j: Seat :: j < |a| ==> c[j].balance == b[j].balance
    ensures CashSplit(a, c, who)
  {
    assert Balances(c) == Balances(b);
  }

  lemma LeaveHandled(g: Config, s: State, who: Seat)
    requires who < |s.players| && Owns(s) && Streets(g, s.tiles) && s.players[who].jailCards >= 0
    ensures SurrenderLeft(g, s, LeaveTable(g, s, who), who)
  {
    hide Owns, Streets, WorthFresh, SplitCash, CashSplit, LeaveTable, HousesOf, HotelsOf, AllHouses, AllHotels, Copies;
    var s' := LeaveTable(g, s, who);
    LeaveShape(g, s, who);
    LeaveDecks(g, s, who);
    LeaveInventory(g, s, who);
    SplitEven(s.players, who);
    SplitSame(s.players, SplitCash(s.players, who)[who := s.players[who].(balance := 0)], s'.players, who);
    var owned := s.players[who].owned;
    forall q | 1 <= q <= |s.tiles|
      ensures TileAt(s'.tiles, q) == if TileAt(s.tiles, q).owner == Some(who) then BARE else TileAt(s.tiles, q)
    {
      ReleaseOwners(s.tiles, owned, q - 1);
      HeldByOne(s, q);
      assert q in owned <==> HeldBy(s.tiles, who, q);
    }
  }

  /** Leaving the game while one's turn lasts, from a state in which at least two are in the game. */
  lemma SurrenderHandled(g: Config, s: State)
    requires s.turn.current < |s.players| && Owns(s) && Streets(g, s.tiles) && !s.finished && |Survivors(s)| >= 2
    requires !s.players[s.turn.current].bankrupt && s.players[s.turn.current].jailCards >= 0
    ensures var who := s.turn.current;
            var s' := ResolveSurrender(g, s, who);
            && SurrenderLeft(g, s, s', who) && WonOrHanded(s, s', who)
            && |s'.players| == |s.players| && s'.players[who].strikes == s.players[who].strikes
            && s' == s.(players := s'.players, tiles := s'.tiles, chanceDeck := s'.chanceDeck, chestDeck := s'.chestDeck,
                        bankHouses := s'.bankHouses, bankHotels := s'.bankHotels, finished := s'.finished, winner := s'.winner, turn := s'.turn)
  {
    hide Owns, Streets, WorthFresh, CashSplit, LeaveTable, HousesOf, HotelsOf, Copies, WonOrHanded, CheckWin, AdvanceOff, ActiveSeats;
    var who := s.turn.current;
    var mid := LeaveTable(g, s, who);
    LeaveShape(g, s, who);
    LeaveHandled(g, s, who);
    ActiveRemove(s.players, mid.players, who, |s.players|);
    LeavesTurn(s, mid, who);
    CheckWinCurrent(mid);
  }

  /** Giving up, while no auction, trade or debt is open. */
  lemma SurrenderLaw(g: Config, s: State, env: Env)
    requires ValidConfig(g) && Inv(g, s) && Orderly(s, Surrender(s.turn.current))
    ensures Good(g, s) && s.turn.current < |s.players|
    ensures var i := s.turn.current;
            var r := Apply(g, s, Surrender(i), env);
            && r.Ok? && SurrenderLeft(g, s, r.s, i) && WonOrHanded(s, r.s, i) && r.events == [PlayerSurrendered(i, true)] && Inv(g, r.s)
            && r.s == s.(players := r.s.players, tiles := r.s.tiles, chanceDeck := r.s.chanceDeck, chestDeck := r.s.chestDeck,
                         bankHouses := r.s.bankHouses, bankHotels := r.s.bankHotels, activeCard := None,
                         finished := r.s.finished, winner := r.s.winner, turn := r.s.turn)
  {
    hide ValidConfig, Good, Inv, Apply, SurrenderLeft, WonOrHanded, ResolveSurrender;
    InvGood(g, s);
    CurrentInRange(g, s);
    var i := s.turn.current;
    var cmd := Surrender(i);
    AcceptsHandler(g, s, cmd, env);
    PlayingOn(g, s);
    var s1 := Dispatch(g, s, cmd, env).s;
    SurrenderHandled(g, s);
    TurnApplied(g, s, cmd, env);
    CardCleared(g, s, cmd, env);
    SurrenderSize(g, s, s1, i);
    ResetStrikesOnly(s1, i);
    TurnEvents(g, s, cmd, env);
    var s' := Apply(g, s, cmd, env).s;
    WonStamped(s, s1, s', i);
    StepInvariant(g, s, cmd, env);
    SurrenderStamped(g, s, s1, s', i);
  }

  lemma PlayingOn(g: Config, s: State)
    requires Inv(g, s) && s.turn.current < |s.players| && !s.finished
    ensures !s.players[s.turn.current].bankrupt && |Survivors(s)| >= 2 && s.players[s.turn.current].jailCards >= 0
    ensures Owns(s) && Streets(g, s.tiles)
  {
    hide DeckKept, ActiveSeats, Streets, Owns, Inventory, WorthFresh;
    assert Phases(g, s);
    assert RecordOk(s.players[s.turn.current], s.turn.number, s.finished);
  }

  lemma SurrenderSize(g: Config, s: State, s1: State, i: Seat)
    requires i < |s.players| && SurrenderLeft(g, s, s1, i)
    ensures |s1.players| == |s.players|
  {}

  lemma SurrenderStamped(g: Config, s: State, s1: State, s': State, i: Seat)
    requires i < |s.players| && SurrenderLeft(g, s, s1, i)
    requires |s'.players| == |s1.players| == |s.players| && s'.players == s1.players[i := s1.players[i].(strikes := s'.players[i].strikes)]
    requires s'.tiles == s1.tiles && s'.bankHouses == s1.bankHouses && s'.bankHotels == s1.bankHotels
    requires s'.chanceDeck == s1.chanceDeck && s'.chestDeck == s1.chestDeck
    ensures SurrenderLeft(g, s, s', i)
  {
    hide CashSplit, Copies, Sum;
    SplitSame(s.players, s1.players, s'.players, i);
  }

  // ---------------------------------------------------------------- the clock

  /** A timed command before its time changes nothing but stamps, and the turn timer takes the card off display. */
  lemma NotDue(g: Config, s: State, cmd: Command, env: Env)
    requires ValidConfig(g) && Inv(g, s) && IsSystem(cmd) && Good(g, s)
    requires cmd.AdvanceAuction? ==> s.auction.None? || env.now < s.auction.value.startedAt + 30_000
    requires cmd.ExpireTrade? ==> s.trade.None? || env.now < s.trade.value.expiresAt
    requires cmd.TurnTimeout? ==> !TurnDue(s, env.now)
    ensures var r := Apply(g, s, cmd, env);
            r.Ok? && r.events == []
            && r.s == s.(activeCard := if cmd.TurnTimeout? then None else s.activeCard,
                         turn := s.turn.(deadline := r.s.turn.deadline, actions := r.s.turn.actions))
  {
    hide ValidConfig, Good, Inv, Wrap, Payable;
    AuctionTime(g, s);
    InvParts(g, s);
    GoodImpliesRefs(g, s);
    CardCleared(g, s, cmd, env);
    NothingPayable(g, s);
    WrapTurn(g, s, s, cmd, env.now);
  }

  lemma AuctionTime(g: Config, s: State)
    requires Inv(g, s)
    ensures s.auction.Some? ==> s.auction.value.remaining == 30_000
  {
    hide Good, Streets, Owns, Inventory, WorthFresh, Roster;
  }

  lemma NothingPayable(g: Config, s: State)
    requires Inv(g, s)
    ensures !Payable(s) && (s.finished || |Survivors(s)| >= 2)
  {
    hide Good, Streets, Owns, Inventory, WorthFresh, ActiveSeats;
  }

  /** The turn has lasted to its deadline, in a phase in which the player of the turn is to act and owes nothing. */
  predicate TurnDue(s: State, now: int) {
    && s.turn.deadline.Some? && s.turn.deadline.value <= now
    && (s.turn.phase == PreRoll || s.turn.phase == JailDecision || s.turn.phase == PostRoll || s.turn.phase == MustPayRent)
  }

  /** A turn that lasts to its deadline costs a strike and is handed on; the third strike takes the player out of the game,
      just as giving up does. */
  lemma TimeoutLaw(g: Config, s: State, env: Env)
    requires ValidConfig(g) && Inv(g, s) && TurnDue(s, env.now)
    ensures Good(g, s) && s.turn.current < |s.players|
    ensures var i := s.turn.current;
            var p := s.players[i];
            var r := Apply(g, s, TurnTimeout, env);
            && r.Ok? && |r.s.players| == |s.players| && r.s.players[i].strikes == p.strikes + 1 && Inv(g, r.s)
            && (if p.strikes < 2 then
                  && r.s == s.(players := s.players[i := p.(strikes := p.strikes + 1)], activeCard := None, turn := r.s.turn)
                  && Handed(s, r.s, i) && r.events == [TurnTimedOut(i, p.strikes + 1)]
                else
                  && SurrenderLeft(g, s, r.s, i) && WonOrHanded(s, r.s, i) && r.events == [PlayerSurrendered(i, false)]
                  && r.s == s.(players := r.s.players, tiles := r.s.tiles, chanceDeck := r.s.chanceDeck, chestDeck := r.s.chestDeck,
                               bankHouses := r.s.bankHouses, bankHotels := r.s.bankHotels, activeCard := None,
                               finished := r.s.finished, winner := r.s.winner, turn := r.s.turn))
  {
    hide ValidConfig, Good, Inv, Apply, Timeout, SurrenderLeft, WonOrHanded, Handed;
    InvGood(g, s);
    CurrentInRange(g, s);
    DueQuiet(g, s);
    var i := s.turn.current;
    var s1 := Timeout(g, s, env.now).0;
    TimeoutHandled(g, s, env.now);
    TimeoutApplied(g, s, env);
    var s' := Apply(g, s, TurnTimeout, env).s;
    CardCleared(g, s, TurnTimeout, env);
    StepInvariant(g, s, TurnTimeout, env);
    if s.players[i].strikes < 2 {
      HandedStamped(s, s1, s', i);
    } else {
      WonStamped(s, s1, s', i);
      SurrenderSize(g, s, s1, i);
      SurrenderStamped(g, s, s1, s', i);
    }
  }

  lemma DueQuiet(g: Config, s: State)
    requires Inv(g, s) && s.turn.current < |s.players| && IsActivePhase(s.turn.phase)
    ensures !s.finished && s.bankruptcy.None? && Orderly(s, TurnTimeout)
  {
    hide DeckKept, ActiveSeats, Streets, Owns, Inventory, WorthFresh;
    assert Phases(g, s);
  }

  lemma TimeoutApplied(g: Config, s: State, env: Env)
    requires ValidConfig(g) && Inv(g, s) && Good(g, s) && s.turn.current < |s.players| && Timeout(g, s, env.now).0.bankruptcy.None?
    ensures var r := Apply(g, s, TurnTimeout, env);
            var s1 := Timeout(g, s, env.now).0;
            r.Ok? && r.events == Timeout(g, s, env.now).1
            && r.s == s1.(activeCard := r.s.activeCard, turn := s1.turn.(deadline := r.s.turn.deadline, actions := r.s.turn.actions))
  {
    hide ValidConfig, Good, Inv, Table, Core, Wrap, Timeout;
    InvParts(g, s);
    SystemGood(g, s, TurnTimeout, env);
    SystemTable(g, s, TurnTimeout, env);
    var s1 := HandleSystem(g, s, TurnTimeout, env).0;
    GoodImpliesRefs(g, s1);
    WrapQuiet(g, s, s1, TurnTimeout, env.now);
  }

  lemma TimeoutHandled(g: Config, s: State, now: int)
    requires Inv(g, s) && s.turn.current < |s.players| && TurnDue(s, now) && !s.finished && s.bankruptcy.None?
    ensures var i := s.turn.current;
            var p := s.players[i];
            var (s1, events) := Timeout(g, s, now);
            && |s1.players| == |s.players| && s1.players[i].strikes == p.strikes + 1 && s1.bankruptcy.None?
            && (if p.strikes < 2 then
                  && s1 == s.(players := s.players[i := p.(strikes := p.strikes + 1)], turn := s1.turn)
                  && Handed(s, s1, i) && events == [TurnTimedOut(i, p.strikes + 1)]
                else
                  && SurrenderLeft(g, s, s1, i) && WonOrHanded(s, s1, i) && events == [PlayerSurrendered(i, false)]
                  && s1 == s.(players := s1.players, tiles := s1.tiles, chanceDeck := s1.chanceDeck, chestDeck := s1.chestDeck,
                              bankHouses := s1.bankHouses, bankHotels := s1.bankHotels,
                              finished := s1.finished, winner := s1.winner, turn := s1.turn))
  {
    hide Inv, Streets, Owns, SurrenderLeft, WonOrHanded, Handed, AdvanceOff, ResolveSurrender, ActiveSeats;
    PlayingOn(g, s);
    var i := s.turn.current;
    var p := s.players[i].(strikes := s.players[i].strikes + 1);
    var struck := WithPlayer(s, i, p);
    ActiveFrame(s.players, struck.players, |s.players|);
    if p.strikes < 3 {
      AdvanceHands(struck, i);
      SuccessorActive(struck, i);
      HandedSame(s, struck, AdvanceOff(struck, i), i);
    } else {
      StruckOwns(s, struck);
      SurrenderHandled(g, struck);
      SurrenderSize(g, struck, ResolveSurrender(g, struck, i), i);
      StruckLeft(g, s, struck, ResolveSurrender(g, struck, i), i);
    }
  }

  lemma StruckOwns(s: State, struck: State)
    requires Owns(s) && |struck.players| == |s.players| && struck.tiles == s.tiles
    requires forall j :: 0 <= j < |s.players| ==> struck.players[j].owned == s.players[j].owned
    ensures Owns(struck)
  {
    forall j: Seat, q: int | j < |s.players| ensures q in struck.players[j].owned <==> HeldBy(s.tiles, j, q) {
      HeldByOne(s, q);
    }
  }

  lemma HandedSame(s: State, struck: State, s1: State, from: Seat)
    requires Handed(struck, s1, from) && struck.turn == s.turn
    ensures Handed(s, s1, from)
  {}

  lemma StruckLeft(g: Config, s: State, struck: State, s1: State, i: Seat)
    requires i < |s.players| == |struck.players| && SurrenderLeft(g, struck, s1, i) && WonOrHanded(struck, s1, i)
    requires struck == WithPlayer(s, i, s.players[i].(strikes := struck.players[i].strikes))
    requires |s1.players| == |s.players| && s1.players[i].strikes == struck.players[i].strikes
    ensures SurrenderLeft(g, s, s1, i) && WonOrHanded(s, s1, i)
  {
    hide CashSplit, Copies, Sum, Handed;
    SplitFrom(s.players, struck.players, s1.players, i);
    if !s1.finished {
      HandedSame(s, struck, s1, i);
    }
  }

  lemma SplitFrom(a: seq<Player>, b: seq<Player>, c: seq<Player>, who: Seat)
    requires who < |a| == |b| == |c| && CashSplit(b, c, who)
    requires forall j: Seat :: j < |a| ==> a[j].balance == b[j].balance && a[j].bankrupt == b[j].bankrupt
    ensures CashSplit(a, c, who)
  {
    assert Balances(a) == Balances(b);
  }

  /** A trade nobody has answered in time is off, and the turn goes on after the roll. */
  lemma ExpiryLaw(g: Config, s: State, env: Env)
    requires ValidConfig(g) && Inv(g, s) && s.trade.Some? && s.trade.value.expiresAt <= env.now
    ensures Good(g, s)
    ensures var r := Apply(g, s, ExpireTrade, env);
            r.Ok? && r.events == []
            && r.s == s.(trade := None, turn := s.turn.(phase := PostRoll, deadline := r.s.turn.deadline, actions := r.s.turn.actions))
  {
    hide ValidConfig, Good, Inv, Wrap, Table, Core;
    InvParts(g, s);
    SystemGood(g, s, ExpireTrade, env);
    SystemTable(g, s, ExpireTrade, env);
    var s1 := HandleSystem(g, s, ExpireTrade, env).0;
    GoodImpliesRefs(g, s1);
    TradeQuiet(g, s);
    WrapQuiet(g, s, s1, ExpireTrade, env.now);
    CardCleared(g, s, ExpireTrade, env);
  }

  lemma TradeQuiet(g: Config, s: State)
    requires Inv(g, s) && s.trade.Some?
    ensures s.bankruptcy.None?
  {
    hide DeckKept, ActiveSeats, Streets, Owns, Inventory, WorthFresh;
    assert Phases(g, s);
  }
}
