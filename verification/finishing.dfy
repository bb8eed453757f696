/** `_placements` of `rating_service.py`: the final ranking is the reverse order of elimination. */
module Finishing {
  import opened GameTypes
  import opened Seqs
  import opened Soundness
  import opened Worth
  import opened Payments
  import opened Landing
  import opened LandingLaws
  import opened PropertyRules
  import opened Elimination
  import opened Handlers
  import opened Engine
  import opened Invariants
  import opened ExchangeLaws
  import opened SurrenderLaws
  import opened StepProperty
  import opened StepRoll
  import opened StepTable
  import opened Steps
  import opened Setup
  import opened Timers

  // ---------------------------------------------------------------- the record of eliminations

  /** From `a` to `b` nobody comes back, no elimination record changes, and a player who leaves the game
      is recorded with the number of the turn. */
  ghost predicate RecordsKept(a: State, b: State) {
    && |a.players| == |b.players|
    && forall i :: 0 <= i < |a.players| ==>
         && (a.players[i].bankrupt ==> b.players[i].bankrupt && b.players[i].eliminatedAt == a.players[i].eliminatedAt)
         && (!a.players[i].bankrupt && b.players[i].bankrupt ==> !a.finished && b.players[i].eliminatedAt == Some(a.turn.number))
  }

  ghost predicate SameOut(a: State, b: State) {
    && |a.players| == |b.players|
    && forall i :: 0 <= i < |a.players| ==>
         b.players[i].bankrupt == a.players[i].bankrupt && b.players[i].eliminatedAt == a.players[i].eliminatedAt
  }

  lemma KeptThenSame(a: State, b: State, c: State)
    requires RecordsKept(a, b) && SameOut(b, c)
    ensures RecordsKept(a, c)
  {}

  lemma SameIsKept(a: State, b: State)
    requires SameOut(a, b)
    ensures RecordsKept(a, b)
  {}

  lemma RollSameOut(g: Config, s: State, env: Env)
    requires ValidConfig(g) && Good(g, s) && Table(g, s) && Roll(g, s, s.turn.current, env).Ok?
    ensures SameOut(s, Roll(g, s, s.turn.current, env).s)
  {
    hide ValidConfig, DeckKept, Roll, ActiveSeats;
    RollCases(g, s, s.turn.current, env);
    assert Live(g, s);
    RollShape(g, s, s.turn.current, env);
  }

  lemma EstateRecords(g: Config, s: State)
    requires Good(g, s) && Table(g, s) && s.bankruptcy.Some?
    ensures RecordsKept(s, ResolveBankruptcy(g, s))
  {
    hide DeckKept, SettleEstate, ActiveSeats, NextOffset, SortedSet;
    assert !s.finished by { NotOver(g, s); }
    EstateShape(g, s);
    EstateActive(g, s);
    var s' := SettleEstate(g, s);
    var b := s.bankruptcy.value;
    forall i | 0 <= i < |s.players|
      ensures if i == b.debtor then s'.players[i].bankrupt && s'.players[i].eliminatedAt == Some(s.turn.number)
              else s'.players[i].bankrupt == s.players[i].bankrupt && s'.players[i].eliminatedAt == s.players[i].eliminatedAt
    {
      assert Some(i) == b.creditor || Some(i) != b.creditor;
    }
  }

  lemma EstateActive(g: Config, s: State)
    requires Table(g, s) && s.bankruptcy.Some?
    ensures s.bankruptcy.value.debtor < |s.players| && !s.players[s.bankruptcy.value.debtor].bankrupt
  {
    hide ActiveSeats;
  }

  lemma LeaveRecords(g: Config, s: State, who: Seat)
    requires who < |s.players| && !s.finished && !s.players[who].bankrupt
    ensures RecordsKept(s, ResolveSurrender(g, s, who))
  {
    hide LeaveTable;
    LeaveShape(g, s, who);
    OutFrame(g, s, who);
  }

  /** The handlers that eliminate nobody touch no elimination record. */
  lemma PlainRecords(g: Config, s: State, cmd: Command, env: Env)
    requires ValidConfig(g) && Good(g, s) && !IsSystem(cmd) && !IsOpen(cmd) && cmd.player == s.turn.current
    requires !cmd.RollDice? && !cmd.DeclareBankruptcy? && !cmd.Surrender?
    requires Dispatch(g, s, cmd, env).Ok?
    ensures SameOut(s, Dispatch(g, s, cmd, env).s)
  {
    hide ValidConfig, DeckKept, ActiveSeats, Assets, Sorted, CheckPositions, Rework, CanBuildOn, CanSellOn, CanMortgage, CanUnmortgage;
    if cmd.EndTurn? {
      SurvivorsInRange(s.players, |s.players|);
      EndSame(g, s);
    } else if cmd.BuildHouse? || cmd.SellHouse? || cmd.Mortgage? || cmd.Unmortgage? {
      WorkOut(g, s, cmd, env);
    }
  }

  lemma ReworkOut(g: Config, s: State, who: Seat, p: int)
    requires who < |s.players|
    ensures forall t, gain :: SameOut(s, Rework(g, s, who, p, t, gain))
  {
    hide Assets;
  }

  lemma WorkOut(g: Config, s: State, cmd: Command, env: Env)
    requires ValidConfig(g) && Good(g, s) && !IsSystem(cmd) && !IsOpen(cmd) && cmd.player == s.turn.current
    requires cmd.BuildHouse? || cmd.SellHouse? || cmd.Mortgage? || cmd.Unmortgage?
    requires Dispatch(g, s, cmd, env).Ok?
    ensures SameOut(s, Dispatch(g, s, cmd, env).s)
  {
    hide ValidConfig, DeckKept, Rework, CanBuildOn, CanSellOn, CanMortgage, CanUnmortgage;
    ReworkOut(g, s, s.turn.current, cmd.position);
  }

  lemma HandlerRecords(g: Config, s: State, cmd: Command, env: Env)
    requires ValidConfig(g) && Good(g, s) && Table(g, s) && !IsSystem(cmd) && !IsOpen(cmd) && cmd.player == s.turn.current
    requires Orderly(s, cmd) && Dispatch(g, s, cmd, env).Ok?
    ensures RecordsKept(s, Dispatch(g, s, cmd, env).s)
  {
    hide ValidConfig, Good, Table, Roll, ResolveBankruptcy, ResolveSurrender, RecordsKept, SameOut;
    CurrentInRange(g, s);
    var s' := Dispatch(g, s, cmd, env).s;
    if cmd.DeclareBankruptcy? {
      EstateRecords(g, s);
    } else if cmd.Surrender? {
      LeaveRecords(g, s, s.turn.current);
    } else if cmd.RollDice? {
      RollSameOut(g, s, env);
      SameIsKept(s, s');
    } else {
      PlainRecords(g, s, cmd, env);
      SameIsKept(s, s');
    }
  }

  lemma SystemRecords(g: Config, s: State, cmd: Command, env: Env)
    requires Good(g, s) && Table(g, s) && IsSystem(cmd)
    ensures RecordsKept(s, HandleSystem(g, s, cmd, env).0)
  {
    hide DeckKept, Table, ResolveSurrender, ActiveSeats, NextOffset, Assets, SortedSet, RecordsKept;
    var s' := HandleSystem(g, s, cmd, env).0;
    if cmd.TurnTimeout? && TurnExpired(s, env.now) {
      var i := s.turn.current;
      var s1 := WithPlayer(s, i, s.players[i].(strikes := s.players[i].strikes + 1));
      CurrentActive(g, s);
      if s.players[i].strikes + 1 >= MAX_AFK_STRIKES {
        LeaveRecords(g, s1, i);
        StruckKept(s, i, s.players[i].strikes + 1, s');
      } else {
        SameIsKept(s, s') by { assert SameOut(s, s'); }
      }
    } else {
      SameIsKept(s, s') by { assert SameOut(s, s'); }
    }
  }

  lemma CurrentActive(g: Config, s: State)
    requires Table(g, s) && IsActivePhase(s.turn.phase)
    ensures !s.finished && s.turn.current < |s.players| && !s.players[s.turn.current].bankrupt
  {
    hide ActiveSeats;
  }

  lemma StruckKept(s: State, i: Seat, strikes: int, b: State)
    requires i < |s.players| && RecordsKept(WithPlayer(s, i, s.players[i].(strikes := strikes)), b)
    ensures RecordsKept(s, b)
  {
    var a := WithPlayer(s, i, s.players[i].(strikes := strikes));
    forall j | 0 <= j < |s.players| ensures a.players[j].bankrupt == s.players[j].bankrupt && a.players[j].eliminatedAt == s.players[j].eliminatedAt {}
  }

  lemma OpenRecords(g: Config, s: State, cmd: Command, env: Env)
    requires Good(g, s) && IsOpen(cmd) && DispatchOpen(g, s, cmd, env).Ok?
    ensures SameOut(s, DispatchOpen(g, s, cmd, env).s)
  {
    hide DeckKept, Assets, SortedSet, Without, Reassign, CheckPositions;
  }

  lemma WrapRecords(g: Config, before: State, s: State, cmd: Command, now: int)
    requires GoodRefs(g, s)
    ensures SameOut(s, Wrap(g, before, s, cmd, now))
  {
    hide ActiveSeats, ComputeActions, TrySettleDebt;
    SettleOut(g, ClearCard(before, s, cmd));
  }

  lemma SettleOut(g: Config, s: State)
    requires GoodRefs(g, s)
    ensures SameOut(s, TrySettleDebt(g, s))
  {
    hide Assets;
  }

  lemma ResetRecords(s: State, i: Seat)
    ensures SameOut(s, ResetStrikes(s, i))
  {}

  lemma StampRecords(g: Config, s: State, now: int)
    requires s.turn.current < |s.players|
    ensures SameOut(s, Stamp(g, s, now))
  {
    hide ComputeActions;
  }

  /** Every accepted orderly command keeps the record of eliminations. */
  lemma StepRecords(g: Config, s: State, cmd: Command, env: Env)
    requires ValidConfig(g) && Inv(g, s) && Orderly(s, cmd) && Apply(g, s, cmd, env).Ok?
    ensures RecordsKept(s, Apply(g, s, cmd, env).s)
  {
    hide ValidConfig, Good, Core, Table, Inv, HandleSystem, DispatchOpen, Dispatch, Wrap, Stamp, ResetStrikes, Orderly,
         RecordsKept, SameOut;
    InvParts(g, s);
    var s' := Apply(g, s, cmd, env).s;
    if IsSystem(cmd) {
      var s1 := HandleSystem(g, s, cmd, env).0;
      SystemGood(g, s, cmd, env);
      SystemRecords(g, s, cmd, env);
      GoodImpliesRefs(g, s1);
      WrapRecords(g, s, s1, cmd, env.now);
      KeptThenSame(s, s1, s');
    } else if IsOpen(cmd) {
      var s1 := DispatchOpen(g, s, cmd, env).s;
      DispatchOpenGood(g, s, cmd, env);
      ResetGood(g, s1, cmd.player);
      CurrentInRange(g, ResetStrikes(s1, cmd.player));
      OpenRecords(g, s, cmd, env);
      SameIsKept(s, s1);
      ResetRecords(s1, cmd.player);
      KeptThenSame(s, s1, ResetStrikes(s1, cmd.player));
      StampRecords(g, ResetStrikes(s1, cmd.player), env.now);
      KeptThenSame(s, ResetStrikes(s1, cmd.player), s');
    } else {
      var s1 := Dispatch(g, s, cmd, env).s;
      DispatchGood(g, s, cmd, env);
      ResetGood(g, s1, cmd.player);
      HandlerRecords(g, s, cmd, env);
      ResetRecords(s1, cmd.player);
      KeptThenSame(s, s1, ResetStrikes(s1, cmd.player));
      GoodImpliesRefs(g, ResetStrikes(s1, cmd.player));
      WrapRecords(g, s, ResetStrikes(s1, cmd.player), cmd, env.now);
      KeptThenSame(s, ResetStrikes(s1, cmd.player), s');
    }
  }

  /** Whoever leaves later is recorded with a later turn. */
  lemma LaterOut(g: Config, s: State, b: State, i: Seat, j: Seat)
    requires Inv(g, s) && RecordsKept(s, b) && i < |s.players| && j < |s.players|
    requires s.players[i].bankrupt && !s.players[j].bankrupt && b.players[j].bankrupt
    ensures Key(b.players[i]) < Key(b.players[j])
  {
    hide Good, ActiveSeats, Streets, Owns, Inventory, WorthFresh, Phases, AuctionOk;
    RecordAt(s, i);
  }

  // ---------------------------------------------------------------- runs

  /** Once out, always out, with the same record. */
  lemma {:induction false} RunRecords(g: Config, s: State, steps: seq<Move>, i: Seat)
    requires ValidConfig(g) && Inv(g, s) && OrderlyRun(g, s, steps) && i < |s.players| && s.players[i].bankrupt
    ensures var e := Run(g, s, steps);
            |e.players| == |s.players| && e.players[i].bankrupt && e.players[i].eliminatedAt == s.players[i].eliminatedAt
  {
    hide ValidConfig, Inv, Orderly, Apply;
    InvGood(g, s);
    if steps != [] {
      var n := |steps| - 1;
      RunRecords(g, s, steps[..n], i);
      RunInvariant(g, s, steps[..n]);
      RunStepRecords(g, s, steps);
    }
  }

  /** The last step of a run. */
  lemma RunStepRecords(g: Config, s: State, steps: seq<Move>)
    requires ValidConfig(g) && Inv(g, s) && OrderlyRun(g, s, steps) && steps != []
    ensures RecordsKept(Run(g, s, steps[..|steps| - 1]), Run(g, s, steps))
  {
    hide ValidConfig, Inv, Orderly, Apply;
    InvGood(g, s);
    var n := |steps| - 1;
    RunInvariant(g, s, steps[..n]);
    var s' := Run(g, s, steps[..n]);
    InvGood(g, s');
    if Apply(g, s', steps[n].cmd, steps[n].env).Ok? {
      StepRecords(g, s', steps[n].cmd, steps[n].env);
    }
  }

  /** If player `i` was out of the game when player `j` still played, then `j`, should `j` be out too by
      the end, has the later record. */
  lemma {:induction false} OrderOfElimination(g: Config, s: State, steps: seq<Move>, k: nat, i: Seat, j: Seat)
    requires ValidConfig(g) && Inv(g, s) && OrderlyRun(g, s, steps) && k <= |steps|
    requires Good(g, s) && i < |Run(g, s, steps[..k]).players| && j < |Run(g, s, steps[..k]).players|
    requires Run(g, s, steps[..k]).players[i].bankrupt && !Run(g, s, steps[..k]).players[j].bankrupt
    ensures var e := Run(g, s, steps);
            i < |e.players| && j < |e.players| && e.players[i].bankrupt
            && (e.players[j].bankrupt ==> Key(e.players[i]) < Key(e.players[j]))
  {
    hide ValidConfig, Good, Inv, Orderly, Apply, Key;
    if k == |steps| {
      assert steps[..k] == steps;
    } else {
      var n := |steps| - 1;
      assert steps[..n][..k] == steps[..k];
      OrderOfElimination(g, s, steps[..n], k, i, j);
      RunInvariant(g, s, steps[..n]);
      RunStepRecords(g, s, steps);
      var s' := Run(g, s, steps[..n]);
      if !s'.players[j].bankrupt && Run(g, s, steps).players[j].bankrupt {
        LaterOut(g, s', Run(g, s, steps), i, j);
      } else {
        SameKeys(s', Run(g, s, steps), i, j);
      }
    }
  }

  lemma SameKeys(a: State, b: State, i: Seat, j: Seat)
    requires RecordsKept(a, b) && i < |a.players| && j < |a.players|
    ensures a.players[i].bankrupt ==> b.players[i].bankrupt && Key(b.players[i]) == Key(a.players[i])
    ensures a.players[j].bankrupt ==> b.players[j].bankrupt && Key(b.players[j]) == Key(a.players[j])
  {}

  // ---------------------------------------------------------------- the ranking

  /** The sort key of `_placements`. */
  function Key(p: Player): int {
    if p.eliminatedAt.Some? then p.eliminatedAt.value else -1
  }

  function OutSeats(players: seq<Player>, k: nat): seq<Seat>
    requires k <= |players|
  {
    if k == 0 then [] else OutSeats(players, k - 1) + (if players[k - 1].bankrupt then [k - 1] else [])
  }

  predicate InRange(players: seq<Player>, seats: seq<Seat>) {
    forall k :: 0 <= k < |seats| ==> seats[k] < |players|
  }

  /** Inserts after every seat with the same or a larger key. */
  function InsertDesc(players: seq<Player>, x: Seat, seats: seq<Seat>): (r: seq<Seat>)
    requires x < |players| && InRange(players, seats)
    ensures InRange(players, r) && multiset(r) == multiset(seats) + multiset{x}
  {
    if seats == [] then [x]
    else if Key(players[seats[0]]) >= Key(players[x]) then
      assert seats == [seats[0]] + seats[1..];
      [seats[0]] + InsertDesc(players, x, seats[1..])
    else [x] + seats
  }

  /** `sorted(seats, key=..., reverse=True)`, which keeps the order of equal keys. */
  function SortDesc(players: seq<Player>, seats: seq<Seat>): (r: seq<Seat>)
    requires InRange(players, seats)
    ensures InRange(players, r) && multiset(r) == multiset(seats)
  {
    if seats == [] then []
    else
      assert seats == seats[..|seats| - 1] + [seats[|seats| - 1]];
      InsertDesc(players, seats[|seats| - 1], SortDesc(players, seats[..|seats| - 1]))
  }

  lemma {:induction false} SeatsInRange(players: seq<Player>, k: nat)
    requires k <= |players|
    ensures InRange(players, ActiveSeats(players, k)) && InRange(players, OutSeats(players, k))
    ensures forall j :: 0 <= j < |OutSeats(players, k)| ==> players[OutSeats(players, k)[j]].bankrupt
    ensures |ActiveSeats(players, k)| + |OutSeats(players, k)| == k
  {
    if k > 0 {
      SeatsInRange(players, k - 1);
    }
  }

  lemma AppendCount(xs: seq<Seat>, x: Seat, i: Seat)
    ensures multiset(xs + [x])[i] == multiset(xs)[i] + (if x == i then 1 else 0)
  {}

  lemma SeatsUnfold(players: seq<Player>, k: nat)
    requires 0 < k <= |players|
    ensures var active, out := ActiveSeats(players, k - 1), OutSeats(players, k - 1);
            if players[k - 1].bankrupt then ActiveSeats(players, k) == active && OutSeats(players, k) == out + [k - 1]
            else ActiveSeats(players, k) == active + [k - 1] && OutSeats(players, k) == out
  {}

  lemma NoSeats(players: seq<Player>)
    ensures ActiveSeats(players, 0) == [] && OutSeats(players, 0) == []
  {}

  lemma SeatAdded(players: seq<Player>, k: nat, i: Seat)
    requires 0 < k <= |players|
    ensures multiset(ActiveSeats(players, k))[i] + multiset(OutSeats(players, k))[i]
            == multiset(ActiveSeats(players, k - 1))[i] + multiset(OutSeats(players, k - 1))[i] + (if i == k - 1 then 1 else 0)
  {
    hide ActiveSeats, OutSeats;
    SeatsUnfold(players, k);
    AppendCount(ActiveSeats(players, k - 1), k - 1, i);
    AppendCount(OutSeats(players, k - 1), k - 1, i);
  }

  /** Each of the first `k` seats is in exactly one of the two lists, once. */
  lemma {:induction false} SeatsPartition(players: seq<Player>, k: nat, i: Seat)
    requires k <= |players|
    ensures multiset(ActiveSeats(players, k))[i] + multiset(OutSeats(players, k))[i] == if i < k then 1 else 0
  {
    hide ActiveSeats, OutSeats;
    if k == 0 {
      NoSeats(players);
    } else {
      SeatsPartition(players, k - 1, i);
      SeatAdded(players, k, i);
    }
  }

  /** The seats from first to last place. */
  function Ordered(players: seq<Player>): (r: seq<Seat>)
    ensures InRange(players, r)
  {
    SeatsInRange(players, |players|);
    ActiveSeats(players, |players|) + SortDesc(players, OutSeats(players, |players|))
  }

  /** `_placements`: user and placement. */
  function Placements(players: seq<Player>): (r: seq<(int, int)>)
    ensures |r| == |Ordered(players)|
    ensures forall k :: 0 <= k < |r| ==> r[k] == (players[Ordered(players)[k]].userId, k + 1)
  {
    var ordered := Ordered(players);
    seq(|ordered|, k requires 0 <= k < |ordered| => (players[ordered[k]].userId, k + 1))
  }

  lemma TwiceCounted(xs: seq<Seat>, a: nat, b: nat)
    requires a < b < |xs| && xs[a] == xs[b]
    ensures multiset(xs)[xs[a]] >= 2
  {
    assert xs == xs[..a] + [xs[a]] + xs[a + 1..b] + [xs[b]] + xs[b + 1..];
  }

  /** Every seat takes exactly one place, and every place from 1 to n is taken. */
  lemma PlacementBijection(players: seq<Player>)
    ensures |Ordered(players)| == |players|
    ensures forall i: Seat :: i < |players| ==> i in Ordered(players)
    ensures forall a, b :: 0 <= a < b < |players| ==> Ordered(players)[a] != Ordered(players)[b]
  {
    hide ActiveSeats, OutSeats, SortDesc;
    var n := |players|;
    SeatsInRange(players, n);
    var active, out := ActiveSeats(players, n), OutSeats(players, n);
    var sorted := SortDesc(players, out);
    var ordered := Ordered(players);
    assert multiset(ordered) == multiset(active) + multiset(out);
    assert |multiset(sorted)| == |multiset(out)|;
    forall i: Seat | i < n ensures i in ordered && multiset(ordered)[i] == 1 {
      SeatsPartition(players, n, i);
      assert multiset(ordered)[i] == 1;
    }
    forall a, b | 0 <= a < b < n ensures ordered[a] != ordered[b] {
      if ordered[a] == ordered[b] {
        TwiceCounted(ordered, a, b);
        assert false;
      }
    }
  }

  predicate Descending(players: seq<Player>, seats: seq<Seat>)
    requires InRange(players, seats)
  {
    forall a, b :: 0 <= a < b < |seats| ==> Key(players[seats[a]]) >= Key(players[seats[b]])
  }

  lemma {:induction false} InsertDescending(players: seq<Player>, x: Seat, seats: seq<Seat>)
    requires x < |players| && InRange(players, seats) && Descending(players, seats)
    ensures Descending(players, InsertDesc(players, x, seats))
  {
    hide Key;
    if seats != [] && Key(players[seats[0]]) >= Key(players[x]) {
      InsertDescending(players, x, seats[1..]);
      var rest := InsertDesc(players, x, seats[1..]);
      forall k | 0 <= k < |rest| ensures Key(players[seats[0]]) >= Key(players[rest[k]]) {
        assert rest[k] in multiset(rest);
        assert rest[k] == x || rest[k] in multiset(seats[1..]);
      }
    }
  }

  lemma {:induction false} SortDescending(players: seq<Player>, seats: seq<Seat>)
    requires InRange(players, seats)
    ensures Descending(players, SortDesc(players, seats))
  {
    if seats != [] {
      SortDescending(players, seats[..|seats| - 1]);
      InsertDescending(players, seats[|seats| - 1], SortDesc(players, seats[..|seats| - 1]));
    }
  }

  /** The place of a seat, from 1 on. */
  function PlaceOf(players: seq<Player>, i: Seat): nat {
    1 + IndexOf(Ordered(players), i)
  }

  lemma SortedOut(players: seq<Player>, k: nat)
    requires var out := OutSeats(players, |players|); InRange(players, out) && k < |SortDesc(players, out)|
    ensures players[SortDesc(players, OutSeats(players, |players|))[k]].bankrupt
  {
    hide OutSeats, ActiveSeats, SortDesc;
    SeatsInRange(players, |players|);
    var out := OutSeats(players, |players|);
    var sorted := SortDesc(players, out);
    assert sorted[k] in multiset(sorted);
    assert sorted[k] in out;
  }

  // ---------------------------------------------------------------- the order in general

  /** Those still playing come first, in the order of their seats; then whoever left later, and of two who left in the same
      turn the one in the earlier seat. */
  predicate RanksBefore(players: seq<Player>, x: Seat, y: Seat)
    requires x < |players| && y < |players|
  {
    if players[x].bankrupt && players[y].bankrupt then
      Key(players[x]) > Key(players[y]) || (Key(players[x]) == Key(players[y]) && x < y)
    else if !players[x].bankrupt && !players[y].bankrupt then x < y
    else !players[x].bankrupt
  }

  ghost predicate InOrder(players: seq<Player>, seats: seq<Seat>) {
    InRange(players, seats) && forall a, b :: 0 <= a < b < |seats| ==> RanksBefore(players, seats[a], seats[b])
  }

  lemma {:induction false} InsertInOrder(players: seq<Player>, x: Seat, seats: seq<Seat>)
    requires x < |players| && players[x].bankrupt && InOrder(players, seats)
    requires forall k :: 0 <= k < |seats| ==> seats[k] < x && players[seats[k]].bankrupt
    ensures InOrder(players, InsertDesc(players, x, seats))
  {
    if seats != [] && Key(players[seats[0]]) >= Key(players[x]) {
      InsertInOrder(players, x, seats[1..]);
      var rest := InsertDesc(players, x, seats[1..]);
      forall b | 0 <= b < |rest| ensures RanksBefore(players, seats[0], rest[b]) {
        assert rest[b] in multiset(rest);
        assert rest[b] == x || rest[b] in seats[1..];
      }
    }
  }

  lemma {:induction false} SortInOrder(players: seq<Player>, seats: seq<Seat>)
    requires InRange(players, seats) && (forall k :: 0 <= k < |seats| ==> players[seats[k]].bankrupt)
    requires forall a, b :: 0 <= a < b < |seats| ==> seats[a] < seats[b]
    ensures InOrder(players, SortDesc(players, seats))
  {
    if seats != [] {
      var n := |seats| - 1;
      SortInOrder(players, seats[..n]);
      var sorted := SortDesc(players, seats[..n]);
      forall k | 0 <= k < |sorted| ensures sorted[k] < seats[n] && players[sorted[k]].bankrupt {
        assert sorted[k] in multiset(sorted);
        assert sorted[k] in seats[..n];
      }
      InsertInOrder(players, seats[n], sorted);
    }
  }

  lemma {:induction false} OutInOrder(players: seq<Player>, k: nat)
    requires k <= |players|
    ensures var out := OutSeats(players, k);
            && (forall j :: 0 <= j < |out| ==> out[j] < k && players[out[j]].bankrupt)
            && (forall a, b :: 0 <= a < b < |out| ==> out[a] < out[b])
  {
    if k > 0 {
      OutInOrder(players, k - 1);
      SeatsUnfold(players, k);
    }
  }

  /** The ranking of any table whatever. */
  lemma RankingOrder(players: seq<Player>)
    ensures InOrder(players, Ordered(players))
  {
    hide ActiveSeats, OutSeats, SortDesc, Key;
    var n := |players|;
    SeatsInRange(players, n);
    SurvivorsInRange(players, n);
    OutInOrder(players, n);
    SortInOrder(players, OutSeats(players, n));
    var active, sorted := ActiveSeats(players, n), SortDesc(players, OutSeats(players, n));
    forall k | 0 <= k < |sorted| ensures players[sorted[k]].bankrupt {
      assert sorted[k] in multiset(sorted);
      assert sorted[k] in OutSeats(players, n);
    }
    assert forall j :: 0 <= j < |active| ==> !players[active[j]].bankrupt;
  }

  /** At the end of a game the winner takes the first place, and behind the winner every place belongs to a
      player who left the game strictly later than everyone placed after. */
  lemma FinalRanking(g: Config, s: State)
    requires Inv(g, s) && s.finished
    ensures |Ordered(s.players)| == |s.players| > 0
    ensures s.winner == Some(Ordered(s.players)[0]) && !s.players[Ordered(s.players)[0]].bankrupt
    ensures forall a, b :: 1 <= a < b < |s.players| ==>
              && s.players[Ordered(s.players)[a]].bankrupt && s.players[Ordered(s.players)[b]].bankrupt
              && Key(s.players[Ordered(s.players)[a]]) > Key(s.players[Ordered(s.players)[b]])
    ensures forall a :: 1 <= a < |s.players| ==> s.players[Ordered(s.players)[a]].bankrupt
  {
    hide Good, Streets, Owns, Inventory, WorthFresh, Phases, AuctionOk, ActiveSeats, OutSeats, SortDesc, Key;
    var players := s.players;
    var n := |players|;
    PlacementBijection(players);
    SeatsInRange(players, n);
    SurvivorsInRange(players, n);
    SortDescending(players, OutSeats(players, n));
    var ordered := Ordered(players);
    var sorted := SortDesc(players, OutSeats(players, n));
    assert ordered == Survivors(s) + sorted;
    forall a | 1 <= a < n ensures players[ordered[a]].bankrupt && ordered[a] == sorted[a - 1] {
      SortedOut(players, a - 1);
    }
    forall a, b | 1 <= a < b < n ensures Key(players[ordered[a]]) > Key(players[ordered[b]]) {
      DistinctKeys(s, ordered[a], ordered[b]);
    }
  }

  lemma DistinctKeys(s: State, i: Seat, j: Seat)
    requires Roster(s) && i < |s.players| && j < |s.players| && i != j
    requires s.players[i].bankrupt && s.players[j].bankrupt
    ensures Key(s.players[i]) != Key(s.players[j])
  {
    hide ActiveSeats;
    RecordAt(s, i);
    RecordAt(s, j);
  }

  /** The final ranking is the exact reverse order of elimination: on a run that ends the game, whoever
      was still playing when another player was already out is placed before that player. */
  lemma FinishingOrder(g: Config, s: State, steps: seq<Move>, k: nat, i: Seat, j: Seat)
    requires ValidConfig(g) && Inv(g, s) && OrderlyRun(g, s, steps) && k <= |steps| && Good(g, s)
    requires i < |Run(g, s, steps[..k]).players| && j < |Run(g, s, steps[..k]).players|
    requires Run(g, s, steps[..k]).players[i].bankrupt && !Run(g, s, steps[..k]).players[j].bankrupt
    requires Run(g, s, steps).finished
    ensures var players := Run(g, s, steps).players;
            PlaceOf(players, j) < PlaceOf(players, i) <= |players|
  {
    hide ValidConfig, Inv, Good, Run, OrderlyRun, Ordered, Key;
    var e := Run(g, s, steps);
    OrderOfElimination(g, s, steps, k, i, j);
    RunInvariant(g, s, steps);
    FinalRanking(g, e);
    PlacementBijection(e.players);
    var ordered := Ordered(e.players);
    var a, b := IndexOf(ordered, j), IndexOf(ordered, i);
    assert ordered[a] == j && ordered[b] == i;
    assert b != 0;
    assert forall x :: b < x < |ordered| ==> e.players[ordered[x]].bankrupt && Key(e.players[i]) > Key(e.players[ordered[x]]);
  }
}
