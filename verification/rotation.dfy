/** Turn order: the two ways the engine finds the next player agree, and a lap visits everyone once. */
module Rotation {
  import opened GameTypes
  import opened Seqs
  import opened Worth
  import opened Payments
  import opened PropertyRules
  import opened Elimination
  import opened Handlers

  // ---------------------------------------------------------------- the list of active seats

  lemma {:induction false} ActiveFrame(a: seq<Player>, b: seq<Player>, k: nat)
    requires k <= |a| && |a| == |b|
    requires forall i :: 0 <= i < k ==> a[i].bankrupt == b[i].bankrupt
    ensures ActiveSeats(a, k) == ActiveSeats(b, k)
  {
    if k > 0 {
      ActiveFrame(a, b, k - 1);
    }
  }

  /** Eliminating one active player shortens the list by one. */
  lemma {:induction false} ActiveRemove(a: seq<Player>, b: seq<Player>, who: Seat, k: nat)
    requires k <= |a| && |a| == |b| && who < |a|
    requires !a[who].bankrupt && b[who].bankrupt
    requires forall i :: 0 <= i < |a| && i != who ==> a[i].bankrupt == b[i].bankrupt
    ensures |ActiveSeats(b, k)| == |ActiveSeats(a, k)| - (if who < k then 1 else 0)
  {
    if k > 0 {
      ActiveRemove(a, b, who, k - 1);
    }
  }

  // ---------------------------------------------------------------- the cyclic scan

  lemma {:induction false} FirstOffset(players: seq<Player>, start: nat, k: nat, o: nat)
    requires players != [] && k <= o <= |players|
    requires forall j :: k <= j < o ==> players[SeatAfter(|players|, start, j)].bankrupt
    requires !players[SeatAfter(|players|, start, o)].bankrupt
    ensures NextOffset(players, start, k) == Some(o)
    decreases o - k
  {
    hide SeatAfter;
    if k < o {
      FirstOffset(players, start, k + 1, o);
    }
  }

  /** Offset from the `k`-th active seat to the next one in the list, around the table. */
  function ListOffset(n: nat, active: seq<Seat>, k: nat): int
    requires k < |active|
  {
    if k + 1 < |active| then active[k + 1] - active[k] else n - active[k] + active[0]
  }

  /** A seat strictly between two neighbours of the list, around the table, is not in it. */
  lemma GapInactive(active: seq<Seat>, k: nat, seat: Seat)
    requires k < |active| && StrictlySorted(active)
    requires if k + 1 < |active| then active[k] < seat < active[k + 1] else seat > active[k] || seat < active[0]
    ensures seat !in active
  {
    assert forall m :: 0 <= m <= k ==> active[m] <= active[k];
    assert forall m :: k < m < |active| ==> active[k + 1] <= active[m];
    assert forall m :: 0 <= m < |active| ==> active[0] <= active[m];
  }

  lemma ScanFindsList(players: seq<Player>, k: nat)
    requires var active := ActiveSeats(players, |players|); k < |active|
    ensures var active := ActiveSeats(players, |players|);
            var o := ListOffset(|players|, active, k);
            && 1 <= o <= |players| && NextOffset(players, active[k], 1) == Some(o)
            && SeatAfter(|players|, active[k], o) == NextInList(active, k).0
            && (active[k] + o >= |players| <==> NextInList(active, k).1)
  {
    hide SeatAfter, ActiveSeats;
    var n := |players|;
    SurvivorsInRange(players, n);
    var active := ActiveSeats(players, n);
    var who := active[k];
    var o := ListOffset(n, active, k);
    SeatAfterValue(|active|, k, 1);
    forall j | 1 <= j < o ensures players[SeatAfter(n, who, j)].bankrupt {
      SeatAfterValue(n, who, j);
      var seat := SeatAfter(n, who, j);
      if !players[seat].bankrupt {
        GapInactive(active, k, seat);
        assert false;
      }
    }
    SeatAfterValue(n, who, o);
    FirstOffset(players, who, 1, o);
  }

  /** `_handle_end_turn` (a filtered list and an index) and `advance_turn_off_player` (a cyclic scan)
      hand the turn to the same player in the same round. */
  lemma SameSuccessor(s: State, i: Seat)
    requires s.players != [] && s.turn.current < |s.players| && !s.players[s.turn.current].bankrupt
    requires forall k :: 0 <= k < |Survivors(s)| ==> Survivors(s)[k] < |s.players|
    requires End(s, i).Ok?
    ensures End(s, i).s == AdvanceOff(s, s.turn.current)
  {
    hide ActiveSeats, NextOffset, SeatAfter;
    SurvivorsInRange(s.players, |s.players|);
    ScanFindsList(s.players, IndexOf(Survivors(s), s.turn.current));
  }

  /** An active current player always has a successor, who is active. */
  lemma SuccessorActive(s: State, from: Seat)
    requires from < |s.players| && Survivors(s) != []
    ensures var s' := AdvanceOff(s, from);
            && s'.turn.current < |s.players| && !s.players[s'.turn.current].bankrupt
            && exists wrapped :: s' == s.(turn := TurnFor(s, s'.turn.current, wrapped))
  {
    hide ActiveSeats, SeatAfter;
    SurvivorsInRange(s.players, |s.players|);
    var n := |s.players|;
    var a := Survivors(s)[0];
    var d := if a > from then a - from else n - from + a;
    SeatAfterValue(n, from, d);
    ScanReaches(s.players, from, 1, d);
    var k := NextOffset(s.players, from, 1).value;
    assert AdvanceOff(s, from) == s.(turn := TurnFor(s, SeatAfter(n, from, k), from + k >= n));
  }

  /** The turn handed on: a prisoner is asked for the jail decision, anybody else rolls; nothing of the old
      turn is left over. */
  lemma FreshTurn(s: State, from: Seat)
    requires from < |s.players| && Survivors(s) != []
    ensures var turn := AdvanceOff(s, from).turn;
            && turn.current < |s.players|
            && turn.phase == (if s.players[turn.current].jail.Some? then JailDecision else PreRoll)
            && turn.dice.None? && turn.streak == 0 && turn.tradeOffers == 0 && turn.pending.None?
            && turn.number == s.turn.number + 1 && s.turn.round <= turn.round <= s.turn.round + 1
  {
    hide ActiveSeats, AdvanceOff;
    SuccessorActive(s, from);
  }

  lemma {:induction false} ScanReaches(players: seq<Player>, start: nat, k: nat, o: nat)
    requires players != [] && k <= o <= |players| && !players[SeatAfter(|players|, start, o)].bankrupt
    ensures NextOffset(players, start, k).Some?
    ensures !players[SeatAfter(|players|, start, NextOffset(players, start, k).value)].bankrupt
    decreases o - k
  {
    if players[SeatAfter(|players|, start, k)].bankrupt {
      ScanReaches(players, start, k + 1, o);
    }
  }

  // ---------------------------------------------------------------- laps

  /** The state after the turn has been passed on `t` times. */
  function Pass(s: State, t: nat): (r: State)
    requires s.players != []
    ensures r.players == s.players
  {
    if t == 0 then s else AdvanceOff(Pass(s, t - 1), Pass(s, t - 1).turn.current)
  }

  /** After `t` of a lap's turns: the seat `t` places on in the list, in the next round if the list
      was passed. */
  lemma {:induction false} PassPosition(s: State, j: nat, t: nat)
    requires s.players != [] && j < |Survivors(s)| && t <= |Survivors(s)| && s.turn.current == Survivors(s)[j]
    ensures var m := |Survivors(s)|;
            && Pass(s, t).turn.current == Survivors(s)[SeatAfter(m, j, t)]
            && Pass(s, t).turn.round == s.turn.round + (if j + t >= m then 1 else 0)
            && Pass(s, t).turn.number == s.turn.number + t
  {
    hide ActiveSeats, NextOffset, SeatAfter;
    var m := |Survivors(s)|;
    SeatAfterValue(m, j, t);
    if t > 0 {
      PassPosition(s, j, t - 1);
      SeatAfterValue(m, j, t - 1);
      var k := SeatAfter(m, j, t - 1);
      ScanFindsList(s.players, k);
      SeatAfterValue(m, k, 1);
    }
  }

  /** The turn of the lap in which seat `i` plays. */
  lemma LapVisits(s: State, i: Seat) returns (t: nat)
    requires s.players != [] && s.turn.current in Survivors(s) && i < |s.players| && !s.players[i].bankrupt
    ensures 1 <= t <= |Survivors(s)| && Pass(s, t).turn.current == i
  {
    hide ActiveSeats, Pass, SeatAfter;
    SurvivorsInRange(s.players, |s.players|);
    var active := Survivors(s);
    var m := |active|;
    var j := IndexOf(active, s.turn.current);
    var k := IndexOf(active, i);
    t := if k > j then k - j else m - j + k;
    PassPosition(s, j, t);
    SeatAfterValue(m, j, t);
  }

  lemma LapDistinct(s: State, t: nat, u: nat)
    requires s.players != [] && s.turn.current in Survivors(s) && 1 <= t < u <= |Survivors(s)|
    ensures Pass(s, t).turn.current != Pass(s, u).turn.current
  {
    hide ActiveSeats, Pass, SeatAfter;
    SurvivorsInRange(s.players, |s.players|);
    var active := Survivors(s);
    var j := IndexOf(active, s.turn.current);
    PassPosition(s, j, t);
    PassPosition(s, j, u);
    SeatAfterValue(|active|, j, t);
    SeatAfterValue(|active|, j, u);
  }

  predicate PlaysInLap(s: State, i: Seat)
    requires s.players != []
  {
    exists t: nat | 1 <= t <= |Survivors(s)| :: Pass(s, t).turn.current == i
  }

  /** A lap: as many turns as there are active players give every one of them exactly one turn, end
      with the player who started, and raise the round number by exactly one. */
  lemma Lap(s: State)
    requires s.players != [] && s.turn.current in Survivors(s)
    ensures var m := |Survivors(s)|;
            Pass(s, m).turn.current == s.turn.current && Pass(s, m).turn.round == s.turn.round + 1
    ensures forall i: Seat :: i < |s.players| && !s.players[i].bankrupt ==> PlaysInLap(s, i)
    ensures forall t: nat, u: nat :: 1 <= t < u <= |Survivors(s)| ==> Pass(s, t).turn.current != Pass(s, u).turn.current
  {
    hide ActiveSeats, Pass, SeatAfter;
    var m := |Survivors(s)|;
    var j := IndexOf(Survivors(s), s.turn.current);
    PassPosition(s, j, m);
    SeatAfterValue(m, j, m);
    forall i: Seat | i < |s.players| && !s.players[i].bankrupt ensures PlaysInLap(s, i) {
      var t := LapVisits(s, i);
      assert Pass(s, t).turn.current == i;
    }
    forall t: nat, u: nat | 1 <= t < u <= m ensures Pass(s, t).turn.current != Pass(s, u).turn.current {
      LapDistinct(s, t, u);
    }
  }
}
