/** `elo.py`: placement-based ELO for any number of players. */
module Rating {
  import opened Seqs

  const CALIBRATION_GAMES: int := 3
  const CALIBRATION_K: int := 120
  const CALIBRATION_CAP: int := 75
  const REGULAR_K: int := 48
  const REGULAR_CAP: int := 25
  const RATING_FLOOR: int := 100

  datatype Participant = Participant(userId: int, rating: int, gamesPlayed: int, placement: int)

  datatype RatingResult = RatingResult(oldRating: int, newRating: int, delta: int, gamesPlayed: int, calibrated: bool)

  /** A win probability: `p(a, b)` is the chance of rating `a` against rating `b`. */
  type Odds = (int, int) -> real

  ghost predicate FairOdds(p: Odds) {
    forall a: int, b: int :: 0.0 <= p(a, b) <= 1.0 && p(a, b) + p(b, a) == 1.0
  }

  /** Python's `round`: halves go to the even neighbour. */
  function Round(x: real): (r: int)
    ensures -0.5 <= r as real - x <= 0.5
  {
    var f := x.Floor;
    var rest := x - f as real;
    if rest < 0.5 then f
    else if rest > 0.5 then f + 1
    else if f % 2 == 0 then f else f + 1
  }

  lemma Fair(p: Odds, a: int, b: int)
    requires FairOdds(p)
    ensures 0.0 <= p(a, b) <= 1.0 && p(a, b) + p(b, a) == 1.0
  {}

  function Clamp(value: int, cap: int): int {
    var low := if cap < value then cap else value;
    if -cap > low then -cap else low
  }

  // ---------------------------------------------------------------- scores

  /** The ratings of the participants among the first `k` who are not `player`. */
  function Opponents(ps: seq<Participant>, player: Participant, k: nat): seq<int>
    requires k <= |ps|
  {
    if k == 0 then []
    else Opponents(ps, player, k - 1) + (if ps[k - 1].userId != player.userId then [ps[k - 1].rating] else [])
  }

  function WinSum(p: Odds, rating: int, opponents: seq<int>): real {
    if opponents == [] then 0.0
    else WinSum(p, rating, opponents[..|opponents| - 1]) + p(rating, opponents[|opponents| - 1])
  }

  /** `_expected_score`. */
  function ExpectedScore(p: Odds, rating: int, opponents: seq<int>): real {
    if opponents == [] then 0.5 else WinSum(p, rating, opponents) / |opponents| as real
  }

  function Expected(p: Odds, ps: seq<Participant>, i: nat): real
    requires i < |ps|
  {
    ExpectedScore(p, ps[i].rating, Opponents(ps, ps[i], |ps|))
  }

  function Actual(n: nat, placement: int): real
    requires n >= 2
  {
    (n - placement) as real / (n - 1) as real
  }

  function Factor(player: Participant): int {
    if player.gamesPlayed < CALIBRATION_GAMES then CALIBRATION_K else REGULAR_K
  }

  function Cap(player: Participant): int {
    if player.gamesPlayed < CALIBRATION_GAMES then CALIBRATION_CAP else REGULAR_CAP
  }

  /** A factor times the excess of the actual over the expected score, rounded. */
  function Points(factor: int, actual: real, expected: real): (r: int)
    ensures -0.5 <= r as real - factor as real * (actual - expected) <= 0.5
  {
    Round(factor as real * (actual - expected))
  }

  /** The change before the cap and the floor. */
  function RawDelta(p: Odds, ps: seq<Participant>, i: nat): int
    requires i < |ps| && |ps| >= 2
  {
    Points(Factor(ps[i]), Actual(|ps|, ps[i].placement), Expected(p, ps, i))
  }

  function ResultOf(p: Odds, ps: seq<Participant>, i: nat): RatingResult
    requires i < |ps| && |ps| >= 2
  {
    var player := ps[i];
    var changed := player.rating + Clamp(RawDelta(p, ps, i), Cap(player));
    var newRating := if RATING_FLOOR > changed then RATING_FLOOR else changed;
    RatingResult(player.rating, newRating, newRating - player.rating, player.gamesPlayed + 1,
                 player.gamesPlayed + 1 >= CALIBRATION_GAMES)
  }

  predicate DistinctUsers(ps: seq<Participant>) {
    forall i, j :: 0 <= i < j < |ps| ==> ps[i].userId != ps[j].userId
  }

  /** No later participant among the first `k` has the same user id. */
  predicate LastOfUser(ps: seq<Participant>, i: nat, k: nat)
    requires i < k <= |ps|
  {
    forall j :: i < j < k ==> ps[j].userId != ps[i].userId
  }

  /** Every user among the first `k` has an entry: that of the user's last participant there. */
  predicate Recorded(p: Odds, ps: seq<Participant>, results: map<int, RatingResult>, k: nat)
    requires 2 <= |ps| && k <= |ps|
  {
    && (forall i :: 0 <= i < k ==>
          ps[i].userId in results && (LastOfUser(ps, i, k) ==> results[ps[i].userId] == ResultOf(p, ps, i)))
    && (forall u :: u in results ==> exists i :: 0 <= i < k && ps[i].userId == u)
  }

  lemma RecordNext(p: Odds, ps: seq<Participant>, results: map<int, RatingResult>, k: nat)
    requires 2 <= |ps| && k < |ps| && Recorded(p, ps, results, k)
    ensures Recorded(p, ps, results[ps[k].userId := ResultOf(p, ps, k)], k + 1)
  {
    hide ResultOf;
    var results' := results[ps[k].userId := ResultOf(p, ps, k)];
    forall i | 0 <= i <= k
      ensures ps[i].userId in results' && (LastOfUser(ps, i, k + 1) ==> results'[ps[i].userId] == ResultOf(p, ps, i))
    {
      if i < k && LastOfUser(ps, i, k + 1) {
        assert LastOfUser(ps, i, k) && ps[k].userId != ps[i].userId;
      }
    }
    forall u | u in results' ensures exists i :: 0 <= i < k + 1 && ps[i].userId == u {
      if u != ps[k].userId {
        var i :| 0 <= i < k && ps[i].userId == u;
      }
    }
  }

  /** `compute_rating_changes`, the loop that fills the dictionary: one entry per user, that of the user's last
      participant, and nothing else. */
  method ComputeRatingChanges(p: Odds, ps: seq<Participant>) returns (results: map<int, RatingResult>)
    ensures |ps| < 2 ==> results == map[]
    ensures |ps| >= 2 ==> Recorded(p, ps, results, |ps|)
  {
    results := map[];
    var n := |ps|;
    if n < 2 {
      return;
    }
    for k := 0 to n
      invariant Recorded(p, ps, results, k)
    {
      var player := ps[k];
      var opponents := Opponents(ps, player, n);
      var expected := ExpectedScore(p, player.rating, opponents);
      var actual := Actual(n, player.placement);
      var provisional := player.gamesPlayed < CALIBRATION_GAMES;
      var factor := if provisional then CALIBRATION_K else REGULAR_K;
      var cap := if provisional then CALIBRATION_CAP else REGULAR_CAP;
      var delta := Clamp(Points(factor, actual, expected), cap);
      hide Points, WinSum, Opponents, Clamp, Recorded;
      assert factor == Factor(player) && cap == Cap(player) && expected == Expected(p, ps, k);
      assert delta == Clamp(RawDelta(p, ps, k), cap);
      var newRating := if RATING_FLOOR > player.rating + delta then RATING_FLOOR else player.rating + delta;
      var newGames := player.gamesPlayed + 1;
      var result := RatingResult(player.rating, newRating, newRating - player.rating, newGames, newGames >= CALIBRATION_GAMES);
      assert result == ResultOf(p, ps, k);
      RecordNext(p, ps, results, k);
      results := results[player.userId := result];
    }
  }

  // ---------------------------------------------------------------- bounds of one change

  /** The floor holds for everybody; the cap binds exactly for players who are not further below the floor
      than the cap allows, which no player rated at the floor or above is. */
  lemma ChangeBounds(p: Odds, ps: seq<Participant>, i: nat)
    requires i < |ps| && |ps| >= 2
    ensures var r := ResultOf(p, ps, i);
            && r.newRating >= RATING_FLOOR && r.newRating == ps[i].rating + r.delta
            && (-Cap(ps[i]) <= r.delta <= Cap(ps[i]) <==> ps[i].rating >= RATING_FLOOR - Cap(ps[i]))
    ensures ps[i].rating >= RATING_FLOOR ==> -Cap(ps[i]) <= ResultOf(p, ps, i).delta <= Cap(ps[i])
  {
    hide RawDelta;
  }

  lemma {:induction false} WinSumRange(p: Odds, rating: int, opponents: seq<int>)
    requires FairOdds(p)
    ensures 0.0 <= WinSum(p, rating, opponents) <= |opponents| as real
  {
    if opponents != [] {
      var n := |opponents| - 1;
      WinSumRange(p, rating, opponents[..n]);
      Fair(p, rating, opponents[n]);
      assert |opponents| as real == n as real + 1.0;
    }
  }

  lemma ExpectedRange(p: Odds, rating: int, opponents: seq<int>)
    requires FairOdds(p)
    ensures 0.0 <= ExpectedScore(p, rating, opponents) <= 1.0
  {
    WinSumRange(p, rating, opponents);
    if opponents != [] {
      DivideRange(WinSum(p, rating, opponents), |opponents| as real);
    }
  }

  lemma DivideRange(x: real, y: real)
    requires 0.0 <= x <= y && y > 0.0
    ensures 0.0 <= x / y <= 1.0
  {
    Quotient(x, y);
    Distribute(1.0, -(x / y), y);
    NonNegativeFactor(x / y, y);
    NonNegativeFactor(1.0 - x / y, y);
  }

  lemma NonNegativeFactor(a: real, y: real)
    requires y > 0.0 && a * y >= 0.0
    ensures a >= 0.0
  {}

  lemma ScaleSign(k: int, x: real)
    requires k > 0
    ensures x >= 0.0 ==> k as real * x >= 0.0
    ensures x <= 0.0 ==> k as real * x <= 0.0
  {}

  /** Winning never costs rating, and coming last gains some exactly for a player who was below the floor. */
  lemma FirstAndLast(p: Odds, ps: seq<Participant>, i: nat)
    requires FairOdds(p) && i < |ps| && |ps| >= 2
    ensures ps[i].placement == 1 ==> ResultOf(p, ps, i).delta >= 0
    ensures ps[i].placement == |ps| ==> (ResultOf(p, ps, i).delta > 0 <==> ps[i].rating < RATING_FLOOR)
  {
    hide WinSum, Opponents;
    var n := |ps|;
    var e := Expected(p, ps, i);
    ExpectedRange(p, ps[i].rating, Opponents(ps, ps[i], n));
    assert Actual(n, 1) == 1.0 by { assert (n - 1) as real / (n - 1) as real == 1.0; }
    assert Actual(n, n) == 0.0;
    ScaleSign(Factor(ps[i]), Actual(n, ps[i].placement) - e);
  }

  // ---------------------------------------------------------------- the scores of a game balance

  lemma {:induction false} OpponentCount(ps: seq<Participant>, i: nat, k: nat)
    requires DistinctUsers(ps) && i < |ps| && k <= |ps|
    ensures |Opponents(ps, ps[i], k)| == k - (if i < k then 1 else 0)
  {
    if k > 0 {
      OpponentCount(ps, i, k - 1);
    }
  }

  /** Wins of participant `i` over the others among the first `k`. */
  function Wins(p: Odds, ps: seq<Participant>, i: nat, k: nat): real
    requires i < |ps| && k <= |ps|
  {
    WinSum(p, ps[i].rating, Opponents(ps, ps[i], k))
  }

  lemma WinsStep(p: Odds, ps: seq<Participant>, i: nat, k: nat)
    requires DistinctUsers(ps) && i < |ps| && k < |ps|
    ensures Wins(p, ps, i, k + 1) == Wins(p, ps, i, k) + (if i == k then 0.0 else p(ps[i].rating, ps[k].rating))
  {
    var before := Opponents(ps, ps[i], k);
    if i != k {
      assert ps[i].userId != ps[k].userId;
      assert (before + [ps[k].rating])[..|before|] == before;
    } else {
      assert before + [] == before;
    }
  }

  /** Wins of the first `m` participants over the first `k`. */
  function TotalWins(p: Odds, ps: seq<Participant>, m: nat, k: nat): real
    requires m <= |ps| && k <= |ps|
  {
    if m == 0 then 0.0 else TotalWins(p, ps, m - 1, k) + Wins(p, ps, m - 1, k)
  }

  /** What the first `m` participants, and participant `k` against them, win from each other adds up to `m`. */
  lemma {:induction false} OneMore(p: Odds, ps: seq<Participant>, m: nat, k: nat)
    requires FairOdds(p) && DistinctUsers(ps) && m <= k < |ps|
    ensures TotalWins(p, ps, m, k + 1) + Wins(p, ps, k, m) == TotalWins(p, ps, m, k) + m as real
  {
    hide Opponents, WinSum, DistinctUsers;
    if m == 0 {
      NoOpponents(p, ps, k);
    } else {
      OneMore(p, ps, m - 1, k);
      WinsStep(p, ps, m - 1, k);
      WinsStep(p, ps, k, m - 1);
      Fair(p, ps[m - 1].rating, ps[k].rating);
    }
  }

  lemma NoOpponents(p: Odds, ps: seq<Participant>, k: nat)
    requires k < |ps|
    ensures Wins(p, ps, k, 0) == 0.0
  {}

  /** A round robin of `k` participants distributes one point per pair. */
  lemma {:induction false} PairPoints(p: Odds, ps: seq<Participant>, k: nat)
    requires FairOdds(p) && DistinctUsers(ps) && k <= |ps|
    ensures TotalWins(p, ps, k, k) == (k * (k - 1)) as real / 2.0
  {
    hide Wins, DistinctUsers;
    if k > 0 {
      PairPoints(p, ps, k - 1);
      OneMore(p, ps, k - 1, k - 1);
      WinsStep(p, ps, k - 1, k - 1);
      assert k * (k - 1) == (k - 1) * (k - 2) + 2 * (k - 1);
    }
  }

  function ExpectedTotal(p: Odds, ps: seq<Participant>, m: nat): real
    requires m <= |ps|
  {
    if m == 0 then 0.0 else ExpectedTotal(p, ps, m - 1) + Expected(p, ps, m - 1)
  }

  function ActualTotal(ps: seq<Participant>, m: nat): real
    requires m <= |ps| && |ps| >= 2
  {
    if m == 0 then 0.0 else ActualTotal(ps, m - 1) + Actual(|ps|, ps[m - 1].placement)
  }

  lemma {:induction false} ExpectedFromWins(p: Odds, ps: seq<Participant>, m: nat)
    requires DistinctUsers(ps) && |ps| >= 2 && m <= |ps|
    ensures ExpectedTotal(p, ps, m) * (|ps| - 1) as real == TotalWins(p, ps, m, |ps|)
  {
    hide Opponents, WinSum;
    if m > 0 {
      var n := |ps|;
      ExpectedFromWins(p, ps, m - 1);
      OpponentCount(ps, m - 1, n);
      Quotient(Wins(p, ps, m - 1, n), (n - 1) as real);
      Distribute(ExpectedTotal(p, ps, m - 1), Expected(p, ps, m - 1), (n - 1) as real);
    }
  }

  lemma Quotient(x: real, y: real)
    requires y != 0.0
    ensures x / y * y == x
  {}

  lemma Distribute(a: real, b: real, c: real)
    ensures (a + b) * c == a * c + b * c
  {}

  /** The expected scores of a game add up to half the number of players. */
  lemma ExpectedScoresBalance(p: Odds, ps: seq<Participant>)
    requires FairOdds(p) && DistinctUsers(ps) && |ps| >= 2
    ensures ExpectedTotal(p, ps, |ps|) == |ps| as real / 2.0
  {
    hide ExpectedTotal, TotalWins, DistinctUsers;
    var n := |ps|;
    ExpectedFromWins(p, ps, n);
    PairPoints(p, ps, n);
    HalfCancel(ExpectedTotal(p, ps, n), n);
  }

  lemma HalfCancel(x: real, n: nat)
    requires n >= 2 && x * (n - 1) as real == (n * (n - 1)) as real / 2.0
    ensures x == n as real / 2.0
  {
    var y := (n - 1) as real;
    assert (n * (n - 1)) as real == n as real * y;
    assert (x - n as real / 2.0) * y == 0.0;
  }

  // ---------------------------------------------------------------- actual scores

  function PlacementsOf(ps: seq<Participant>): (r: seq<int>)
    ensures |r| == |ps| && forall i :: 0 <= i < |r| ==> r[i] == ps[i].placement
  {
    seq(|ps|, i requires 0 <= i < |ps| => ps[i].placement)
  }

  function UpTo(n: nat): (r: seq<int>)
    ensures |r| == n && forall i :: 0 <= i < n ==> r[i] == i + 1
  {
    seq(n, i => i + 1)
  }

  /** The placements are 1 to n in some order. */
  predicate Ranked(ps: seq<Participant>) {
    multiset(PlacementsOf(ps)) == multiset(UpTo(|ps|))
  }

  lemma {:induction false} SumRemove(xs: seq<int>, k: nat)
    requires k < |xs|
    ensures Sum(xs[..k] + xs[k + 1..]) == Sum(xs) - xs[k]
  {
    var n := |xs| - 1;
    if k == n {
      assert xs[..k] + xs[k + 1..] == xs[..n];
    } else {
      SumRemove(xs[..n], k);
      var rest := xs[..k] + xs[k + 1..];
      assert rest[..n - 1] == xs[..n][..k] + xs[..n][k + 1..];
      assert rest[n - 1] == xs[n];
    }
  }

  lemma Cancel(a: multiset<int>, b: multiset<int>, x: int)
    requires a + multiset{x} == b + multiset{x}
    ensures a == b
  {
    assert (a + multiset{x}) - multiset{x} == a && (b + multiset{x}) - multiset{x} == b;
  }

  /** The order of the summands does not matter. */
  lemma {:induction false} SumPermutation(xs: seq<int>, ys: seq<int>)
    requires multiset(xs) == multiset(ys)
    ensures Sum(xs) == Sum(ys)
  {
    if xs == [] {
      assert |multiset(ys)| == 0;
    } else {
      var n := |xs| - 1;
      assert xs == xs[..n] + [xs[n]];
      assert xs[n] in multiset(ys);
      var k :| 0 <= k < |ys| && ys[k] == xs[n];
      var rest := ys[..k] + ys[k + 1..];
      assert ys == ys[..k] + [ys[k]] + ys[k + 1..];
      assert multiset(ys) == multiset(rest) + multiset{xs[n]};
      assert multiset(xs) == multiset(xs[..n]) + multiset{xs[n]};
      Cancel(multiset(rest), multiset(xs[..n]), xs[n]);
      SumPermutation(xs[..n], rest);
      SumRemove(ys, k);
    }
  }

  lemma {:induction false} SumUpTo(n: nat)
    ensures 2 * Sum(UpTo(n)) == n * (n + 1)
  {
    if n > 0 {
      SumUpTo(n - 1);
      assert UpTo(n)[..n - 1] == UpTo(n - 1);
      assert n * (n + 1) == (n - 1) * n + 2 * n;
    }
  }

  lemma {:induction false} ActualFromPlacements(ps: seq<Participant>, m: nat)
    requires |ps| >= 2 && m <= |ps|
    ensures ActualTotal(ps, m) * (|ps| - 1) as real == (|ps| * m - Sum(PlacementsOf(ps)[..m])) as real
  {
    if m > 0 {
      var n := |ps|;
      ActualFromPlacements(ps, m - 1);
      assert PlacementsOf(ps)[..m][..m - 1] == PlacementsOf(ps)[..m - 1];
      Quotient((n - ps[m - 1].placement) as real, (n - 1) as real);
      Distribute(ActualTotal(ps, m - 1), Actual(n, ps[m - 1].placement), (n - 1) as real);
      assert n * m == n * (m - 1) + n;
    }
  }

  /** The actual scores of a ranked game add up to half the number of players, too. */
  lemma ActualScoresBalance(ps: seq<Participant>)
    requires |ps| >= 2 && Ranked(ps)
    ensures ActualTotal(ps, |ps|) == |ps| as real / 2.0
  {
    hide ActualTotal, Sum;
    var n := |ps|;
    ActualFromPlacements(ps, n);
    assert PlacementsOf(ps)[..n] == PlacementsOf(ps);
    SumPermutation(PlacementsOf(ps), UpTo(n));
    SumUpTo(n);
    assert 2 * (n * n - Sum(UpTo(n))) == n * (n - 1) by { assert n * (n + 1) + n * (n - 1) == 2 * (n * n); }
    HalfCancel(ActualTotal(ps, n), n);
  }

  // ---------------------------------------------------------------- near zero sum

  function RawTotal(p: Odds, ps: seq<Participant>, m: nat): int
    requires m <= |ps| && |ps| >= 2
  {
    if m == 0 then 0 else RawTotal(p, ps, m - 1) + RawDelta(p, ps, m - 1)
  }

  lemma {:induction false} RawNearScores(p: Odds, ps: seq<Participant>, k: int, m: nat)
    requires |ps| >= 2 && m <= |ps| && forall i :: 0 <= i < |ps| ==> Factor(ps[i]) == k
    ensures var exact := k as real * (ActualTotal(ps, m) - ExpectedTotal(p, ps, m));
            -(m as real) / 2.0 <= RawTotal(p, ps, m) as real - exact <= m as real / 2.0
  {
    hide Actual, Expected, Points;
    if m > 0 {
      RawNearScores(p, ps, k, m - 1);
      var a, e := Actual(|ps|, ps[m - 1].placement), Expected(p, ps, m - 1);
      var before := ActualTotal(ps, m - 1) - ExpectedTotal(p, ps, m - 1);
      assert ActualTotal(ps, m) - ExpectedTotal(p, ps, m) == before + (a - e);
      ScaleSum(k, before, a - e);
      assert RawDelta(p, ps, m - 1) == Points(k, a, e);
      NearStep(RawTotal(p, ps, m - 1) as real, k as real * before, Points(k, a, e) as real, k as real * (a - e), m);
    }
  }

  lemma NearStep(t: real, x: real, d: real, y: real, m: nat)
    requires m > 0 && -((m - 1) as real) / 2.0 <= t - x <= (m - 1) as real / 2.0 && -0.5 <= d - y <= 0.5
    ensures -(m as real) / 2.0 <= (t + d) - (x + y) <= m as real / 2.0
  {}

  lemma ScaleSum(k: int, x: real, y: real)
    ensures k as real * (x + y) == k as real * x + k as real * y
  {}

  /** Among players of equal standing whose changes meet neither cap nor floor, ratings are conserved up to rounding:
      the changes add up to within half a point per player of zero. */
  lemma NearZeroSum(p: Odds, ps: seq<Participant>, k: int)
    requires FairOdds(p) && DistinctUsers(ps) && |ps| >= 2 && Ranked(ps)
    requires forall i :: 0 <= i < |ps| ==> Factor(ps[i]) == k
    ensures -(|ps| as real) / 2.0 <= RawTotal(p, ps, |ps|) as real <= |ps| as real / 2.0
    ensures (forall i :: 0 <= i < |ps| ==> Uncut(p, ps, i)) ==> DeltaTotal(p, ps, |ps|) == RawTotal(p, ps, |ps|)
  {
    hide Actual, Expected, RawDelta;
    ExpectedScoresBalance(p, ps);
    ActualScoresBalance(ps);
    RawNearScores(p, ps, k, |ps|);
    if forall i :: 0 <= i < |ps| ==> Uncut(p, ps, i) {
      UncutTotal(p, ps, |ps|);
    }
  }

  /** The change meets neither the cap nor the floor. */
  predicate Uncut(p: Odds, ps: seq<Participant>, i: nat)
    requires i < |ps| && |ps| >= 2
  {
    -Cap(ps[i]) <= RawDelta(p, ps, i) <= Cap(ps[i]) && ps[i].rating + RawDelta(p, ps, i) >= RATING_FLOOR
  }

  function DeltaTotal(p: Odds, ps: seq<Participant>, m: nat): int
    requires m <= |ps| && |ps| >= 2
  {
    if m == 0 then 0 else DeltaTotal(p, ps, m - 1) + ResultOf(p, ps, m - 1).delta
  }

  lemma {:induction false} UncutTotal(p: Odds, ps: seq<Participant>, m: nat)
    requires |ps| >= 2 && m <= |ps| && forall i :: 0 <= i < |ps| ==> Uncut(p, ps, i)
    ensures DeltaTotal(p, ps, m) == RawTotal(p, ps, m)
  {
    hide RawDelta;
    if m > 0 {
      UncutTotal(p, ps, m - 1);
      assert Uncut(p, ps, m - 1);
    }
  }
}
