/** What one game does to one rating, in full: the points for and against, rounding, cap and floor. */
module RatingLaws {
  import opened Rating

  /** `r` is the nearest whole number to `x`, the even one of two equally near. */
  predicate NearestEven(x: real, r: int) {
    && -0.5 <= r as real - x <= 0.5
    && (r as real - x == 0.5 || r as real - x == -0.5 ==> r % 2 == 0)
  }

  lemma RoundsToEven(x: real)
    ensures NearestEven(x, Round(x))
  {}

  /** How many of the first `k` participants are other users than participant `i`. */
  function Rivals(ps: seq<Participant>, i: nat, k: nat): nat
    requires i < |ps| && k <= |ps|
  {
    if k == 0 then 0 else Rivals(ps, i, k - 1) + if ps[k - 1].userId == ps[i].userId then 0 else 1
  }

  /** What participant `i` may expect to win against those, each by the two ratings. */
  function Prospects(p: Odds, ps: seq<Participant>, i: nat, k: nat): real
    requires i < |ps| && k <= |ps|
  {
    if k == 0 then 0.0
    else Prospects(p, ps, i, k - 1) + if ps[k - 1].userId == ps[i].userId then 0.0 else p(ps[i].rating, ps[k - 1].rating)
  }

  lemma {:induction false} ProspectsAreWins(p: Odds, ps: seq<Participant>, i: nat, k: nat)
    requires i < |ps| && k <= |ps|
    ensures |Opponents(ps, ps[i], k)| == Rivals(ps, i, k) && WinSum(p, ps[i].rating, Opponents(ps, ps[i], k)) == Prospects(p, ps, i, k)
  {
    if k > 0 {
      ProspectsAreWins(p, ps, i, k - 1);
      var before := Opponents(ps, ps[i], k - 1);
      assert (before + [ps[k - 1].rating])[..|before|] == before && before + [] == before;
    }
  }

  /** The expected score is the mean of the win probabilities against the other users, and one half when there are none. */
  lemma ExpectedIsMean(p: Odds, ps: seq<Participant>, i: nat)
    requires i < |ps|
    ensures Rivals(ps, i, |ps|) == 0 ==> Expected(p, ps, i) == 0.5
    ensures Rivals(ps, i, |ps|) > 0 ==> Expected(p, ps, i) * Rivals(ps, i, |ps|) as real == Prospects(p, ps, i, |ps|)
    ensures DistinctUsers(ps) ==> Rivals(ps, i, |ps|) == |ps| - 1
  {
    hide Opponents, WinSum, Prospects, Rivals, DistinctUsers;
    ProspectsAreWins(p, ps, i, |ps|);
    if Rivals(ps, i, |ps|) > 0 {
      Quotient(Prospects(p, ps, i, |ps|), Rivals(ps, i, |ps|) as real);
    }
    if DistinctUsers(ps) {
      OpponentCount(ps, i, |ps|);
    }
  }

  /** A place is worth the share of the others who finished behind: all of them for the first, none for the last. */
  lemma PlaceIsShare(n: nat, place: int)
    requires n >= 2
    ensures Actual(n, place) * (n - 1) as real == (n - place) as real
  {
    Quotient((n - place) as real, (n - 1) as real);
  }

  /** The result for a player whose place is worth `excess` more than was expected, if that rounds to `raw`. */
  predicate ChangeFrom(player: Participant, excess: real, raw: int, r: RatingResult) {
    var early := player.gamesPlayed < 3;
    var cap := if early then 75 else 25;
    var capped := if raw > cap then cap else if raw < -cap then -cap else raw;
    && NearestEven((if early then 120.0 else 48.0) * excess, raw)
    && r.newRating == (if player.rating + capped < 100 then 100 else player.rating + capped)
    && r == RatingResult(player.rating, r.newRating, r.newRating - player.rating, player.gamesPlayed + 1, player.gamesPlayed >= 2)
  }

  /** What the place of participant `i` is worth over what was expected. */
  function Excess(p: Odds, ps: seq<Participant>, i: nat): real
    requires i < |ps| && |ps| >= 2
  {
    Actual(|ps|, ps[i].placement) - Expected(p, ps, i)
  }

  /** The change of one rating.  It is 120 times in the first three games, and 48 times later, what the place is worth over
      what was expected, rounded; at most 75, and 25 later, either way; and no rating falls below 100.  The count of games
      goes up by one, and three complete the calibration. */
  lemma ChangeExact(p: Odds, ps: seq<Participant>, i: nat)
    requires i < |ps| && |ps| >= 2
    ensures exists raw :: ChangeFrom(ps[i], Excess(p, ps, i), raw, ResultOf(p, ps, i))
  {
    hide Actual, Expected, Round;
    var excess := Excess(p, ps, i);
    assert 120 as real == 120.0 && 48 as real == 48.0;
    RoundsToEven((if ps[i].gamesPlayed < 3 then 120.0 else 48.0) * excess);
    assert ChangeFrom(ps[i], excess, RawDelta(p, ps, i), ResultOf(p, ps, i));
  }
}
