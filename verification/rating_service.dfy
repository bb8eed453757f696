/** `rating_service.py`: the ratings of a finished game are applied once, to the right players. */
module RatingService {
  import opened GameTypes
  import opened Store
  import opened Repository
  import opened Finishing
  import opened Rating

  /** What the user store keeps for ratings. */
  datatype User = User(rating: int, gamesPlayed: int, calibrated: bool)

  class UserRepository {
    var users: map<int, User>

    constructor (initial: map<int, User>)
      ensures users == initial
    {
      users := initial;
    }

    /** `update_rating`; an unknown user is no user to update. */
    method UpdateRating(userId: int, rating: int, gamesPlayed: int, calibrated: bool)
      modifies this
      ensures users == if userId in old(users) then old(users)[userId := User(rating, gamesPlayed, calibrated)] else old(users)
    {
      if userId in users {
        users := users[userId := User(rating, gamesPlayed, calibrated)];
      }
    }

    /** Other writers: any number of updates, by any worker. */
    method Others(log: seq<Write>)
      modifies this
      ensures users == Written(old(users), log)
    {
      for k := 0 to |log|
        invariant users == Written(old(users), log[..k])
      {
        WrittenNext(old(users), log, k);
        UpdateRating(log[k].userId, log[k].user.rating, log[k].user.gamesPlayed, log[k].user.calibrated);
      }
      assert log[..|log|] == log;
    }
  }

  // ---------------------------------------------------------------- the order of writes

  /** One `update_rating`. */
  datatype Write = Write(userId: int, user: User)

  /** The accounts after a list of writes; an unknown user is no user to update. */
  function Written(users: map<int, User>, log: seq<Write>): (r: map<int, User>)
    ensures r.Keys == users.Keys
  {
    if log == [] then users
    else
      var before := Written(users, log[..|log| - 1]);
      var last := log[|log| - 1];
      if last.userId in before then before[last.userId := last.user] else before
  }

  lemma WrittenNext(users: map<int, User>, log: seq<Write>, k: nat)
    requires k < |log|
    ensures Written(users, log[..k + 1])
            == if log[k].userId in users then Written(users, log[..k])[log[k].userId := log[k].user] else Written(users, log[..k])
  {
    assert log[..k + 1][..k] == log[..k];
  }

  lemma {:induction false} WrittenConcat(users: map<int, User>, a: seq<Write>, b: seq<Write>)
    ensures Written(users, a + b) == Written(Written(users, a), b)
  {
    if b == [] {
      assert a + b == a;
    } else {
      assert (a + b)[..|a + b| - 1] == a + b[..|b| - 1];
      WrittenConcat(users, a, b[..|b| - 1]);
    }
  }

  /** The worker's own writes, each after whatever others write before it. */
  function Interleaved(own: seq<Write>, others: nat -> seq<Write>): seq<Write> {
    if own == [] then []
    else
      var n := |own| - 1;
      Interleaved(own[..n], others) + others(n) + [own[n]]
  }

  lemma {:induction false} LastWriteAt(users: map<int, User>, log: seq<Write>, k: nat)
    requires k < |log| && log[k].userId in users
    requires forall j :: k < j < |log| ==> log[j].userId != log[k].userId
    ensures Written(users, log)[log[k].userId] == log[k].user
  {
    if k < |log| - 1 {
      LastWriteAt(users, log[..|log| - 1], k);
    }
  }

  /** The ranked players with an account. */
  function Participants(users: map<int, User>, placements: seq<(int, int)>): seq<Participant> {
    if placements == [] then []
    else
      var (userId, place) := placements[|placements| - 1];
      Participants(users, placements[..|placements| - 1])
      + (if userId in users then [Participant(userId, users[userId].rating, users[userId].gamesPlayed, place)] else [])
  }

  predicate DistinctMembers(players: seq<Player>) {
    forall i, j :: 0 <= i < j < |players| ==> players[i].userId != players[j].userId
  }

  predicate DistinctPlacings(placements: seq<(int, int)>) {
    forall i, j :: 0 <= i < j < |placements| ==> placements[i].0 != placements[j].0
  }

  lemma {:induction false} ParticipantsDistinct(users: map<int, User>, placements: seq<(int, int)>)
    requires DistinctPlacings(placements)
    ensures DistinctUsers(Participants(users, placements))
    ensures forall q :: q in Participants(users, placements) ==>
              q.userId in users && exists k :: 0 <= k < |placements| && placements[k] == (q.userId, q.placement)
  {
    if placements != [] {
      var n := |placements| - 1;
      ParticipantsDistinct(users, placements[..n]);
      var rest := Participants(users, placements[..n]);
      forall q | q in rest ensures q.userId != placements[n].0 && exists k :: 0 <= k < n && placements[k] == (q.userId, q.placement) {
        var k :| 0 <= k < n && placements[..n][k] == (q.userId, q.placement);
        assert placements[k] == (q.userId, q.placement);
      }
    }
  }

  lemma PlacingsDistinct(players: seq<Player>)
    requires DistinctMembers(players)
    ensures DistinctPlacings(Placements(players)) && |Placements(players)| == |players|
  {
    hide Ordered;
    PlacementBijection(players);
  }

  function Updated(r: RatingResult): User {
    User(r.newRating, r.gamesPlayed, r.calibrated)
  }

  /** The writes that give each participant the computed rating, in the order of the places. */
  function OwnWrites(p: Odds, ps: seq<Participant>): (r: seq<Write>)
    ensures |r| == if |ps| < 2 then 0 else |ps|
    ensures forall k :: 0 <= k < |r| ==> r[k].userId == ps[k].userId
  {
    if |ps| < 2 then [] else seq(|ps|, k requires 0 <= k < |ps| => Write(ps[k].userId, Updated(ResultOf(p, ps, k))))
  }

  /** The writes of `apply_for_finished_game`, computed from the accounts as read. */
  function Ratings(p: Odds, read: map<int, User>, players: seq<Player>): seq<Write> {
    OwnWrites(p, Participants(read, Placements(players)))
  }

  /** The first writes, up to a crash if there is one. */
  function Reached(own: seq<Write>, crash: Option<nat>): (r: seq<Write>)
    ensures |r| <= |own| && r == own[..|r|]
  {
    if crash.Some? && crash.value < |own| then own[..crash.value] else own
  }

  /** Some claim on the ratings of the session's game is still open. */
  ghost predicate Claimable(docs: map<int, Document>, sessionId: int) {
    exists id :: id in docs && docs[id].sessionId == sessionId && !docs[id].rated
  }

  /** The loop that stores the results, with other writers before every single write, and perhaps a crash. */
  method UpdateAll(store: UserRepository, ghost p: Odds, ps: seq<Participant>, results: map<int, RatingResult>,
                   others: nat -> seq<Write>, crash: Option<nat>)
    requires DistinctUsers(ps) && |ps| >= 2 && Recorded(p, ps, results, |ps|)
    modifies store
    ensures store.users == Written(old(store.users), Interleaved(Reached(OwnWrites(p, ps), crash), others))
  {
    ghost var own := OwnWrites(p, ps);
    ghost var start := store.users;
    var k := 0;
    while k < |ps| && (crash.None? || k < crash.value)
      invariant 0 <= k <= |ps| && (crash.Some? ==> k <= crash.value)
      invariant store.users == Written(start, Interleaved(own[..k], others))
    {
      hide ResultOf, Written, Recorded;
      store.Others(others(k));
      ResultAt(p, ps, results, k);
      var result := results[ps[k].userId];
      store.UpdateRating(ps[k].userId, result.newRating, result.gamesPlayed, result.calibrated);
      OneWrite(start, own, others, k);
      k := k + 1;
    }
    assert own[..k] == Reached(own, crash);
  }

  lemma ResultAt(p: Odds, ps: seq<Participant>, results: map<int, RatingResult>, k: nat)
    requires DistinctUsers(ps) && |ps| >= 2 && Recorded(p, ps, results, |ps|) && k < |ps|
    ensures ps[k].userId in results && results[ps[k].userId] == ResultOf(p, ps, k)
  {
    hide ResultOf;
    assert LastOfUser(ps, k, |ps|);
  }

  lemma OneWrite(start: map<int, User>, own: seq<Write>, others: nat -> seq<Write>, k: nat)
    requires k < |own|
    ensures var found := Written(Written(start, Interleaved(own[..k], others)), others(k));
            Written(start, Interleaved(own[..k + 1], others))
            == if own[k].userId in found then found[own[k].userId := own[k].user] else found
  {
    var before := Interleaved(own[..k], others);
    assert own[..k + 1][..k] == own[..k];
    WrittenConcat(start, before, others(k));
    var log := before + others(k) + [own[k]];
    assert log[..|log| - 1] == before + others(k);
  }

  /** `apply_for_finished_game`.  Ratings change only for a finished game whose ratings nobody has claimed yet;
      afterwards the game cannot be claimed again.  Others may write `early` between the claim and the read of
      the accounts, and `others(k)` before the worker's write number `k`; and the worker may crash after so many
      writes.  The accounts then are what all these writes give in the order in which they happen, the worker's
      own being the first of those that give every participant the computed rating. */
  method ApplyForFinishedGame(games: GameRepository, store: UserRepository, p: Odds, sessionId: int, state: State,
                              early: seq<Write>, others: nat -> seq<Write>, crash: Option<nat>)
    requires games.Valid() && DistinctMembers(state.players)
    modifies games, store
    ensures games.Valid()
    ensures var read := Written(old(store.users), early);
            store.users == if state.finished && Claimable(old(games.docs), sessionId) && |state.players| >= 2
                           then Written(read, Interleaved(Reached(Ratings(p, read, state.players), crash), others))
                           else old(store.users)
    ensures state.finished ==> !Claimable(games.docs, sessionId)
  {
    if !state.finished {
      return;
    }
    var claimed := games.ClaimForRating(sessionId);
    if !claimed {
      return;
    }
    PlacingsDistinct(state.players);
    var placements := Placements(state.players);
    if |placements| < 2 {
      return;
    }
    store.Others(early);
    ParticipantsDistinct(store.users, placements);
    var participants := Participants(store.users, placements);
    var results := ComputeRatingChanges(p, participants);
    if |participants| >= 2 {
      UpdateAll(store, p, participants, results, others, crash);
    }
  }

  /** Applying the ratings of a game a second time, from either place that does it and even after a crash in the
      first, changes nobody's rating. */
  method ApplyTwice(games: GameRepository, store: UserRepository, p: Odds, sessionId: int, state: State, again: State,
                    early: seq<Write>, others: nat -> seq<Write>, crash: Option<nat>,
                    early': seq<Write>, others': nat -> seq<Write>, crash': Option<nat>)
    requires games.Valid() && DistinctMembers(state.players) && DistinctMembers(again.players) && state.finished
    modifies games, store
    ensures var read := Written(old(store.users), early);
            store.users == if Claimable(old(games.docs), sessionId) && |state.players| >= 2
                           then Written(read, Interleaved(Reached(Ratings(p, read, state.players), crash), others))
                           else old(store.users)
  {
    ApplyForFinishedGame(games, store, p, sessionId, state, early, others, crash);
    ApplyForFinishedGame(games, store, p, sessionId, again, early', others', crash');
  }

  // ---------------------------------------------------------------- what the players end up with

  /** Where the worker's write number `k` stands in the interleaving, and that only others' writes and the worker's later
      ones come after it. */
  lemma {:induction false} OwnWriteAt(own: seq<Write>, others: nat -> seq<Write>, k: nat) returns (at: nat)
    requires k < |own|
    requires forall j :: k < j < |own| ==> own[j].userId != own[k].userId && Avoids(others(j), own[k].userId)
    ensures var log := Interleaved(own, others);
            at < |log| && log[at] == own[k] && forall i :: at < i < |log| ==> log[i].userId != own[k].userId
  {
    var n := |own| - 1;
    var log := Interleaved(own, others);
    if k == n {
      at := |log| - 1;
    } else {
      at := OwnWriteAt(own[..n], others, k);
      assert Avoids(others(n), own[k].userId);
    }
  }

  predicate Avoids(log: seq<Write>, userId: int) {
    forall k :: 0 <= k < |log| ==> log[k].userId != userId
  }

  /** The computed rating of a player stands unless somebody else writes that account later: whatever others wrote before
      is overwritten, and without a crash every participant whose account nobody else touches after gets it. */
  lemma RatingStands(p: Odds, read: map<int, User>, players: seq<Player>, others: nat -> seq<Write>, k: nat)
    requires DistinctMembers(players)
    requires var own := Ratings(p, read, players);
             k < |own| && forall j :: k < j < |own| ==> Avoids(others(j), own[k].userId)
    ensures var ps := Participants(read, Placements(players));
            && k < |ps| && |ps| >= 2 && ps[k].userId in read
            && Written(read, Interleaved(Ratings(p, read, players), others))[ps[k].userId] == Updated(ResultOf(p, ps, k))
  {
    hide Interleaved, Written, ResultOf, Placements;
    PlacingsDistinct(players);
    ParticipantsDistinct(read, Placements(players));
    var own := Ratings(p, read, players);
    var at := OwnWriteAt(own, others, k);
    LastWriteAt(read, Interleaved(own, others), at);
  }

  lemma {:induction false} AllParticipate(users: map<int, User>, placements: seq<(int, int)>)
    requires forall k :: 0 <= k < |placements| ==> placements[k].0 in users
    ensures var ps := Participants(users, placements);
            |ps| == |placements|
            && forall k :: 0 <= k < |ps| ==>
                 ps[k].userId == placements[k].0 && ps[k].placement == placements[k].1
                 && ps[k].rating == users[ps[k].userId].rating && ps[k].gamesPlayed == users[ps[k].userId].gamesPlayed
  {
    if placements != [] {
      AllParticipate(users, placements[..|placements| - 1]);
    }
  }

  /** A game among players with accounts gives a ranked field with the standing of the accounts, so the laws of `Rating` apply to it: its
      scores balance, and among players of equal standing the ratings are conserved up to rounding. */
  lemma GamesAreRanked(users: map<int, User>, players: seq<Player>)
    requires DistinctMembers(players) && forall i :: 0 <= i < |players| ==> players[i].userId in users
    ensures var ps := Participants(users, Placements(players));
            && |ps| == |players| == |Placements(players)| && DistinctUsers(ps) && Ranked(ps)
            && forall k :: 0 <= k < |ps| ==>
                 (ps[k].userId, ps[k].placement) == Placements(players)[k] && ps[k].userId in users
                 && ps[k].rating == users[ps[k].userId].rating && ps[k].gamesPlayed == users[ps[k].userId].gamesPlayed
  {
    hide Ordered;
    PlacingsDistinct(players);
    ParticipantsDistinct(users, Placements(players));
    AllParticipate(users, Placements(players));
    var ps := Participants(users, Placements(players));
    assert PlacementsOf(ps) == UpTo(|ps|);
  }
}
