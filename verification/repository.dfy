/** `repository.py`, `GameService.apply_intent` and `GameScheduler._tick_one`: the store as a mutable
    object, and the two workers that read and commit while others do the same. */
module Repository {
  import opened GameTypes
  import opened PropertyRules
  import opened Soundness
  import opened Handlers
  import opened Engine
  import opened Timers
  import opened Timeline
  import opened Store

  /** What any number of other workers can do to the collection: games are never removed, versions only
      grow, and without a new version neither state nor generator changes. */
  ghost predicate Evolves(a: map<int, Document>, b: map<int, Document>) {
    forall id :: id in a ==>
      && id in b && b[id].sessionId == a[id].sessionId && b[id].version >= a[id].version
      && (b[id].version == a[id].version ==> b[id].state == a[id].state && b[id].rng == a[id].rng)
      && (a[id].rated ==> b[id].rated)
  }

  /** Every step of the interleaved system is such a change. */
  lemma StepEvolves(g: Config, gen: Generator, w: World, a: Action)
    requires Serialised(g, gen, w)
    ensures Evolves(w.docs, Step(g, gen, w, a).docs)
  {
    hide EngineStep, Serialised, TickCommand;
  }

  /** One game per session: the collection has unique indexes on the game id and on the session id. */
  predicate OneGamePerSession(docs: map<int, Document>) {
    forall a, b :: a in docs && b in docs && docs[a].sessionId == docs[b].sessionId ==> a == b
  }

  class GameRepository {
    var docs: map<int, Document>

    ghost predicate Valid()
      reads this
    {
      OneGamePerSession(docs)
    }

    constructor ()
      ensures Valid() && docs == map[]
    {
      docs := map[];
    }

    /** `insert`: refused when an index already has the game or the session. */
    method Insert(gameId: int, sessionId: int, state: State, rng: int) returns (ok: bool)
      requires Valid()
      modifies this
      ensures Valid()
      ensures ok <==> gameId !in old(docs) && forall id :: id in old(docs) ==> old(docs)[id].sessionId != sessionId
      ensures docs == if ok then old(docs)[gameId := Document(sessionId, state, rng, 0, false)] else old(docs)
      ensures Evolves(old(docs), docs)
    {
      ok := gameId !in docs && forall id | id in docs :: docs[id].sessionId != sessionId;
      if ok {
        docs := docs[gameId := Document(sessionId, state, rng, 0, false)];
      }
    }

    /** `find_by_session_id`: the one game of the session, if it has one. */
    method FindBySessionId(sessionId: int) returns (r: Option<Stored>)
      requires Valid()
      ensures r.None? <==> forall id :: id in docs ==> docs[id].sessionId != sessionId
      ensures r.Some? ==> var t := r.value;
                t.gameId in docs && docs[t.gameId].sessionId == sessionId
                && t == Stored(t.gameId, docs[t.gameId].state, docs[t.gameId].rng, docs[t.gameId].version)
    {
      if id :| id in docs && docs[id].sessionId == sessionId {
        r := Some(Stored(id, docs[id].state, docs[id].rng, docs[id].version));
      } else {
        r := None;
      }
    }

    /** `update_with_version`: the atomic compare-and-set on the version. */
    method UpdateWithVersion(gameId: int, state: State, expected: nat, rng: int) returns (r: Option<Stored>)
      requires Valid()
      modifies this
      ensures Valid()
      ensures docs == CompareAndSet(old(docs), gameId, expected, state, rng)
      ensures r.Some? <==> gameId in old(docs) && old(docs)[gameId].version == expected
      ensures r.Some? ==> r.value == Stored(gameId, state, rng, expected + 1) && docs[gameId].version == expected + 1
      ensures Evolves(old(docs), docs)
    {
      if gameId !in docs || docs[gameId].version != expected {
        return None;
      }
      docs := docs[gameId := docs[gameId].(state := state, rng := rng, version := docs[gameId].version + 1)];
      r := Some(Stored(gameId, docs[gameId].state, docs[gameId].rng, docs[gameId].version));
    }

    /** `claim_for_rating`: only the first claim of a game succeeds. */
    method ClaimForRating(sessionId: int) returns (won: bool)
      requires Valid()
      modifies this
      ensures Valid()
      ensures won <==> exists id :: id in old(docs) && old(docs)[id].sessionId == sessionId && !old(docs)[id].rated
      ensures docs.Keys == old(docs).Keys
      ensures forall id :: id in docs ==>
                docs[id] == if old(docs)[id].sessionId == sessionId then old(docs)[id].(rated := true) else old(docs)[id]
      ensures Evolves(old(docs), docs)
    {
      if id :| id in docs && docs[id].sessionId == sessionId && !docs[id].rated {
        docs := docs[id := docs[id].(rated := true)];
        won := true;
      } else {
        won := false;
      }
    }

    /** A point at which a worker awaits the store: other workers may run. */
    method Await(others: map<int, Document>)
      requires Valid() && Evolves(docs, others) && OneGamePerSession(others)
      modifies this
      ensures Valid() && docs == others
    {
      docs := others;
    }
  }

  // ---------------------------------------------------------------- the workers

  datatype IntentResult = GameNotFound | NotMember | Refused | VersionConflict | Applied(state: State, timeline: seq<Instruction>)

  /** `_resolve_player_id`: the first seat of the user. */
  function SeatOf(players: seq<Player>, userId: int): Option<Seat> {
    if players == [] then None
    else if players[0].userId == userId then Some(0)
    else
      match SeatOf(players[1..], userId)
      case None => None
      case Some(i) => Some(i + 1)
  }

  lemma {:induction false} SeatOfUser(players: seq<Player>, userId: int)
    ensures match SeatOf(players, userId)
            case None => forall i :: 0 <= i < |players| ==> players[i].userId != userId
            case Some(i) => i < |players| && players[i].userId == userId && forall j :: 0 <= j < i ==> players[j].userId != userId
  {
    if players != [] {
      SeatOfUser(players[1..], userId);
      assert forall i :: 1 <= i < |players| ==> players[i] == players[1..][i - 1];
    }
  }

  /** Seat `i` is the first one of the user. */
  predicate FirstSeat(players: seq<Player>, userId: int, i: Seat) {
    i < |players| && players[i].userId == userId && forall j :: 0 <= j < i ==> players[j].userId != userId
  }

  /** The command as the service passes it on: the seat of the authenticated player, and nothing else, replaces whatever
      seat the client claims (`_with_player_id`); `None` exactly if the user has no seat in the game. */
  function Resolved(cmd: Command, players: seq<Player>, userId: int): (r: Option<Command>)
    ensures IsSystem(cmd) ==> r == Some(cmd)
    ensures !IsSystem(cmd) ==>
              && (r.None? <==> forall j :: 0 <= j < |players| ==> players[j].userId != userId)
              && (forall i: Seat :: FirstSeat(players, userId, i) ==> r == Some(cmd.(player := i)))
  {
    SeatOfUser(players, userId);
    if IsSystem(cmd) then Some(cmd)
    else
      match SeatOf(players, userId)
      case None => None
      case Some(i) => Some(cmd.(player := i))
  }

  ghost predicate AllGood(g: Config, docs: map<int, Document>) {
    forall id :: id in docs ==> Good(g, docs[id].state)
  }

  /** From `before` to `after` one game took one engine step from the state it was in, and nothing else
      in the collection changed. */
  ghost predicate OneStep(g: Config, gen: Generator, before: map<int, Document>, after: map<int, Document>,
                          id: int, cmd: Command, now: int)
  {
    && id in before
    && var next := EngineStep(g, gen, before[id].state, before[id].rng, cmd, now);
       next.Some? && after == before[id := before[id].(state := next.value.0, rng := next.value.1, version := before[id].version + 1)]
  }

  /** Compute from what was read, then compare and set: the half of both workers behind their reads. */
  method Commit(games: GameRepository, g: Config, gen: Generator, stored: Stored, cmd: Command, now: int)
    returns (r: Outcome, updated: Option<Stored>)
    requires games.Valid() && ValidConfig(g) && Good(g, stored.state)
    requires stored.gameId in games.docs && games.docs[stored.gameId].version >= stored.version
    requires games.docs[stored.gameId].version == stored.version ==>
               games.docs[stored.gameId].state == stored.state && games.docs[stored.gameId].rng == stored.rng
    modifies games
    ensures games.Valid()
    ensures r == Apply(g, stored.state, cmd, gen(stored.rng, stored.state, cmd, now).0.(now := now))
    ensures updated.Some? <==> r.Ok? && old(games.docs)[stored.gameId].version == stored.version
    ensures updated.Some? ==> OneStep(g, gen, old(games.docs), games.docs, stored.gameId, cmd, now)
    ensures updated.Some? ==> updated.value.state == r.s == games.docs[stored.gameId].state
    ensures updated.None? ==> games.docs == old(games.docs)
  {
    hide ValidConfig, Good, Apply;
    var (env, rng') := gen(stored.rng, stored.state, cmd, now);
    r := Apply(g, stored.state, cmd, env.(now := now));
    if !r.Ok? {
      return r, None;
    }
    updated := games.UpdateWithVersion(stored.gameId, r.s, stored.version, rng');
  }

  /** The engine call of a worker that holds the document. */
  ghost function EngineCall(g: Config, gen: Generator, doc: Document, cmd: Command, now: int): Outcome
    requires ValidConfig(g) && Good(g, doc.state)
  {
    Apply(g, doc.state, cmd, gen(doc.rng, doc.state, cmd, now).0.(now := now))
  }

  /** How a command is answered that was computed from the document in `before` and committed to `others`. */
  ghost predicate Answered(g: Config, gen: Generator, before: map<int, Document>, others: map<int, Document>, after: map<int, Document>,
                           id: int, cmd: Command, now: int, r: IntentResult)
    requires ValidConfig(g) && AllGood(g, before) && id in before && id in others
  {
    var call := EngineCall(g, gen, before[id], cmd, now);
    && (r.Refused? <==> !call.Ok?)
    && (r.VersionConflict? <==> call.Ok? && others[id].version > before[id].version)
    && (r.Applied? <==> call.Ok? && others[id].version == before[id].version)
    && (r.Applied? ==> OneStep(g, gen, others, after, id, cmd, now) && after[id].state == r.state
                       && r.timeline == TimelineOf(g, cmd, r.state, call.events))
  }

  /** `apply_intent`.  Between its read and its commit the store may become `others`.  If the intent is
      applied, it took one engine step from the state the game had at the moment of the commit, with the very command the
      client sent but for the seat, and its animation is that of this step; the user who has no seat, the refusal of
      the engine and the conflict with somebody else's commit are told apart, each exactly. */
  method ApplyIntent(games: GameRepository, g: Config, gen: Generator, sessionId: int, userId: int, command: Command,
                     now: int, others: map<int, Document>) returns (r: IntentResult)
    requires games.Valid() && ValidConfig(g) && AllGood(g, games.docs)
    requires Evolves(games.docs, others) && OneGamePerSession(others)
    modifies games
    ensures games.Valid()
    ensures r.GameNotFound? <==> forall id :: id in old(games.docs) ==> old(games.docs)[id].sessionId != sessionId
    ensures forall id :: id in old(games.docs) && old(games.docs)[id].sessionId == sessionId ==>
              (r.NotMember? <==> !IsSystem(command) && forall j :: 0 <= j < |old(games.docs)[id].state.players| ==>
                                   old(games.docs)[id].state.players[j].userId != userId)
    ensures forall id, i: Seat ::
              id in old(games.docs) && old(games.docs)[id].sessionId == sessionId
              && (IsSystem(command) || FirstSeat(old(games.docs)[id].state.players, userId, i)) ==>
                Answered(g, gen, old(games.docs), others, games.docs, id, if IsSystem(command) then command else command.(player := i), now, r)
    ensures r.GameNotFound? || r.NotMember? ==> games.docs == old(games.docs)
    ensures r.Refused? || r.VersionConflict? ==> games.docs == others
  {
    hide ValidConfig, Good, Apply, TimelineOf;
    var stored := games.FindBySessionId(sessionId);
    if stored.None? {
      return GameNotFound;
    }
    var t := stored.value;
    var resolved := Resolved(command, t.state.players, userId);
    assert forall id :: id in games.docs && games.docs[id].sessionId == sessionId ==> id == t.gameId;
    if resolved.None? {
      return NotMember;
    }
    games.Await(others);
    var outcome, updated := Commit(games, g, gen, t, resolved.value, now);
    if !outcome.Ok? {
      return Refused;
    }
    if updated.None? {
      assert others[t.gameId].version > old(games.docs)[t.gameId].version;
      return VersionConflict;
    }
    var timeline := BuildTimeline(g, resolved.value, updated.value.state, outcome.events);
    r := Applied(updated.value.state, timeline);
  }

  /** A timer of the document read is due, the engine accepts it, and nobody has committed since the read. */
  ghost predicate Ticked(g: Config, gen: Generator, doc: Document, others: map<int, Document>, id: int, now: int)
    requires ValidConfig(g) && Good(g, doc.state) && id in others
  {
    && TickCommand(doc.state, now).Some?
    && EngineCall(g, gen, doc, TickCommand(doc.state, now).value, now).Ok?
    && others[id].version == doc.version
  }

  /** `_tick_one`.  The timer is chosen from what was read, and the same store discipline protects it: a
      game that moved on in between is left alone until the next tick. */
  method TickOne(games: GameRepository, g: Config, gen: Generator, sessionId: int, now: int,
                 others: map<int, Document>) returns (published: Option<State>)
    requires games.Valid() && ValidConfig(g) && AllGood(g, games.docs)
    requires Evolves(games.docs, others) && OneGamePerSession(others)
    modifies games
    ensures games.Valid()
    ensures published.Some? ==>
              exists id ::
                && id in others && others[id].sessionId == sessionId
                && TickCommand(others[id].state, now).Some?
                && OneStep(g, gen, others, games.docs, id, TickCommand(others[id].state, now).value, now)
                && games.docs[id].state == published.value
    ensures forall id :: id in old(games.docs) && old(games.docs)[id].sessionId == sessionId ==>
              (published.Some? <==> Ticked(g, gen, old(games.docs)[id], others, id, now))
    ensures published.Some? ==> exists id :: id in old(games.docs) && old(games.docs)[id].sessionId == sessionId
    ensures published.None? ==> games.docs == old(games.docs) || games.docs == others
    ensures (forall id :: id in old(games.docs) && old(games.docs)[id].sessionId == sessionId ==>
               TickCommand(old(games.docs)[id].state, now).None?) ==> games.docs == old(games.docs)
  {
    hide ValidConfig, Good, Apply;
    var stored := games.FindBySessionId(sessionId);
    if stored.None? {
      return None;
    }
    var t := stored.value;
    var command: Option<Command> := None;
    if t.state.auction.Some? && AuctionExpired(t.state, now) {
      command := Some(AdvanceAuction);
    } else if t.state.trade.Some? && t.state.trade.value.expiresAt <= now {
      command := Some(ExpireTrade);
    } else if TurnExpired(t.state, now) {
      command := Some(TurnTimeout);
    }
    assert command == TickCommand(t.state, now);
    if command.None? {
      return None;
    }
    games.Await(others);
    var outcome, updated := Commit(games, g, gen, t, command.value, now);
    if updated.Some? {
      published := Some(updated.value.state);
    } else {
      published := None;
    }
  }
}
