/** The commit protocol: intent workers and the timer scheduler over the versioned game store. */
module Store {
  import opened GameTypes
  import opened Soundness
  import opened Engine
  import opened Invariants
  import opened Steps
  import opened Timers
  import opened OrderlyLaws

  /** A stored game.  `rng` stands for the serialised state of the random generator. */
  datatype Document = Document(sessionId: int, state: State, rng: int, version: nat, rated: bool)

  /** What a read or a commit hands back. */
  datatype Stored = Stored(gameId: int, state: State, rng: int, version: nat)

  /** What the random generator supplies to one call of the engine, and its state afterwards. */
  type Generator = (int, State, Command, int) -> (Env, int)

  /** One engine call of a worker, which starts from what the worker has read. */
  ghost function EngineStep(g: Config, gen: Generator, s: State, rng: int, cmd: Command, now: int): Option<(State, int)> {
    if ValidConfig(g) && Good(g, s) then
      var (env, rng') := gen(rng, s, cmd, now);
      var r := Apply(g, s, cmd, env.(now := now));
      if r.Ok? then Some((r.s, rng')) else None
    else None
  }

  /** `find_one_and_update` on game id and version. */
  function CompareAndSet(docs: map<int, Document>, gameId: int, expected: nat, state: State, rng: int): map<int, Document> {
    if gameId in docs && docs[gameId].version == expected
    then docs[gameId := docs[gameId].(state := state, rng := rng, version := expected + 1)]
    else docs
  }

  // ---------------------------------------------------------------- the interleaved system

  datatype Commit = Commit(cmd: Command, now: int)

  /** A worker that has claimed the ratings of a game, and the accounts it has still to write. */
  datatype Rater = Rater(worker: int, left: seq<int>)

  /** The store, what each worker has read, who holds the claim on the ratings of a game, and the history: the
      initial document of each game, the commands committed to it, and the accounts its ratings were claimed
      for and those they were written to. */
  datatype World = World(docs: map<int, Document>, tasks: map<int, Stored>, raters: map<int, Rater>,
                         initial: map<int, (State, int)>, log: map<int, seq<Commit>>,
                         claims: map<int, seq<int>>, ratings: map<int, seq<int>>)

  /** The atomic steps.  A worker's read and its commit are two steps, and so are its claim on the ratings of a
      game and each write to an account; anything may come between. */
  datatype Action =
    | Insert(gameId: int, sessionId: int, state: State, rng: int)
    | Read(worker: int, gameId: int)
    | Intent(worker: int, cmd: Command, now: int)
    | TimerTick(worker: int, now: int)
    | Crash(worker: int)
    | Claim(worker: int, gameId: int, accounts: seq<int>)
    | Rate(worker: int, gameId: int)

  /** The commit half of a worker: apply the command to what was read, then compare and set. */
  ghost function TryCommit(g: Config, gen: Generator, w: World, worker: int, cmd: Command, now: int): World
    requires worker in w.tasks
  {
    var t := w.tasks[worker];
    var w1 := w.(tasks := w.tasks - {worker});
    match EngineStep(g, gen, t.state, t.rng, cmd, now)
    case None => w1
    case Some((s', rng')) =>
      if t.gameId in w.docs && w.docs[t.gameId].version == t.version && t.gameId in w.log then
        w1.(docs := CompareAndSet(w.docs, t.gameId, t.version, s', rng'),
            log := w.log[t.gameId := w.log[t.gameId] + [Commit(cmd, now)]])
      else w1
  }

  ghost function Step(g: Config, gen: Generator, w: World, a: Action): World {
    match a
    case Insert(id, session, state, rng) =>
      if id in w.docs || (exists other :: other in w.docs && w.docs[other].sessionId == session) then w
      else World(w.docs[id := Document(session, state, rng, 0, false)], w.tasks, w.raters,
                 w.initial[id := (state, rng)], w.log[id := []], w.claims[id := []], w.ratings[id := []])
    case Read(worker, id) =>
      if id in w.docs then w.(tasks := w.tasks[worker := Stored(id, w.docs[id].state, w.docs[id].rng, w.docs[id].version)])
      else w
    case Intent(worker, cmd, now) => if worker in w.tasks then TryCommit(g, gen, w, worker, cmd, now) else w
    case TimerTick(worker, now) =>
      if worker in w.tasks && TickCommand(w.tasks[worker].state, now).Some?
      then TryCommit(g, gen, w, worker, TickCommand(w.tasks[worker].state, now).value, now)
      else w
    case Crash(worker) =>
      w.(tasks := w.tasks - {worker}, raters := map id | id in w.raters && w.raters[id].worker != worker :: w.raters[id])
    case Claim(worker, id, accounts) =>
      if id in w.docs && !w.docs[id].rated
      then w.(docs := w.docs[id := w.docs[id].(rated := true)], raters := w.raters[id := Rater(worker, accounts)],
              claims := w.claims[id := accounts])
      else w
    case Rate(worker, id) =>
      if id in w.raters && w.raters[id].worker == worker && w.raters[id].left != [] && id in w.ratings
      then w.(raters := w.raters[id := Rater(worker, w.raters[id].left[1..])],
              ratings := w.ratings[id := w.ratings[id] + [w.raters[id].left[0]]])
      else w
  }

  ghost function Execute(g: Config, gen: Generator, w: World, actions: seq<Action>): World
    decreases |actions|
  {
    if actions == [] then w
    else Step(g, gen, Execute(g, gen, w, actions[..|actions| - 1]), actions[|actions| - 1])
  }

  const EMPTY := World(map[], map[], map[], map[], map[], map[], map[])

  // ---------------------------------------------------------------- serialisability

  /** Running committed commands one after the other; `None` if the engine would refuse one. */
  ghost function Sequential(g: Config, gen: Generator, start: (State, int), log: seq<Commit>): Option<(State, int)> {
    if log == [] then Some(start)
    else
      var last := log[|log| - 1];
      match Sequential(g, gen, start, log[..|log| - 1])
      case None => None
      case Some((s, rng)) => EngineStep(g, gen, s, rng, last.cmd, last.now)
  }

  ghost predicate DocOk(g: Config, gen: Generator, w: World, id: int)
    requires id in w.docs
  {
    var doc := w.docs[id];
    && id in w.initial && id in w.log && id in w.claims && id in w.ratings
    && doc.version == |w.log[id]|
    && Sequential(g, gen, w.initial[id], w.log[id]) == Some((doc.state, doc.rng))
    && w.ratings[id] <= w.claims[id] && (!doc.rated ==> w.claims[id] == [] && id !in w.raters)
    && (id in w.raters ==> w.ratings[id] + w.raters[id].left == w.claims[id])
  }

  /** What a worker holds is a state the game once had: the one its version says. */
  ghost predicate TaskOk(g: Config, gen: Generator, w: World, t: Stored) {
    && t.gameId in w.docs && t.gameId in w.initial && t.gameId in w.log
    && t.version <= |w.log[t.gameId]|
    && Sequential(g, gen, w.initial[t.gameId], w.log[t.gameId][..t.version]) == Some((t.state, t.rng))
  }

  ghost predicate Serialised(g: Config, gen: Generator, w: World) {
    && (forall id :: id in w.docs ==> DocOk(g, gen, w, id))
    && (forall k :: k in w.tasks ==> TaskOk(g, gen, w, w.tasks[k]))
    && w.raters.Keys <= w.docs.Keys
    && (forall a, b :: a in w.docs && b in w.docs && w.docs[a].sessionId == w.docs[b].sessionId ==> a == b)
  }

  lemma CommitSerialised(g: Config, gen: Generator, w: World, worker: int, cmd: Command, now: int)
    requires Serialised(g, gen, w) && worker in w.tasks
    ensures Serialised(g, gen, TryCommit(g, gen, w, worker, cmd, now))
  {
    hide EngineStep, Sequential, DocOk, TaskOk, TryCommit;
    var t := w.tasks[worker];
    var w' := TryCommit(g, gen, w, worker, cmd, now);
    assert TaskOk(g, gen, w, t);
    TaskHasGame(g, gen, w, t);
    CommitShape(g, gen, w, worker, cmd, now);
    forall id | id in w'.docs ensures DocOk(g, gen, w', id) {
      CommitDocOk(g, gen, w, worker, cmd, now, id);
    }
    forall k | k in w'.tasks ensures TaskOk(g, gen, w', w'.tasks[k]) {
      CommitTaskOk(g, gen, w, worker, cmd, now, w.tasks[k]);
    }
  }

  lemma TaskHasGame(g: Config, gen: Generator, w: World, t: Stored)
    requires TaskOk(g, gen, w, t)
    ensures t.gameId in w.docs
  {}

  lemma CommitShape(g: Config, gen: Generator, w: World, worker: int, cmd: Command, now: int)
    requires worker in w.tasks
    ensures var w' := TryCommit(g, gen, w, worker, cmd, now);
            && SameGames(w.docs, w'.docs)
            && (forall k :: k in w'.tasks ==> k in w.tasks && w'.tasks[k] == w.tasks[k])
            && w'.raters == w.raters
  {
    hide EngineStep, CompareAndSet, SameGames;
    var t := w.tasks[worker];
    var e := EngineStep(g, gen, t.state, t.rng, cmd, now);
    SetKeepsGames(w.docs, t.gameId, t.version, if e.Some? then e.value.0 else t.state, if e.Some? then e.value.1 else t.rng);
  }

  predicate SameGames(a: map<int, Document>, b: map<int, Document>) {
    b.Keys == a.Keys && forall id :: id in a ==> b[id].sessionId == a[id].sessionId
  }

  lemma SetKeepsGames(docs: map<int, Document>, id: int, expected: nat, state: State, rng: int)
    ensures SameGames(docs, CompareAndSet(docs, id, expected, state, rng)) && SameGames(docs, docs)
  {}

  lemma CommitDocOk(g: Config, gen: Generator, w: World, worker: int, cmd: Command, now: int, id: int)
    requires worker in w.tasks && TaskOk(g, gen, w, w.tasks[worker])
    requires id in w.docs && DocOk(g, gen, w, id)
    ensures var w' := TryCommit(g, gen, w, worker, cmd, now); id in w'.docs && DocOk(g, gen, w', id)
  {
    hide EngineStep;
    var log := w.log[id];
    var log' := log + [Commit(cmd, now)];
    assert log'[..|log'| - 1] == log && log[..|log|] == log;
  }

  lemma CommitTaskOk(g: Config, gen: Generator, w: World, worker: int, cmd: Command, now: int, u: Stored)
    requires worker in w.tasks && TaskOk(g, gen, w, u)
    ensures TaskOk(g, gen, TryCommit(g, gen, w, worker, cmd, now), u)
  {
    hide EngineStep, Sequential;
    var log := w.log[u.gameId];
    assert (log + [Commit(cmd, now)])[..u.version] == log[..u.version];
  }

  lemma InsertSerialised(g: Config, gen: Generator, w: World, id: int, session: int, state: State, rng: int)
    requires Serialised(g, gen, w)
    ensures Serialised(g, gen, Step(g, gen, w, Insert(id, session, state, rng)))
  {
    hide EngineStep;
    var w' := Step(g, gen, w, Insert(id, session, state, rng));
    if w' != w {
      forall other | other in w'.docs ensures DocOk(g, gen, w', other) {
        assert other != id ==> DocOk(g, gen, w, other);
      }
      forall k | k in w'.tasks ensures TaskOk(g, gen, w', w'.tasks[k]) {
        assert TaskOk(g, gen, w, w.tasks[k]);
      }
    }
  }

  lemma ReadSerialised(g: Config, gen: Generator, w: World, worker: int, id: int)
    requires Serialised(g, gen, w) && id in w.docs
    ensures Serialised(g, gen, Step(g, gen, w, Read(worker, id)))
  {
    hide EngineStep, Sequential;
    var w' := Step(g, gen, w, Read(worker, id));
    assert DocOk(g, gen, w, id);
    assert w.log[id][..|w.log[id]|] == w.log[id];
    forall k | k in w'.tasks ensures TaskOk(g, gen, w', w'.tasks[k]) {
      assert k != worker ==> TaskOk(g, gen, w, w.tasks[k]);
    }
    forall other | other in w'.docs ensures DocOk(g, gen, w', other) {
      assert DocOk(g, gen, w, other);
    }
  }

  lemma RatingSerialised(g: Config, gen: Generator, w: World, a: Action)
    requires Serialised(g, gen, w) && (a.Claim? || a.Rate? || a.Crash?)
    ensures Serialised(g, gen, Step(g, gen, w, a))
  {
    hide EngineStep, Sequential;
    var w' := Step(g, gen, w, a);
    forall other | other in w'.docs ensures DocOk(g, gen, w', other) {
      assert DocOk(g, gen, w, other);
    }
    forall k | k in w'.tasks ensures TaskOk(g, gen, w', w'.tasks[k]) {
      assert TaskOk(g, gen, w, w.tasks[k]);
    }
  }

  lemma StepSerialised(g: Config, gen: Generator, w: World, a: Action)
    requires Serialised(g, gen, w)
    ensures Serialised(g, gen, Step(g, gen, w, a))
  {
    hide EngineStep, Sequential, TryCommit;
    match a
    case Insert(id, session, state, rng) => InsertSerialised(g, gen, w, id, session, state, rng);
    case Read(worker, id) => if id in w.docs { ReadSerialised(g, gen, w, worker, id); }
    case Intent(worker, cmd, now) => if worker in w.tasks { CommitSerialised(g, gen, w, worker, cmd, now); }
    case TimerTick(worker, now) =>
      if worker in w.tasks && TickCommand(w.tasks[worker].state, now).Some? {
        CommitSerialised(g, gen, w, worker, TickCommand(w.tasks[worker].state, now).value, now);
      }
    case _ => RatingSerialised(g, gen, w, a);
  }

  /** Under every interleaving of reads and commits by any number of intent workers and schedulers, the
      stored state and generator of every game are what running its committed commands one after the
      other from its insertion gives, its version is the number of commits, and its ratings were claimed
      at most once and written to the first of the claimed accounts, each once, and to none unless it is
      marked as rated. */
  lemma {:induction false} Serialisable(g: Config, gen: Generator, actions: seq<Action>)
    ensures Serialised(g, gen, Execute(g, gen, EMPTY, actions))
    decreases |actions|
  {
    hide Step, Serialised;
    if actions == [] {
      EmptySerialised(g, gen);
    } else {
      Serialisable(g, gen, actions[..|actions| - 1]);
      StepSerialised(g, gen, Execute(g, gen, EMPTY, actions[..|actions| - 1]), actions[|actions| - 1]);
    }
  }

  lemma EmptySerialised(g: Config, gen: Generator)
    ensures Serialised(g, gen, EMPTY)
  {}

  // ---------------------------------------------------------------- ratings that are claimed and never applied

  /** How many writes the worker makes for the game before it first crashes. */
  function Writes(worker: int, id: int, actions: seq<Action>): nat {
    if actions == [] then 0
    else
      var n := |actions| - 1;
      Writes(worker, id, actions[..n]) + if actions[n] == Rate(worker, id) && Crash(worker) !in actions[..n] then 1 else 0
  }

  /** The first `k` accounts, or all of them. */
  function FirstOf(accounts: seq<int>, k: nat): seq<int> {
    if k < |accounts| then accounts[..k] else accounts
  }

  /** The claimed accounts, of which `k` writes have been made, are written as far as that; the claim is held until the
      worker crashes. */
  ghost predicate ClaimWritten(w: World, worker: int, id: int, accounts: seq<int>, k: nat, crashed: bool) {
    && id in w.docs && w.docs[id].rated && id in w.ratings
    && w.ratings[id] == FirstOf(accounts, k)
    && (if crashed then id !in w.raters
        else id in w.raters && w.raters[id].worker == worker && w.ratings[id] + w.raters[id].left == accounts)
  }

  lemma StepWritten(g: Config, gen: Generator, w: World, worker: int, id: int, accounts: seq<int>, k: nat, crashed: bool, a: Action)
    requires ClaimWritten(w, worker, id, accounts, k, crashed)
    ensures ClaimWritten(Step(g, gen, w, a), worker, id, accounts, if a == Rate(worker, id) && !crashed then k + 1 else k,
                    crashed || a == Crash(worker))
  {
    hide EngineStep, TickCommand;
    if a == Rate(worker, id) && !crashed {
      var left := w.raters[id].left;
      if left == [] {
        assert |accounts| == |w.ratings[id]|;
      } else {
        assert left[0] == accounts[|w.ratings[id]|];
        assert w.ratings[id] + [left[0]] == FirstOf(accounts, k + 1);
        assert w.ratings[id] + left == (w.ratings[id] + [left[0]]) + left[1..];
      }
    }
  }

  lemma {:induction false} RunWritten(g: Config, gen: Generator, w: World, worker: int, id: int, accounts: seq<int>, actions: seq<Action>)
    requires ClaimWritten(w, worker, id, accounts, 0, false)
    ensures ClaimWritten(Execute(g, gen, w, actions), worker, id, accounts, Writes(worker, id, actions), Crash(worker) in actions)
    decreases |actions|
  {
    hide Step, ClaimWritten;
    if actions != [] {
      var n := |actions| - 1;
      RunWritten(g, gen, w, worker, id, accounts, actions[..n]);
      StepWritten(g, gen, Execute(g, gen, w, actions[..n]), worker, id, accounts, Writes(worker, id, actions[..n]),
                  Crash(worker) in actions[..n], actions[n]);
      assert actions == actions[..n] + [actions[n]];
    }
  }

  /** What becomes of claimed ratings, whatever else happens between the claim, the writes and a crash of the worker: the
      accounts written are the first of those claimed, as many as the writes the worker makes before it crashes.  So
      all of them are written if and only if there is a write for each before the crash, and none if it crashes at once. */
  lemma RatingsSettled(g: Config, gen: Generator, w: World, worker: int, id: int, accounts: seq<int>, later: seq<Action>)
    requires Serialised(g, gen, w) && id in w.docs && !w.docs[id].rated
    ensures var w' := Execute(g, gen, Step(g, gen, w, Claim(worker, id, accounts)), later);
            && id in w'.ratings && w'.ratings[id] == FirstOf(accounts, Writes(worker, id, later))
            && (w'.ratings[id] == accounts <==> Writes(worker, id, later) >= |accounts|)
            && (w'.ratings[id] == [] <==> accounts == [] || Writes(worker, id, later) == 0)
  {
    hide EngineStep, TickCommand, Execute, Sequential, Writes;
    assert DocOk(g, gen, w, id);
    var claimed := Step(g, gen, w, Claim(worker, id, accounts));
    assert ClaimWritten(claimed, worker, id, accounts, 0, false);
    RunWritten(g, gen, claimed, worker, id, accounts, later);
  }

  // ---------------------------------------------------------------- no stale commit, no needless conflict

  /** A commit goes through exactly when the engine accepts the command and nobody else committed to the
      game since the worker's read; and then it was computed from the very state it replaces. */
  lemma CommitsAreFresh(g: Config, gen: Generator, w: World, worker: int, cmd: Command, now: int)
    requires Serialised(g, gen, w) && worker in w.tasks
    ensures var t := w.tasks[worker];
            var w' := TryCommit(g, gen, w, worker, cmd, now);
            && t.gameId in w.docs && t.gameId in w.log
            && (w'.docs != w.docs <==>
                  EngineStep(g, gen, t.state, t.rng, cmd, now).Some? && |w.log[t.gameId]| == t.version)
            && (w'.docs != w.docs ==>
                  var doc := w.docs[t.gameId];
                  && t.state == doc.state && t.rng == doc.rng
                  && EngineStep(g, gen, doc.state, doc.rng, cmd, now).Some?
                  && w'.docs == w.docs[t.gameId := doc.(state := EngineStep(g, gen, doc.state, doc.rng, cmd, now).value.0,
                                                        rng := EngineStep(g, gen, doc.state, doc.rng, cmd, now).value.1,
                                                        version := doc.version + 1)])
  {
    hide EngineStep, Sequential;
    var t := w.tasks[worker];
    assert TaskOk(g, gen, w, t) && DocOk(g, gen, w, t.gameId);
    assert w.log[t.gameId][..|w.log[t.gameId]|] == w.log[t.gameId];
    var w' := TryCommit(g, gen, w, worker, cmd, now);
    if EngineStep(g, gen, t.state, t.rng, cmd, now).Some? && |w.log[t.gameId]| == t.version {
      assert w'.docs[t.gameId].version != w.docs[t.gameId].version;
    }
  }

  // ---------------------------------------------------------------- the rules of the game hold in the store

  /** Every stored game, and every state a worker holds, satisfies the invariants of the rules. */
  ghost predicate Lawful(g: Config, w: World) {
    && (forall id :: id in w.docs ==> Inv(g, w.docs[id].state))
    && (forall k :: k in w.tasks ==> Inv(g, w.tasks[k].state))
  }

  /** The actions that leave the stored games lawful: what they insert, if anything, is lawful, and the command they
      commit, if any, is orderly in the state it was computed from. */
  ghost predicate Harmless(g: Config, gen: Generator, w: World, a: Action) {
    match a
    case Insert(_, _, state, _) => Step(g, gen, w, a) != w ==> Inv(g, state)
    case Intent(worker, cmd, _) =>
      worker in w.tasks && Step(g, gen, w, a).docs != w.docs ==> Orderly(w.tasks[worker].state, cmd)
    case _ => true
  }

  /** An engine step from a lawful state leads to a lawful state exactly if its command is orderly. */
  lemma EffectLawful(g: Config, gen: Generator, s: State, rng: int, cmd: Command, now: int)
    requires ValidConfig(g) && Inv(g, s) && EngineStep(g, gen, s, rng, cmd, now).Some?
    ensures Inv(g, EngineStep(g, gen, s, rng, cmd, now).value.0) <==> Orderly(s, cmd)
  {
    hide ValidConfig, Inv, Apply, Orderly;
    var (env, rng') := gen(rng, s, cmd, now);
    StepExact(g, s, cmd, env.(now := now)) by { InvParts(g, s); }
  }

  lemma TryCommitLawful(g: Config, gen: Generator, w: World, worker: int, cmd: Command, now: int)
    requires ValidConfig(g) && Lawful(g, w) && worker in w.tasks
    ensures var w' := TryCommit(g, gen, w, worker, cmd, now);
            Lawful(g, w') <==> (w'.docs != w.docs ==> Orderly(w.tasks[worker].state, cmd))
  {
    hide ValidConfig, Inv, Orderly, EngineStep;
    var t := w.tasks[worker];
    var w' := TryCommit(g, gen, w, worker, cmd, now);
    if EngineStep(g, gen, t.state, t.rng, cmd, now).Some? {
      EffectLawful(g, gen, t.state, t.rng, cmd, now);
    }
    if w'.docs != w.docs {
      assert t.gameId in w'.docs && w'.docs[t.gameId].state == EngineStep(g, gen, t.state, t.rng, cmd, now).value.0;
    }
  }

  lemma StepLawful(g: Config, gen: Generator, w: World, a: Action)
    requires ValidConfig(g) && Lawful(g, w)
    ensures Lawful(g, Step(g, gen, w, a)) <==> Harmless(g, gen, w, a)
  {
    hide ValidConfig, Inv, Orderly, TryCommit, TickCommand;
    match a
    case Intent(worker, cmd, now) =>
      if worker in w.tasks {
        TryCommitLawful(g, gen, w, worker, cmd, now);
      }
    case TimerTick(worker, now) =>
      if worker in w.tasks && TickCommand(w.tasks[worker].state, now).Some? {
        TimerOrderly(w.tasks[worker].state, now);
        TryCommitLawful(g, gen, w, worker, TickCommand(w.tasks[worker].state, now).value, now);
      }
    case Insert(id, session, state, _) =>
      var w' := Step(g, gen, w, a);
      if w' != w {
        assert w'.docs[id].state == state;
      }
    case _ =>
  }

  lemma TimerOrderly(s: State, now: int)
    requires TickCommand(s, now).Some?
    ensures Orderly(s, TickCommand(s, now).value)
  {}

  /** Every state of the store on the way is lawful. */
  ghost predicate AllLawful(g: Config, gen: Generator, actions: seq<Action>)
    decreases |actions|
  {
    Lawful(g, Execute(g, gen, EMPTY, actions)) && (actions == [] || AllLawful(g, gen, actions[..|actions| - 1]))
  }

  /** Every action is harmless where it happens. */
  ghost predicate AllHarmless(g: Config, gen: Generator, actions: seq<Action>)
    decreases |actions|
  {
    actions == []
    || (AllHarmless(g, gen, actions[..|actions| - 1])
        && Harmless(g, gen, Execute(g, gen, EMPTY, actions[..|actions| - 1]), actions[|actions| - 1]))
  }

  /** Workers decide on the basis of reads that may be out of date by the time they commit.  Every state that ever
      reaches the store satisfies every invariant of the rules exactly if the games inserted do and every command that
      is committed, by whichever worker, is orderly in the state its worker had read. */
  lemma {:induction false} StoreLawful(g: Config, gen: Generator, actions: seq<Action>)
    requires ValidConfig(g)
    ensures AllLawful(g, gen, actions) <==> AllHarmless(g, gen, actions)
    decreases |actions|
  {
    hide ValidConfig, Step, Harmless, Inv;
    if actions != [] {
      var n := |actions| - 1;
      StoreLawful(g, gen, actions[..n]);
      if AllLawful(g, gen, actions[..n]) {
        LastLawful(g, gen, actions[..n]);
        StepLawful(g, gen, Execute(g, gen, EMPTY, actions[..n]), actions[n]);
      }
    }
  }

  lemma LastLawful(g: Config, gen: Generator, actions: seq<Action>)
    requires AllLawful(g, gen, actions)
    ensures Lawful(g, Execute(g, gen, EMPTY, actions))
  {}
}
