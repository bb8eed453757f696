/** One worker among others, from its read to its commit, and what a crash takes away. */
module StoreLaws {
  import opened GameTypes
  import opened Timers
  import opened Store

  /** An action of worker `k`, other than a claim or a write of ratings, which do not touch what it has read. */
  predicate ActsAs(a: Action, k: int) {
    match a
    case Read(worker, _) => worker == k
    case Intent(worker, _, _) => worker == k
    case TimerTick(worker, _) => worker == k
    case Crash(worker) => worker == k
    case _ => false
  }

  lemma CommitForgets(g: Config, gen: Generator, w: World, worker: int, cmd: Command, now: int)
    requires worker in w.tasks
    ensures TryCommit(g, gen, w, worker, cmd, now).tasks == w.tasks - {worker}
  {
    hide EngineStep, CompareAndSet;
  }

  lemma OthersKeepTask(g: Config, gen: Generator, w: World, worker: int, a: Action)
    requires worker in w.tasks && !ActsAs(a, worker)
    ensures worker in Step(g, gen, w, a).tasks && Step(g, gen, w, a).tasks[worker] == w.tasks[worker]
  {
    hide EngineStep, TickCommand, TryCommit;
    match a
    case Intent(k, cmd, now) => if k in w.tasks { CommitForgets(g, gen, w, k, cmd, now); }
    case TimerTick(k, now) =>
      if k in w.tasks && TickCommand(w.tasks[k].state, now).Some? {
        CommitForgets(g, gen, w, k, TickCommand(w.tasks[k].state, now).value, now);
      }
    case _ =>
  }

  lemma {:induction false} OthersKeepTasks(g: Config, gen: Generator, w: World, worker: int, actions: seq<Action>)
    requires worker in w.tasks && forall a :: a in actions ==> !ActsAs(a, worker)
    ensures worker in Execute(g, gen, w, actions).tasks && Execute(g, gen, w, actions).tasks[worker] == w.tasks[worker]
    decreases |actions|
  {
    hide Step;
    if actions != [] {
      var n := |actions| - 1;
      OthersKeepTasks(g, gen, w, worker, actions[..n]);
      OthersKeepTask(g, gen, Execute(g, gen, w, actions[..n]), worker, actions[n]);
    }
  }

  lemma {:induction false} RunSerialised(g: Config, gen: Generator, w: World, actions: seq<Action>)
    requires Serialised(g, gen, w)
    ensures Serialised(g, gen, Execute(g, gen, w, actions))
    decreases |actions|
  {
    hide Step, Serialised;
    if actions != [] {
      var n := |actions| - 1;
      RunSerialised(g, gen, w, actions[..n]);
      StepSerialised(g, gen, Execute(g, gen, w, actions[..n]), actions[n]);
    }
  }

  /** The world after the engine step of `doc` is stored, or refused, and the worker has forgotten what it read. */
  ghost predicate Stepped(g: Config, gen: Generator, before: World, after: World, worker: int, id: int, doc: Document, cmd: Command,
                          now: int, current: bool)
    requires id in before.docs && id in before.log
  {
    var e := EngineStep(g, gen, doc.state, doc.rng, cmd, now);
    after == if e.Some? && current then
               before.(tasks := before.tasks - {worker}, log := before.log[id := before.log[id] + [Commit(cmd, now)]],
                       docs := before.docs[id := before.docs[id].(state := e.value.0, rng := e.value.1, version := doc.version + 1)])
             else before.(tasks := before.tasks - {worker})
  }

  /** From a read to the commit, with any actions of others in between: the command is applied to the document as it was read,
      and stored, with its entry in the log, exactly if the engine accepts it and the version is still the one that was
      read. */
  lemma ReadToCommit(g: Config, gen: Generator, w: World, worker: int, id: int, between: seq<Action>, cmd: Command, now: int)
    requires Serialised(g, gen, w) && id in w.docs && forall a :: a in between ==> !ActsAs(a, worker)
    ensures var w1 := Execute(g, gen, Step(g, gen, w, Read(worker, id)), between);
            && id in w1.docs && id in w1.log && worker in w1.tasks
            && Stepped(g, gen, w1, Step(g, gen, w1, Intent(worker, cmd, now)), worker, id, w.docs[id], cmd, now,
                       w1.docs[id].version == w.docs[id].version)
  {
    hide EngineStep, Sequential, Execute, DocOk, TaskOk;
    var w0 := Step(g, gen, w, Read(worker, id));
    StepSerialised(g, gen, w, Read(worker, id));
    RunSerialised(g, gen, w0, between);
    OthersKeepTasks(g, gen, w0, worker, between);
    var w1 := Execute(g, gen, w0, between);
    assert w1.tasks[worker] == Stored(id, w.docs[id].state, w.docs[id].rng, w.docs[id].version);
    TaskKnown(g, gen, w1, worker);
  }

  lemma TaskKnown(g: Config, gen: Generator, w: World, worker: int)
    requires Serialised(g, gen, w) && worker in w.tasks
    ensures w.tasks[worker].gameId in w.docs && w.tasks[worker].gameId in w.log
  {
    assert TaskOk(g, gen, w, w.tasks[worker]);
  }

  /** The scheduler does the same with the timed command that was due when it read, and nothing if none was. */
  lemma ReadToTick(g: Config, gen: Generator, w: World, worker: int, id: int, between: seq<Action>, now: int)
    requires Serialised(g, gen, w) && id in w.docs && forall a :: a in between ==> !ActsAs(a, worker)
    ensures var w1 := Execute(g, gen, Step(g, gen, w, Read(worker, id)), between);
            var due := TickCommand(w.docs[id].state, now);
            && id in w1.docs && id in w1.log
            && (if due.None? then Step(g, gen, w1, TimerTick(worker, now)) == w1
                else Stepped(g, gen, w1, Step(g, gen, w1, TimerTick(worker, now)), worker, id, w.docs[id], due.value, now,
                             w1.docs[id].version == w.docs[id].version))
  {
    hide EngineStep, Sequential, Execute, DocOk, TaskOk, TickCommand;
    var w0 := Step(g, gen, w, Read(worker, id));
    StepSerialised(g, gen, w, Read(worker, id));
    RunSerialised(g, gen, w0, between);
    OthersKeepTasks(g, gen, w0, worker, between);
    var w1 := Execute(g, gen, w0, between);
    assert w1.tasks[worker] == Stored(id, w.docs[id].state, w.docs[id].rng, w.docs[id].version);
    TaskKnown(g, gen, w1, worker);
  }

  /** A crash stores nothing and takes from nobody else; until it reads or claims again, the worker does nothing more. */
  lemma CrashStops(g: Config, gen: Generator, w: World, worker: int, id: int, cmd: Command, now: int)
    ensures var w' := Step(g, gen, w, Crash(worker));
            && w' == w.(tasks := w'.tasks, raters := w'.raters)
            && (forall k :: k != worker ==> (k in w'.tasks <==> k in w.tasks) && (k in w.tasks ==> w'.tasks[k] == w.tasks[k]))
            && (forall game :: game in w.raters && w.raters[game].worker != worker ==> game in w'.raters && w'.raters[game] == w.raters[game])
            && Step(g, gen, w', Intent(worker, cmd, now)) == w' && Step(g, gen, w', TimerTick(worker, now)) == w'
            && Step(g, gen, w', Rate(worker, id)) == w'
  {
    hide EngineStep, TickCommand;
  }

  /** A game is inserted exactly if neither its id nor its session is taken, at version 0 with an empty history. */
  lemma InsertOnce(g: Config, gen: Generator, w: World, id: int, session: int, state: State, rng: int)
    ensures var w' := Step(g, gen, w, Insert(id, session, state, rng));
            var taken := id in w.docs || exists other :: other in w.docs && w.docs[other].sessionId == session;
            && (taken ==> w' == w)
            && (!taken ==> w'.docs == w.docs[id := Document(session, state, rng, 0, false)] && w'.tasks == w.tasks && w'.raters == w.raters
                           && id in w'.log && w'.log[id] == [] && id in w'.initial && w'.initial[id] == (state, rng)
                           && id in w'.claims && id in w'.ratings && w'.claims[id] == w'.ratings[id] == [])
  {
    hide EngineStep, TickCommand;
  }
}
