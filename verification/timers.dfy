/** The timers: which timed command `GameScheduler._tick_one` chooses, that no game is ever stuck, and
    that an abandoned game ends. */
module Timers {
  import opened GameTypes
  import opened Seqs
  import opened Soundness
  import opened Worth
  import opened Payments
  import opened Landing
  import opened PropertyRules
  import opened Elimination
  import opened Handlers
  import opened Engine
  import opened Rotation
  import opened Invariants
  import opened SurrenderLaws
  import opened StepProperty
  import opened StepTable
  import opened Steps

  /** The timer choice of `_tick_one`. */
  function TickCommand(s: State, now: int): Option<Command> {
    if AuctionExpired(s, now) then Some(AdvanceAuction)
    else if s.trade.Some? && s.trade.value.expiresAt <= now then Some(ExpireTrade)
    else if TurnExpired(s, now) then Some(TurnTimeout)
    else None
  }

  /** When the next timer of a game becomes due. */
  function DueTime(s: State): int
    requires s.turn.deadline.Some?
  {
    if s.auction.Some? then s.auction.value.startedAt + AUCTION_DURATION_MS
    else if s.trade.Some? then s.trade.value.expiresAt
    else s.turn.deadline.value
  }

  /** No softlock.  A game in progress that is not waiting for a debtor has a timer, which is due exactly
      from a known time on; a debtor can always declare bankruptcy. */
  lemma NoSoftlock(g: Config, s: State)
    requires ValidConfig(g) && Inv(g, s) && !s.finished
    ensures s.turn.deadline.Some?
    ensures s.bankruptcy.None? ==> forall now :: TickCommand(s, now).Some? <==> now >= DueTime(s)
    ensures s.bankruptcy.Some? ==> forall env :: Apply(g, s, DeclareBankruptcy(s.turn.current), env).Ok?
  {
    hide ValidConfig, DeckKept, ActiveSeats, Streets, Owns, Inventory, WorthFresh, Wrap, ResolveBankruptcy, ResetStrikes;
    assert Live(g, s);
    assert AuctionOk(s);
  }

  // ---------------------------------------------------------------- activity

  lemma WrapStrikes(g: Config, before: State, s: State, cmd: Command, now: int)
    requires GoodRefs(g, s)
    ensures var r := Wrap(g, before, s, cmd, now);
            |r.players| == |s.players| && forall i :: 0 <= i < |s.players| ==> r.players[i].strikes == s.players[i].strikes
  {
    hide ActiveSeats, ComputeActions, Transfer;
    if s.bankruptcy.Some? {
      TransferFrame(g, ClearCard(before, s, cmd), s.bankruptcy.value.debtor, s.bankruptcy.value.creditor, s.bankruptcy.value.owed);
    }
  }

  /** Whoever acts has no strikes afterwards. */
  lemma ActingClearsStrikes(g: Config, s: State, cmd: Command, env: Env)
    requires ValidConfig(g) && Good(g, s) && !IsSystem(cmd) && Apply(g, s, cmd, env).Ok?
    ensures var s' := Apply(g, s, cmd, env).s;
            cmd.player < |s'.players| ==> s'.players[cmd.player].strikes == 0
  {
    hide ValidConfig, Good, DispatchOpen, Dispatch, Wrap, ComputeActions;
    if IsOpen(cmd) {
      DispatchOpenGood(g, s, cmd, env);
      CurrentInRange(g, DispatchOpen(g, s, cmd, env).s);
    } else {
      DispatchGood(g, s, cmd, env);
      var s2 := ResetStrikes(Dispatch(g, s, cmd, env).s, cmd.player);
      ResetGood(g, Dispatch(g, s, cmd, env).s, cmd.player);
      GoodImpliesRefs(g, s2);
      WrapStrikes(g, s, s2, cmd, env.now);
    }
  }

  // ---------------------------------------------------------------- abandonment

  /** How many more timeouts each player survives. */
  function Patience(players: seq<Player>): (r: seq<int>)
    ensures |r| == |players|
    ensures forall i :: 0 <= i < |r| ==> r[i] == if players[i].bankrupt then 0 else MAX_AFK_STRIKES - players[i].strikes
  {
    seq(|players|, i requires 0 <= i < |players| => if players[i].bankrupt then 0 else MAX_AFK_STRIKES - players[i].strikes)
  }

  /** Timed steps an abandoned game can still take: one for an open auction or trade, and one for each
      strike the active players have left. */
  function StepsLeft(s: State): int {
    (if s.auction.Some? || s.trade.Some? then 1 else 0) + Sum(Patience(s.players))
  }

  /** One timer tick: the due command, if any, is applied. */
  function Tick(g: Config, s: State, env: Env): (r: State)
    requires ValidConfig(g) && Good(g, s)
    ensures Good(g, r)
  {
    match TickCommand(s, env.now)
    case None => s
    case Some(cmd) => var r := Apply(g, s, cmd, env); if r.Ok? then r.s else s
  }

  /** Settling a debt leaves auction, trade and shown card alone. */
  lemma SettleKeeps(g: Config, s: State)
    requires GoodRefs(g, s)
    ensures var r := TrySettleDebt(g, s); r.auction == s.auction && r.trade == s.trade && r.activeCard == s.activeCard
  {
    hide Transfer;
    if s.bankruptcy.Some? {
      TransferFrame(g, s, s.bankruptcy.value.debtor, s.bankruptcy.value.creditor, s.bankruptcy.value.owed);
    }
  }

  /** The end of `apply` leaves auction and trade alone. */
  lemma WrapKeeps(g: Config, before: State, s: State, cmd: Command, now: int)
    requires GoodRefs(g, s)
    ensures var r := Wrap(g, before, s, cmd, now);
            && r.auction == s.auction && r.trade == s.trade
            && r.activeCard == ClearCard(before, s, cmd).activeCard
  {
    hide ActiveSeats, ComputeActions, TrySettleDebt;
    SettleKeeps(g, ClearCard(before, s, cmd));
  }

  /** Outside a bankruptcy the end of `apply` changes only stamps. */
  lemma WrapQuiet(g: Config, before: State, s: State, cmd: Command, now: int)
    requires GoodRefs(g, s) && Table(g, s) && s.bankruptcy.None?
    ensures var s' := Wrap(g, before, s, cmd, now);
            s' == s.(activeCard := s'.activeCard, turn := s.turn.(deadline := s'.turn.deadline, actions := s'.turn.actions))
  {
    hide ComputeActions;
    CheckWinInv(g, ClearCard(before, s, cmd)) by { CardTable(g, s, ClearCard(before, s, cmd)); }
  }

  /** Outside a bankruptcy an accepted command of the current player leaves what its handler does, the actor's strikes
      aside, and stamps. */
  lemma TurnApplied(g: Config, s: State, cmd: Command, env: Env)
    requires ValidConfig(g) && Inv(g, s) && Orderly(s, cmd) && !IsSystem(cmd) && !IsOpen(cmd) && Apply(g, s, cmd, env).Ok?
    requires cmd.player == s.turn.current && Good(g, s) && Dispatch(g, s, cmd, env).Ok? ==> Dispatch(g, s, cmd, env).s.bankruptcy.None?
    ensures Good(g, s) && cmd.player == s.turn.current && Dispatch(g, s, cmd, env).Ok?
    ensures var s' := Apply(g, s, cmd, env).s;
            var s2 := ResetStrikes(Dispatch(g, s, cmd, env).s, cmd.player);
            s' == s2.(activeCard := s'.activeCard, turn := s2.turn.(deadline := s'.turn.deadline, actions := s'.turn.actions))
  {
    hide ValidConfig, Good, Inv, Core, Table, Wrap, Dispatch, ResetStrikes, Orderly;
    InvParts(g, s);
    DispatchGood(g, s, cmd, env);
    DispatchTable(g, s, cmd, env);
    DispatchCore(g, s, cmd, env);
    var s1 := Dispatch(g, s, cmd, env).s;
    var s2 := ResetStrikes(s1, cmd.player);
    ResetGood(g, s1, cmd.player);
    ResetInv(g, s1, cmd.player);
    ResetBankruptcy(s1, cmd.player);
    GoodImpliesRefs(g, s2);
    WrapQuiet(g, s, s2, cmd, env.now);
  }

  lemma ResetBankruptcy(s: State, i: Seat)
    ensures ResetStrikes(s, i).bankruptcy == s.bankruptcy
  {}

  lemma SkipPatience(s: State)
    requires Roster(s) && s.turn.current < |s.players| && !s.players[s.turn.current].bankrupt
    ensures var i := s.turn.current;
            Sum(Patience(s.players[i := s.players[i].(strikes := s.players[i].strikes + 1)])) == Sum(Patience(s.players)) - 1
  {
    hide Roster, Sum;
    var i := s.turn.current;
    var ps := s.players[i := s.players[i].(strikes := s.players[i].strikes + 1)];
    SumUpdate(Patience(s.players), i, Patience(s.players)[i] - 1);
    assert Patience(ps) == Patience(s.players)[i := Patience(s.players)[i] - 1];
  }

  lemma OutPatience(s: State, players: seq<Player>, who: Seat)
    requires Roster(s) && who < |s.players| == |players| && !s.players[who].bankrupt && players[who].bankrupt
    requires forall i :: 0 <= i < |players| && i != who ==>
               players[i].bankrupt == s.players[i].bankrupt && players[i].strikes == s.players[i].strikes
    ensures Sum(Patience(players)) <= Sum(Patience(s.players)) - 1
  {
    RecordAt(s, who);
    hide Roster, Sum;
    SumUpdate(Patience(s.players), who, 0);
    assert Patience(players) == Patience(s.players)[who := 0];
  }

  /** A timeout uses up a strike. */
  lemma TimeoutPatience(g: Config, s: State, now: int)
    requires Good(g, s) && Table(g, s) && !s.finished && TurnExpired(s, now)
    ensures var s' := Timeout(g, s, now).0;
            Sum(Patience(s'.players)) <= Sum(Patience(s.players)) - 1
            && s'.auction == s.auction && s'.trade == s.trade && s'.bankruptcy == s.bankruptcy
  {
    hide DeckKept, ActiveSeats, NextOffset, Sum, LeaveTable, ResolveSurrender, Roster, Assets;
    TableLive(g, s);
    var i := s.turn.current;
    var strikes := s.players[i].strikes + 1;
    var s1 := WithPlayer(s, i, s.players[i].(strikes := strikes));
    SkipPatience(s);
    LeaveShape(g, s1, i);
    if strikes >= MAX_AFK_STRIKES {
      OutPatience(s, LeaveTable(g, s1, i).players, i);
      OutFrame(g, s1, i);
    }
  }

  lemma OutFrame(g: Config, s: State, who: Seat)
    requires who < |s.players| && !s.players[who].bankrupt
    ensures var s' := ResolveSurrender(g, s, who);
            s'.players == LeaveTable(g, s, who).players
            && s'.auction == s.auction && s'.trade == s.trade && s'.bankruptcy == s.bankruptcy
  {
    hide LeaveTable, ActiveSeats, NextOffset;
    LeaveShape(g, s, who);
  }

  /** A due timer of a game in progress, outside a bankruptcy, makes progress towards the end. */
  lemma TickProgress(g: Config, s: State, env: Env)
    requires ValidConfig(g) && Inv(g, s) && !s.finished && s.bankruptcy.None?
    requires TickCommand(s, env.now).Some?
    ensures Inv(g, Tick(g, s, env)) && Tick(g, s, env).bankruptcy.None?
    ensures StepsLeft(Tick(g, s, env)) <= StepsLeft(s) - 1
  {
    hide ValidConfig, DeckKept, ActiveSeats, Streets, Owns, Inventory, WorthFresh, Wrap, Sum, Timeout, ResolveAuction;
    var cmd := TickCommand(s, env.now).value;
    InvParts(g, s);
    StepInvariant(g, s, cmd, env);
    SystemGood(g, s, cmd, env);
    SystemTable(g, s, cmd, env);
    var s1 := HandleSystem(g, s, cmd, env).0;
    assert Live(g, s);
    assert s1.bankruptcy.None? && StepsLeft(s1) <= StepsLeft(s) - 1 by {
      if cmd.TurnTimeout? {
        TimeoutPatience(g, s, env.now);
      } else if cmd.AdvanceAuction? {
        AwardPatience(g, s);
      }
    }
    WrapQuiet(g, s, s1, cmd, env.now);
  }

  lemma AwardPatience(g: Config, s: State)
    requires Good(g, s) && s.auction.Some?
    ensures var s' := ResolveAuction(g, s);
            s'.auction.None? && s'.trade == s.trade && s'.bankruptcy == s.bankruptcy && Patience(s'.players) == Patience(s.players)
  {
    hide DeckKept, Assets, SortedSet;
  }

  lemma PatiencePositive(g: Config, s: State)
    requires Inv(g, s) && !s.finished
    ensures StepsLeft(s) >= 1
  {
    hide Good, ActiveSeats, Streets, Owns, Inventory, WorthFresh, Sum;
    InvParts(g, s);
    TableLive(g, s);
    forall i | 0 <= i < |s.players| ensures Patience(s.players)[i] >= 0 {
      RecordAt(s, i);
    }
    RecordAt(s, s.turn.current);
    SumNonNegative(Patience(s.players));
  }

  /** The state after a list of ticks. */
  function Ticks(g: Config, s: State, envs: seq<Env>): (r: State)
    requires ValidConfig(g) && Good(g, s)
    ensures Good(g, r)
    decreases |envs|
  {
    if envs == [] then s else Ticks(g, Tick(g, s, envs[0]), envs[1..])
  }

  /** At each tick until the game is over a timer is due. */
  predicate AllDue(g: Config, s: State, envs: seq<Env>)
    requires ValidConfig(g) && Good(g, s)
    decreases |envs|
  {
    envs == [] || s.finished || (TickCommand(s, envs[0].now).Some? && AllDue(g, Tick(g, s, envs[0]), envs[1..]))
  }

  lemma OverStays(g: Config, s: State, env: Env)
    requires ValidConfig(g) && Inv(g, s) && s.finished
    ensures Tick(g, s, env) == s
  {
    hide ValidConfig, Good, ActiveSeats, Streets, Owns, Inventory, WorthFresh;
    InvParts(g, s);
  }

  /** An abandoned game ends: when nobody acts, as many due timer steps as `StepsLeft` says finish it. */
  lemma {:induction false} AbandonedGameEnds(g: Config, s: State, envs: seq<Env>)
    requires ValidConfig(g) && Inv(g, s) && s.bankruptcy.None?
    requires AllDue(g, s, envs) && |envs| >= StepsLeft(s)
    ensures Ticks(g, s, envs).finished
    decreases |envs|
  {
    hide ValidConfig, Inv, Tick, TickCommand, StepsLeft;
    InvGood(g, s);
    if s.finished {
      if envs != [] {
        OverStays(g, s, envs[0]);
        StepsLeftNonNegative(g, s);
        OverTicks(g, s, envs);
      }
    } else {
      PatiencePositive(g, s);
      TickProgress(g, s, envs[0]);
      AbandonedGameEnds(g, Tick(g, s, envs[0]), envs[1..]);
    }
  }

  lemma InvGood(g: Config, s: State)
    requires Inv(g, s)
    ensures Good(g, s)
  {}

  lemma {:induction false} OverTicks(g: Config, s: State, envs: seq<Env>)
    requires ValidConfig(g) && Inv(g, s) && s.finished
    ensures Ticks(g, s, envs) == s
  {
    hide ValidConfig, Inv, Tick;
    InvGood(g, s);
    if envs != [] {
      OverStays(g, s, envs[0]);
      OverTicks(g, s, envs[1..]);
    }
  }

  lemma StepsLeftNonNegative(g: Config, s: State)
    requires Inv(g, s)
    ensures StepsLeft(s) >= 0
  {
    hide Good, ActiveSeats, Streets, Owns, Inventory, WorthFresh, Sum;
    InvParts(g, s);
    forall i | 0 <= i < |s.players| ensures Patience(s.players)[i] >= 0 {
      RecordAt(s, i);
    }
    SumNonNegative(Patience(s.players));
  }

  /** And such timer steps always exist: from every state outside a bankruptcy some schedule of due
      timers, no longer than `StepsLeft`, finishes the game. */
  lemma {:induction false} FinishingSchedule(g: Config, s: State, env: Env) returns (envs: seq<Env>)
    requires ValidConfig(g) && Inv(g, s) && s.bankruptcy.None?
    ensures Good(g, s)
    ensures AllDue(g, s, envs) && Ticks(g, s, envs).finished && |envs| <= StepsLeft(s)
    decreases StepsLeft(s)
  {
    hide ValidConfig, Inv, Tick, TickCommand, StepsLeft;
    InvGood(g, s);
    StepsLeftNonNegative(g, s);
    if s.finished {
      envs := [];
    } else {
      NoSoftlock(g, s);
      var e := env.(now := DueTime(s));
      TickProgress(g, s, e);
      StepsLeftNonNegative(g, Tick(g, s, e));
      var rest := FinishingSchedule(g, Tick(g, s, e), env);
      envs := [e] + rest;
      assert envs[1..] == rest;
    }
  }

  /** The exact condition: no timer is ever due for a debtor, so a game abandoned in bankruptcy
      resolution stays there for good. */
  lemma {:induction false} AbandonedDebtorStays(g: Config, s: State, envs: seq<Env>)
    requires ValidConfig(g) && Inv(g, s) && s.bankruptcy.Some?
    ensures !s.finished && Ticks(g, s, envs) == s
    decreases |envs|
  {
    hide ValidConfig, DeckKept, ActiveSeats, Streets, Owns, Inventory, WorthFresh, Apply;
    InvParts(g, s);
    assert Phases(g, s);
    if envs != [] {
      assert TickCommand(s, envs[0].now).None?;
      AbandonedDebtorStays(g, s, envs[1..]);
    }
  }
}
