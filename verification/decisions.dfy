/** When a roll leaves the phase as it was, and so when the jail decision is asked of a player who is free. */
module Decisions {
  import opened GameTypes
  import opened Seqs
  import opened Soundness
  import opened Worth
  import opened Payments
  import opened Landing
  import opened PropertyRules
  import opened Elimination
  import opened Handlers
  import opened Engine
  import opened Rotation
  import opened Invariants
  import opened SurrenderLaws
  import opened StepRoll
  import opened Timers
  import opened Accounts
  import opened OrderlyLaws
  import opened Foresight
  import opened Offers
  import opened Solvency

  /** The jail decision is asked of a prisoner only. */
  predicate Confined(s: State) {
    s.turn.phase == JailDecision ==> s.turn.current < |s.players| && s.players[s.turn.current].jail.Some?
  }

  // ---------------------------------------------------------------- the roll

  /** What the end of `apply` leaves of a turn whose debt, if any, cannot be paid. */
  lemma WrapTurn(g: Config, before: State, s: State, cmd: Command, now: int)
    requires GoodRefs(g, s) && !Payable(s) && (s.finished || |Survivors(s)| >= 2)
    ensures var s' := Wrap(g, before, s, cmd, now);
            s' == s.(activeCard := s'.activeCard, turn := s.turn.(deadline := s'.turn.deadline, actions := s'.turn.actions))
  {
    hide ActiveSeats, ComputeActions, Transfer;
  }

  /** An accepted roll leaves what its handler does, the roller's strikes aside, and stamps. */
  lemma RollApplied(g: Config, s: State, cmd: Command, env: Env)
    requires ValidConfig(g) && Inv(g, s) && cmd.RollDice? && Apply(g, s, cmd, env).Ok?
    ensures Good(g, s) && cmd.player == s.turn.current < |s.players| && Roll(g, s, s.turn.current, env).Ok?
    ensures s.bankruptcy.None? && s.turn.pending.None? && !s.finished
    ensures var s' := Apply(g, s, cmd, env).s;
            var s2 := ResetStrikes(Roll(g, s, s.turn.current, env).s, cmd.player);
            && s' == s2.(activeCard := s'.activeCard, turn := s2.turn.(deadline := s'.turn.deadline, actions := s'.turn.actions))
            && !s'.finished
  {
    hide ValidConfig, Good, Inv, Roll, Wrap, ActiveSeats, Payable;
    InvGood(g, s);
    CurrentInRange(g, s);
    BeforeRoll(g, s, env);
    RollGood(g, s, env);
    var s1 := Roll(g, s, s.turn.current, env).s;
    var s2 := ResetStrikes(s1, cmd.player);
    ResetGood(g, s1, cmd.player);
    GoodImpliesRefs(g, s2);
    RollOwes(g, s, env);
    ResetPayable(g, s1, cmd.player);
    RollSurvivors(g, s, env);
    ResetQuiet(s1, cmd.player);
    WrapTurn(g, s, s2, cmd, env.now);
  }

  /** An accepted roll leaves the phase as it was exactly when it lingers; and only a lingering roll is followed by a jail
      decision, which the roller is then asked outside jail. */
  lemma RollPhases(g: Config, s: State, cmd: Command, env: Env)
    requires ValidConfig(g) && Inv(g, s) && cmd.RollDice? && Apply(g, s, cmd, env).Ok?
    ensures s.turn.current < |s.players| && (s.turn.phase == PreRoll || s.turn.phase == JailDecision)
    ensures var i := s.turn.current;
            var dice := DiceOf(g, env);
            var s' := Apply(g, s, cmd, env).s;
            && |s'.players| == |s.players| && s'.turn.current == i && !s'.finished
            && s'.turn.phase == RolledPhase(g, s, i, dice)
            && (s'.turn.phase == s.turn.phase <==> Lingers(g, s, i, dice))
            && (s'.turn.phase == JailDecision ==> s.turn.phase == JailDecision)
            && (Lingers(g, s, i, dice) ==>
                  s'.players[i].jail.None? && s'.turn.pending.None? && s'.bankruptcy.None?
                  && s'.players[i].balance == BalanceAfter(g, s, i, dice.die1 + dice.die2, RollFate(g, s, i, dice), i)
                  && s'.turn.streak == if ExtraRoll(s, i, dice) then s.turn.streak + 1 else 0)
  {
    hide ValidConfig, Good, Inv, Apply, Roll, RollFate, Due, BalanceAfter;
    RollApplied(g, s, cmd, env);
    var i := s.turn.current;
    RollCases(g, s, i, env);
    RollForetold(g, s, i, env);
    PhaseKept(g, s, i, env);
    RollStreak(g, s, i, env);
  }

  lemma RollStreak(g: Config, s: State, i: Seat, env: Env)
    requires ValidConfig(g) && Good(g, s) && i < |s.players| && Roll(g, s, i, env).Ok?
    requires s.bankruptcy.None? && s.turn.pending.None?
    ensures var dice := DiceOf(g, env);
            var s' := Roll(g, s, i, env).s;
            s'.turn.current == s.turn.current
            && (Lingers(g, s, i, dice) ==> s'.turn.streak == if ExtraRoll(s, i, dice) then s.turn.streak + 1 else 0)
  {
    hide ValidConfig, Good, Roll, RollFate, Due, ResolveLanding, DiceWalk, Foretold, Refreshed;
    RollCases(g, s, i, env);
    RollShape(g, s, i, env);
    var dice := DiceOf(g, env);
    if !StaysPut(s, i, dice) {
      RollLands(g, s, i, dice, env);
      RollLandsQuietly(g, s, i, dice, env);
    }
  }

  lemma RollLandsQuietly(g: Config, s: State, i: Seat, dice: DiceRoll, env: Env)
    requires ValidConfig(g) && Good(g, s) && i < |s.players|
    requires Good(g, WithPlayer(s, i, Freed(g, s, i, dice)))
    requires Foretold(g, s, RollLanding(g, WithPlayer(s, i, Freed(g, s, i, dice)), i, dice, env), i, dice.die1 + dice.die2,
                      RollFate(g, s, i, dice))
    ensures var r := RollLanding(g, WithPlayer(s, i, Freed(g, s, i, dice)), i, dice, env);
            Lingers(g, s, i, dice) ==>
              !r.jailed && r.s.bankruptcy.None? && (ExtraRoll(s, i, dice) ==> r.s.turn.pending.None?)
  {
    hide ValidConfig, Good, RollFate, Due, RollLanding, BalanceAfter;
  }

  lemma RollOwes(g: Config, s: State, env: Env)
    requires ValidConfig(g) && Good(g, s) && Roll(g, s, s.turn.current, env).Ok? && s.bankruptcy.None? && s.turn.pending.None?
    ensures !Payable(Roll(g, s, s.turn.current, env).s)
  {
    hide ValidConfig, Good, Roll, RollTouches;
    CurrentInRange(g, s);
    RollShape(g, s, s.turn.current, env);
  }

  lemma RollSurvivors(g: Config, s: State, env: Env)
    requires ValidConfig(g) && Inv(g, s) && Roll(g, s, s.turn.current, env).Ok? && s.bankruptcy.None? && s.turn.pending.None?
    requires !s.finished
    ensures var s' := Roll(g, s, s.turn.current, env).s;
            !s'.finished && |Survivors(s')| >= 2
  {
    hide ValidConfig, DeckKept, Roll, Streets, Owns, Inventory, WorthFresh, Phases, ActiveSeats, Rolled;
    var s' := Roll(g, s, s.turn.current, env).s;
    RollShape(g, s, s.turn.current, env);
    ActiveFrame(s.players, s'.players, |s.players|);
  }

  // ---------------------------------------------------------------- every other command

  lemma WrapConfined(g: Config, before: State, s: State, cmd: Command, now: int)
    requires GoodRefs(g, s) && Confined(s)
    ensures Confined(Wrap(g, before, s, cmd, now))
  {
    hide ActiveSeats, ComputeActions, TrySettleDebt;
    SettleConfined(g, ClearCard(before, s, cmd));
  }

  lemma SettleConfined(g: Config, s: State)
    requires GoodRefs(g, s) && Confined(s)
    ensures Confined(TrySettleDebt(g, s))
  {
    hide Transfer;
    if s.bankruptcy.Some? {
      TransferFrame(g, s, s.bankruptcy.value.debtor, s.bankruptcy.value.creditor, s.bankruptcy.value.owed);
    }
  }

  lemma ResetConfined(s: State, i: Seat)
    requires Confined(s)
    ensures Confined(ResetStrikes(s, i))
  {}

  /** A turn handed on asks only a prisoner for the decision. */
  lemma HandedOn(s: State, from: Seat)
    requires from < |s.players| && Survivors(s) != []
    ensures Confined(AdvanceOff(s, from))
  {
    hide ActiveSeats, AdvanceOff;
    FreshTurn(s, from);
    SuccessorActive(s, from);
  }

  lemma LeaveConfined(g: Config, s: State, who: Seat)
    requires who < |s.players| && who == s.turn.current && !s.players[who].bankrupt
    requires if s.finished then s.turn.phase == GameOver else |Survivors(s)| >= 2
    ensures Confined(ResolveSurrender(g, s, who))
  {
    hide ActiveSeats, AdvanceOff, LeaveTable;
    LeaveShape(g, s, who);
    ActiveRemove(s.players, LeaveTable(g, s, who).players, who, |s.players|);
    var mid := CheckWin(LeaveTable(g, s, who));
    if !mid.finished {
      HandedOn(mid, who);
    }
  }

  lemma EstateConfined(g: Config, s: State)
    requires Good(g, s) && s.bankruptcy.Some? && s.turn.phase != JailDecision && |Survivors(s)| >= 2
    ensures Confined(ResolveBankruptcy(g, s))
  {
    hide DeckKept, ActiveSeats, AdvanceOff, Assets, SortedSet, Reassign, ReleaseTiles, AppendCards, Interest, NextOffset;
    var d := s.bankruptcy.value.debtor;
    var s1 := SettleEstate(g, s);
    if s.players[d].bankrupt {
      ActiveFrame(s.players, s1.players, |s.players|);
    } else {
      ActiveRemove(s.players, s1.players, d, |s.players|);
    }
    if !CheckWin(s1).finished {
      HandedOn(CheckWin(s1), d);
    }
  }

  lemma TurnConfined(g: Config, s: State, cmd: Command, env: Env)
    requires ValidConfig(g) && Inv(g, s) && Good(g, s) && Confined(s) && !IsSystem(cmd) && !IsOpen(cmd) && cmd.player == s.turn.current
    requires !cmd.RollDice? && Dispatch(g, s, cmd, env).Ok?
    ensures Confined(Dispatch(g, s, cmd, env).s)
  {
    hide ValidConfig, Good, Inv, Confined, ActiveSeats, Buy, Handlers.Pass, End, PayFine, UseCard, Propose, ResolveBankruptcy,
         ResolveSurrender, Rework, HasMonopoly;
    CurrentInRange(g, s);
    OneProtocol(g, s);
    var i := s.turn.current;
    if cmd.DeclareBankruptcy? {
      EstateConfined(g, s);
    } else if cmd.Surrender? {
      LeaveConfined(g, s, i);
    } else if cmd.EndTurn? {
      SurvivorsInRange(s.players, |s.players|);
      EndConfined(g, s);
    } else if cmd.BuildHouse? || cmd.SellHouse? || cmd.Mortgage? || cmd.Unmortgage? {
      BuildersConfined(g, s, cmd, env);
    } else {
      PlainConfined(g, s, cmd, env);
    }
  }

  lemma EndConfined(g: Config, s: State)
    requires Good(g, s)
    requires forall k :: 0 <= k < |Survivors(s)| ==> Survivors(s)[k] < |s.players|
    requires End(s, s.turn.current).Ok?
    ensures Confined(End(s, s.turn.current).s)
  {
    hide DeckKept, ActiveSeats;
  }

  lemma BuildersConfined(g: Config, s: State, cmd: Command, env: Env)
    requires ValidConfig(g) && Good(g, s) && !IsSystem(cmd) && !IsOpen(cmd) && cmd.player == s.turn.current
    requires cmd.BuildHouse? || cmd.SellHouse? || cmd.Mortgage? || cmd.Unmortgage?
    requires Dispatch(g, s, cmd, env).Ok?
    ensures Confined(Dispatch(g, s, cmd, env).s)
  {
    hide ValidConfig, DeckKept, Assets, HasMonopoly;
  }

  lemma PlainConfined(g: Config, s: State, cmd: Command, env: Env)
    requires ValidConfig(g) && Good(g, s) && !IsSystem(cmd) && !IsOpen(cmd) && cmd.player == s.turn.current
    requires cmd.BuyProperty? || cmd.PassBuy? || cmd.PayJailFine? || cmd.UseJailCard? || cmd.ProposeTrade?
    requires Dispatch(g, s, cmd, env).Ok?
    ensures Confined(Dispatch(g, s, cmd, env).s)
  {
    hide ValidConfig, DeckKept, ActiveSeats, Assets, Sorted, CheckPositions;
  }

  lemma OpenConfined(g: Config, s: State, cmd: Command, env: Env)
    requires Good(g, s) && Confined(s) && IsOpen(cmd) && DispatchOpen(g, s, cmd, env).Ok?
    ensures Confined(DispatchOpen(g, s, cmd, env).s)
  {
    hide DeckKept, CheckPositions, SortedSet, Without, Reassign, Assets;
  }

  lemma SystemConfined(g: Config, s: State, cmd: Command, env: Env)
    requires Inv(g, s) && Good(g, s) && Confined(s) && IsSystem(cmd)
    ensures Confined(HandleSystem(g, s, cmd, env).0)
  {
    hide Good, Inv, ActiveSeats, ResolveSurrender, AdvanceOff, SortedSet, Acquire;
    CurrentInRange(g, s);
    OneProtocol(g, s);
    if cmd.TurnTimeout? && TurnExpired(s, env.now) {
      var i := s.turn.current;
      var s1 := WithPlayer(s, i, s.players[i].(strikes := s.players[i].strikes + 1));
      ActiveFrame(s.players, s1.players, |s.players|);
      if s1.players[i].strikes >= MAX_AFK_STRIKES {
        LeaveConfined(g, s1, i);
      } else {
        HandedOn(s1, i);
      }
    } else if cmd.AdvanceAuction? && AuctionExpired(s, env.now) {
      AuctionLeader(g, s);
    }
  }

  lemma AuctionLeader(g: Config, s: State)
    requires Good(g, s)
    ensures s.auction.Some? && s.auction.value.leader.Some? ==> s.auction.value.leader.value < |s.players|
  {}

  // ---------------------------------------------------------------- the step

  /** The one way in which a jail decision comes to be asked outside jail: exactly by a roll that lingers in it. */
  lemma StepConfined(g: Config, s: State, cmd: Command, env: Env)
    requires ValidConfig(g) && Inv(g, s) && Confined(s) && Apply(g, s, cmd, env).Ok?
    ensures s.turn.current < |s.players| && Good(g, s)
    ensures Confined(Apply(g, s, cmd, env).s)
            <==> !(cmd.RollDice? && s.turn.phase == JailDecision && Lingers(g, s, s.turn.current, DiceOf(g, env)))
  {
    hide ValidConfig, Good, Inv, HandleSystem, DispatchOpen, Dispatch, Wrap, ResetStrikes, ComputeActions, Lingers, RolledPhase;
    InvGood(g, s);
    CurrentInRange(g, s);
    if cmd.RollDice? {
      RollPhases(g, s, cmd, env);
    } else if IsSystem(cmd) {
      var s1 := HandleSystem(g, s, cmd, env).0;
      SystemGood(g, s, cmd, env);
      SystemConfined(g, s, cmd, env);
      GoodImpliesRefs(g, s1);
      WrapConfined(g, s, s1, cmd, env.now);
    } else if IsOpen(cmd) {
      var s1 := DispatchOpen(g, s, cmd, env).s;
      DispatchOpenGood(g, s, cmd, env);
      ResetGood(g, s1, cmd.player);
      CurrentInRange(g, ResetStrikes(s1, cmd.player));
      OpenConfined(g, s, cmd, env);
      ResetConfined(s1, cmd.player);
    } else {
      var s1 := Dispatch(g, s, cmd, env).s;
      DispatchGood(g, s, cmd, env);
      ResetGood(g, s1, cmd.player);
      TurnConfined(g, s, cmd, env);
      ResetConfined(s1, cmd.player);
      GoodImpliesRefs(g, ResetStrikes(s1, cmd.player));
      WrapConfined(g, s, ResetStrikes(s1, cmd.player), cmd, env.now);
    }
  }

  // ---------------------------------------------------------------- what it means for the player

  /** A free player asked for the jail decision is still offered the fine, and the card if one is at hand, and is refused
      both; only the roll is left. */
  lemma DecisionOutOfJail(g: Config, s: State, cmd: Command, env: Env, env': Env)
    requires ValidConfig(g) && Inv(g, s) && cmd.RollDice? && Apply(g, s, cmd, env).Ok?
    requires s.turn.phase == JailDecision
    ensures s.turn.current < |s.players| && Good(g, s)
    ensures var i := s.turn.current;
            var s' := Apply(g, s, cmd, env).s;
            Lingers(g, s, i, DiceOf(g, env)) ==>
              && |s'.players| == |s.players|
              && (s'.turn.actions.canPayJailFine <==> s'.players[i].balance >= JAIL_FINE)
              && (s'.turn.actions.canUseJailCard <==> s'.players[i].jailCards > 0)
              && Apply(g, s', PayJailFine(i), env') == IllegalMove && Apply(g, s', UseJailCard(i), env') == IllegalMove
              && Apply(g, s', RollDice(i), env').Ok?
  {
    hide ValidConfig, Good, Inv, Lingers, RolledPhase, RollFate, Wrap, ResetStrikes, HandleSystem, DispatchOpen, ExecuteMove,
         BalanceAfter, HasAnyBuildable, HasAnyMortgageable, HasAnyUnmortgageable;
    InvGood(g, s);
    RollPhases(g, s, cmd, env);
    var s' := Apply(g, s, cmd, env).s;
    if Lingers(g, s, s.turn.current, DiceOf(g, env)) {
      FreeRoller(g, s', env');
      ActionsFresh(g, s, cmd, env);
    }
  }

  /** A player outside jail who may decide or roll can only roll. */
  lemma FreeRoller(g: Config, s: State, env: Env)
    requires ValidConfig(g) && Good(g, s) && s.turn.current < |s.players| && s.players[s.turn.current].jail.None?
    requires s.turn.phase == PreRoll || s.turn.phase == JailDecision
    ensures Apply(g, s, RollDice(s.turn.current), env).Ok?
    ensures Apply(g, s, PayJailFine(s.turn.current), env) == IllegalMove
    ensures Apply(g, s, UseJailCard(s.turn.current), env) == IllegalMove
  {
    hide ValidConfig, DeckKept, Wrap, ResetStrikes, HandleSystem, DispatchOpen, ExecuteMove;
  }

  /** The same roll before the jail decision is asked: without doubles a free player whose move ends with a card that moves
      nobody keeps the dice, and only such a player does. */
  lemma RollAgain(g: Config, s: State, cmd: Command, env: Env, env': Env)
    requires ValidConfig(g) && Inv(g, s) && cmd.RollDice? && Apply(g, s, cmd, env).Ok?
    requires s.turn.phase == PreRoll && !DiceOf(g, env).isDoubles
    ensures s.turn.current < |s.players| && Good(g, s)
    ensures var i := s.turn.current;
            var dice := DiceOf(g, env);
            var s' := Apply(g, s, cmd, env).s;
            var f := RollFate(g, s, i, dice);
            Apply(g, s', RollDice(i), env').Ok?
            <==> (f.stop.Card? || f.stop.Unresolved?) && !Defaults(g, s, i, dice.die1 + dice.die2, f)
  {
    hide ValidConfig, Good, Inv, RollFate, Wrap, ResetStrikes, HandleSystem, DispatchOpen, ExecuteMove, BalanceAfter,
         ComputeActions, Due;
    InvGood(g, s);
    RollPhases(g, s, cmd, env);
    BeforeFreeRoll(g, s);
    var s' := Apply(g, s, cmd, env).s;
    if s'.turn.phase == PreRoll {
      FreeRoller(g, s', env');
    }
  }

  lemma BeforeFreeRoll(g: Config, s: State)
    requires Inv(g, s) && s.turn.phase == PreRoll
    ensures s.turn.current < |s.players| && s.players[s.turn.current].jail.None?
  {
    hide DeckKept, Streets, Owns, Inventory, WorthFresh, Roster;
    assert Phases(g, s);
  }
}
