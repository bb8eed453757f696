/** `animation.py`: the animation a client replays tells the truth about the state it leads to. */
module Timeline {
  import opened GameTypes
  import opened Soundness
  import opened Worth
  import opened Payments
  import opened Landing
  import opened LandingLaws
  import opened LandingMoney
  import opened LandingChain
  import opened PropertyRules
  import opened Elimination
  import opened Handlers
  import opened Engine
  import opened Invariants
  import opened StepRoll
  import opened StepTable
  import opened Steps
  import opened Timers

  datatype Instruction =
    | ShowDice(player: Seat, die1: int, die2: int, isDoubles: bool)
    | Walk(player: Seat, from: int, to: int, fast: bool, byCard: bool)
    | ShowCard(card: CardId, drawer: Seat)
    | WaitForPlayer(turnNumber: int, card: CardId)

  function JailedIn(events: seq<Event>): set<Seat> {
    set k | 0 <= k < |events| && events[k].SentToJail? :: events[k].player
  }

  /** The instructions one event contributes. */
  function Shown(g: Config, number: int, jailed: set<Seat>, e: Event): seq<Instruction> {
    match e
    case PlayerMoved(i, from, to, _, byCard) => if i in jailed then [] else [Walk(i, from, to, byCard, byCard)]
    case CardDrawn(i, card) => if card !in g.cards then [] else [ShowCard(card, i), WaitForPlayer(number, card)]
    case _ => []
  }

  function Project(g: Config, number: int, jailed: set<Seat>, events: seq<Event>): seq<Instruction> {
    if events == [] then []
    else Shown(g, number, jailed, events[0]) + Project(g, number, jailed, events[1..])
  }

  /** `build_timeline`. */
  function TimelineOf(g: Config, cmd: Command, after: State, events: seq<Event>): seq<Instruction> {
    (if cmd.RollDice? && after.turn.dice.Some? then
       var d := after.turn.dice.value;
       [ShowDice(cmd.player, d.die1, d.die2, d.isDoubles)]
     else [])
    + Project(g, after.turn.number, JailedIn(events), events)
  }

  lemma {:induction false} ProjectSnoc(g: Config, number: int, jailed: set<Seat>, events: seq<Event>, e: Event)
    ensures Project(g, number, jailed, events + [e]) == Project(g, number, jailed, events) + Shown(g, number, jailed, e)
  {
    if events == [] {
      assert [e][1..] == [];
    } else {
      assert (events + [e])[1..] == events[1..] + [e];
      ProjectSnoc(g, number, jailed, events[1..], e);
    }
  }

  /** The list-building loop of the source. */
  method ProjectLoop(g: Config, number: int, jailed: set<Seat>, opening: seq<Instruction>, events: seq<Event>)
    returns (instructions: seq<Instruction>)
    ensures instructions == opening + Project(g, number, jailed, events)
  {
    instructions := opening;
    for k := 0 to |events|
      invariant instructions == opening + Project(g, number, jailed, events[..k])
    {
      hide Project;
      var event := events[k];
      ghost var before := instructions;
      assert events[..k + 1] == events[..k] + [event];
      ProjectSnoc(g, number, jailed, events[..k], event);
      if event.PlayerMoved? {
        if event.player in jailed {
          continue;
        }
        instructions := instructions + [Walk(event.player, event.from, event.to, event.byCard, event.byCard)];
      } else if event.CardDrawn? {
        if event.card !in g.cards {
          continue;
        }
        instructions := instructions + [ShowCard(event.card, event.player)];
        instructions := instructions + [WaitForPlayer(number, event.card)];
      }
      assert instructions == before + Shown(g, number, jailed, event);
    }
    assert events[..|events|] == events;
  }

  method BuildTimeline(g: Config, cmd: Command, after: State, events: seq<Event>) returns (instructions: seq<Instruction>)
    ensures instructions == TimelineOf(g, cmd, after, events)
  {
    instructions := [];
    if cmd.RollDice? && after.turn.dice.Some? {
      var d := after.turn.dice.value;
      instructions := [ShowDice(cmd.player, d.die1, d.die2, d.isDoubles)];
    }
    instructions := ProjectLoop(g, after.turn.number, JailedIn(events), instructions, events);
  }

  // ---------------------------------------------------------------- what a viewer sees

  /** Follows the walks of player `i` from square `from`; `None` if one starts elsewhere. */
  function Follow(instructions: seq<Instruction>, i: Seat, from: int): Option<int> {
    if instructions == [] then Some(from)
    else if instructions[0].Walk? && instructions[0].player == i then
      if instructions[0].from == from then Follow(instructions[1..], i, instructions[0].to) else None
    else Follow(instructions[1..], i, from)
  }

  predicate NobodyWalks(instructions: seq<Instruction>) {
    forall k :: 0 <= k < |instructions| ==> !instructions[k].Walk?
  }

  function CardsShown(instructions: seq<Instruction>): nat {
    if instructions == [] then 0
    else (if instructions[0].ShowCard? then 1 else 0) + CardsShown(instructions[1..])
  }

  /** Every card shown is followed by a pause that belongs to this turn and this card, and there is no
      other pause. */
  predicate Paused(instructions: seq<Instruction>, number: int) {
    && (forall k :: 0 <= k < |instructions| && instructions[k].ShowCard? ==>
          k + 1 < |instructions| && instructions[k + 1] == WaitForPlayer(number, instructions[k].card))
    && (forall k :: 0 <= k < |instructions| && instructions[k].WaitForPlayer? ==>
          0 < k && instructions[k - 1].ShowCard? && instructions[k] == WaitForPlayer(number, instructions[k - 1].card))
  }

  lemma {:induction false} FollowConcat(a: seq<Instruction>, b: seq<Instruction>, i: Seat, from: int)
    ensures Follow(a + b, i, from) == if Follow(a, i, from).Some? then Follow(b, i, Follow(a, i, from).value) else None
  {
    if a == [] {
      assert a + b == b;
    } else {
      assert (a + b)[1..] == a[1..] + b;
      FollowConcat(a[1..], b, i, if a[0].Walk? && a[0].player == i then a[0].to else from);
    }
  }

  lemma {:induction false} CardsShownConcat(a: seq<Instruction>, b: seq<Instruction>)
    ensures CardsShown(a + b) == CardsShown(a) + CardsShown(b)
  {
    if a == [] {
      assert a + b == b;
    } else {
      assert (a + b)[1..] == a[1..] + b;
      CardsShownConcat(a[1..], b);
    }
  }

  lemma ShownFollow(g: Config, number: int, jailed: set<Seat>, e: Event, i: Seat, from: int)
    requires i !in jailed
    ensures Follow(Shown(g, number, jailed, e), i, from) == Replay([e], i, from)
  {
    var one := Shown(g, number, jailed, e);
    assert [e][1..] == [];
    if |one| == 2 {
      assert one[1..] == [one[1]] && [one[1]][1..] == [];
      assert Follow([one[1]], i, from) == Some(from);
    } else if |one| == 1 {
      assert one[1..] == [];
    }
  }

  /** Replaying the animation is replaying the events. */
  lemma {:induction false} FollowIsReplay(g: Config, number: int, jailed: set<Seat>, events: seq<Event>, i: Seat, from: int)
    requires i !in jailed
    ensures Follow(Project(g, number, jailed, events), i, from) == Replay(events, i, from)
  {
    if events != [] {
      var e := events[0];
      ShownFollow(g, number, jailed, e, i, from);
      FollowConcat(Shown(g, number, jailed, e), Project(g, number, jailed, events[1..]), i, from);
      assert events == [e] + events[1..];
      ReplayConcat([e], events[1..], i, from);
      if Replay([e], i, from).Some? {
        FollowIsReplay(g, number, jailed, events[1..], i, Replay([e], i, from).value);
      }
    }
  }

  lemma {:induction false} NoWalks(g: Config, number: int, jailed: set<Seat>, events: seq<Event>)
    requires forall k :: 0 <= k < |events| && events[k].PlayerMoved? ==> events[k].player in jailed
    ensures NobodyWalks(Project(g, number, jailed, events))
  {
    if events != [] {
      NoWalks(g, number, jailed, events[1..]);
    }
  }

  lemma {:induction false} CardsAreDraws(g: Config, number: int, jailed: set<Seat>, events: seq<Event>)
    ensures CardsShown(Project(g, number, jailed, events)) <= Draws(events)
  {
    if events != [] {
      var one := Shown(g, number, jailed, events[0]);
      CardsAreDraws(g, number, jailed, events[1..]);
      CardsShownConcat(one, Project(g, number, jailed, events[1..]));
      assert one != [] ==> one[1..] == if |one| == 2 then [one[1]] else [];
      assert |one| == 2 ==> one[1..][1..] == [];
    }
  }

  lemma PausedConcat(a: seq<Instruction>, b: seq<Instruction>, number: int)
    requires Paused(a, number) && Paused(b, number)
    ensures Paused(a + b, number)
  {
    var c := a + b;
    forall k | 0 <= k < |c| && c[k].ShowCard?
      ensures k + 1 < |c| && c[k + 1] == WaitForPlayer(number, c[k].card)
    {
      if k >= |a| {
        assert b[k - |a|].ShowCard?;
      }
    }
    forall k | 0 <= k < |c| && c[k].WaitForPlayer?
      ensures 0 < k && c[k - 1].ShowCard? && c[k] == WaitForPlayer(number, c[k - 1].card)
    {
      if k >= |a| {
        assert b[k - |a|].WaitForPlayer?;
      }
    }
  }

  lemma {:induction false} ProjectPauses(g: Config, number: int, jailed: set<Seat>, events: seq<Event>)
    ensures Paused(Project(g, number, jailed, events), number)
  {
    if events != [] {
      ProjectPauses(g, number, jailed, events[1..]);
      PausedConcat(Shown(g, number, jailed, events[0]), Project(g, number, jailed, events[1..]), number);
    }
  }

  // ---------------------------------------------------------------- the whole command

  /** Where a roll is accepted. */
  lemma RollAccepted(g: Config, s: State, i: Seat, env: Env)
    requires ValidConfig(g) && Inv(g, s) && Apply(g, s, RollDice(i), env).Ok?
    ensures i == s.turn.current && i < |s.players| && s.turn.pending.None? && s.bankruptcy.None? && Roll(g, s, i, env).Ok?
  {
    hide ValidConfig, DeckKept, Roll, Wrap, ResetStrikes, ActiveSeats, Streets, Owns, Inventory, WorthFresh;
    RollCases(g, s, i, env);
    assert Live(g, s);
  }

  lemma SettleStays(g: Config, s: State, i: Seat)
    requires GoodRefs(g, s) && i < |s.players|
    ensures var r := TrySettleDebt(g, s);
            && r.players[i].position == s.players[i].position && r.players[i].jail == s.players[i].jail
            && r.turn.dice == s.turn.dice && r.turn.number == s.turn.number
  {
    hide Assets;
  }

  /** What `apply` adds after a handler moves nobody and frees or jails nobody. */
  lemma WrapStays(g: Config, before: State, s: State, cmd: Command, now: int, i: Seat)
    requires GoodRefs(g, s) && i < |s.players|
    ensures var r := Wrap(g, before, s, cmd, now);
            && |r.players| == |s.players| && r.players[i].position == s.players[i].position
            && r.players[i].jail == s.players[i].jail && r.turn.dice == s.turn.dice && r.turn.number == s.turn.number
  {
    hide ActiveSeats, ComputeActions, TrySettleDebt;
    SettleStays(g, ClearCard(before, s, cmd), i);
  }

  /** What an accepted roll leaves behind, after everything `apply` adds. */
  lemma AppliedRoll(g: Config, s: State, i: Seat, env: Env)
    requires ValidConfig(g) && Good(g, s) && i == s.turn.current && i < |s.players| && Roll(g, s, i, env).Ok?
    requires s.bankruptcy.None? && s.turn.pending.None?
    ensures Apply(g, s, RollDice(i), env).Ok?
    ensures var r := Apply(g, s, RollDice(i), env);
            var roll := Roll(g, s, i, env);
            && r.events == roll.events && |r.s.players| == |s.players| == |roll.s.players|
            && r.s.players[i].position == roll.s.players[i].position
            && r.s.players[i].jail == roll.s.players[i].jail
            && r.s.turn.dice == roll.s.turn.dice && r.s.turn.number == roll.s.turn.number
  {
    hide ValidConfig, Good, Roll, Wrap, Rolled, RollTouches;
    RollShape(g, s, i, env);
    var s2 := ResetStrikes(Roll(g, s, i, env).s, i);
    GoodImpliesRefs(g, s2) by { RollGood(g, s, env); ResetGood(g, Roll(g, s, i, env).s, i); }
    WrapStays(g, s, s2, RollDice(i), env.now, i);
  }

  lemma RolledDice(g: Config, s: State, i: Seat, env: Env)
    requires ValidConfig(g) && Good(g, s) && i < |s.players| && Roll(g, s, i, env).Ok?
    requires s.bankruptcy.None? && s.turn.pending.None?
    ensures Roll(g, s, i, env).s.turn.dice == Some(DiceOf(g, env)) && Roll(g, s, i, env).s.turn.number == s.turn.number
  {
    hide ValidConfig, DeckKept, Roll, DiceWalk, ResolveLanding, Assets, StaysPut;
    RollCases(g, s, i, env);
    RollShape(g, s, i, env);
    assert Roll(g, s, i, env).s.turn.number == s.turn.number;
  }

  /** The animation of a roll starts with the dice.  Its walks form one connected path from the square
      the roller stood on to the square the roller stands on in the new state, through every card drawn
      on the way; a roller who is sent to jail is shown no walk at all and stands on the jail square.  At
      most four cards are shown, each followed by a pause of this very turn. */
  lemma RollTimeline(g: Config, s: State, i: Seat, env: Env)
    requires ValidConfig(g) && Inv(g, s) && Apply(g, s, RollDice(i), env).Ok?
    ensures var r := Apply(g, s, RollDice(i), env);
            var timeline := TimelineOf(g, RollDice(i), r.s, r.events);
            var dice := DiceOf(g, env);
            && i < |s.players| == |r.s.players|
            && timeline != [] && timeline[0] == ShowDice(i, dice.die1, dice.die2, dice.isDoubles)
            && (if SaysJailed(r.events, i)
                then NobodyWalks(timeline) && r.s.players[i].position == g.jail && r.s.players[i].jail.Some?
                else Follow(timeline, i, s.players[i].position) == Some(r.s.players[i].position))
            && CardsShown(timeline) <= CARD_LANDING_RECURSION_LIMIT + 1
            && Paused(timeline, s.turn.number)
  {
    hide ValidConfig, Inv, Good, Live, Apply, Roll, Follow, Replay, Project, CardsShown, Draws;
    InvParts(g, s);
    RollAccepted(g, s, i, env);
    AppliedRoll(g, s, i, env);
    RolledDice(g, s, i, env);
    RollTells(g, s, i, env);
    var r := Apply(g, s, RollDice(i), env);
    var dice := DiceOf(g, env);
    var number := s.turn.number;
    var jailed := JailedIn(r.events);
    var opening := [ShowDice(i, dice.die1, dice.die2, dice.isDoubles)];
    var rest := Project(g, number, jailed, r.events);
    assert TimelineOf(g, RollDice(i), r.s, r.events) == opening + rest;
    StoryShown(g, s, Roll(g, s, i, env).s, r.events, i, ForcedFine(g, s, i, dice), number);
    ProjectPauses(g, number, jailed, r.events);
    PausedConcat(opening, rest, number);
    CardsAreDraws(g, number, jailed, r.events);
    CardsShownConcat(opening, rest);
    FollowConcat(opening, rest, i, s.players[i].position);
    OpeningFollow(opening[0], i, s.players[i].position);
  }

  lemma OpeningFollow(dice: Instruction, i: Seat, from: int)
    requires dice.ShowDice?
    ensures Follow([dice], i, from) == Some(from) && CardsShown([dice]) == 0
  {
    assert [dice][1..] == [];
  }

  /** The walks of a roll's events, projected. */
  lemma StoryShown(g: Config, a: State, b: State, events: seq<Event>, i: Seat, fine: int, number: int)
    requires i < |a.players| && i < |b.players| && RollStory(g, a, b, events, i, fine)
    ensures var rest := Project(g, number, JailedIn(events), events);
            if SaysJailed(events, i) then NobodyWalks(rest)
            else Follow(rest, i, a.players[i].position) == Some(b.players[i].position)
  {
    hide Follow, Replay, Project, Draws, WorthFresh;
    var jailed := JailedIn(events);
    if SaysJailed(events, i) {
      NoWalks(g, number, jailed, events);
    } else {
      FollowIsReplay(g, number, jailed, events, i, a.players[i].position);
    }
  }

  /** Events that show nothing. */
  predicate Unshown(events: seq<Event>) {
    forall k :: 0 <= k < |events| ==> !events[k].PlayerMoved? && !events[k].CardDrawn?
  }

  lemma {:induction false} UnshownProject(g: Config, number: int, jailed: set<Seat>, events: seq<Event>)
    requires Unshown(events)
    ensures Project(g, number, jailed, events) == []
  {
    if events != [] {
      UnshownProject(g, number, jailed, events[1..]);
    }
  }

  lemma HandlersUnshown(g: Config, s: State, cmd: Command, env: Env)
    requires ValidConfig(g) && Good(g, s) && !cmd.RollDice?
    ensures IsSystem(cmd) ==> Unshown(HandleSystem(g, s, cmd, env).1)
    ensures IsOpen(cmd) && DispatchOpen(g, s, cmd, env).Ok? ==> Unshown(DispatchOpen(g, s, cmd, env).events)
    ensures !IsSystem(cmd) && !IsOpen(cmd) && cmd.player == s.turn.current && Dispatch(g, s, cmd, env).Ok? ==>
              Unshown(Dispatch(g, s, cmd, env).events)
  {
    hide ValidConfig, DeckKept, Exchange, CheckPositions, ResolveSurrender, ResolveBankruptcy, ResolveAuction, AdvanceOff,
         Acquire, Rework, CanBuildOn, CanSellOn, CanMortgage, CanUnmortgage, ActiveSeats;
    SurvivorsInRange(s.players, |s.players|);
  }

  /** No other command shows anything. */
  lemma OtherTimelines(g: Config, s: State, cmd: Command, env: Env)
    requires ValidConfig(g) && Good(g, s) && !cmd.RollDice? && Apply(g, s, cmd, env).Ok?
    ensures var r := Apply(g, s, cmd, env); TimelineOf(g, cmd, r.s, r.events) == []
  {
    hide ValidConfig, Good, Wrap, Stamp, ResetStrikes, HandleSystem, DispatchOpen, Dispatch;
    var r := Apply(g, s, cmd, env);
    HandlersUnshown(g, s, cmd, env);
    UnshownProject(g, r.s.turn.number, JailedIn(r.events), r.events);
  }

  // ---------------------------------------------------------------- the card on display

  /** The first card a list of events draws. */
  function FirstDraw(events: seq<Event>): Option<ActiveCard> {
    if events == [] then None
    else if events[0].CardDrawn? then Some(ActiveCard(events[0].card, events[0].player))
    else FirstDraw(events[1..])
  }

  lemma {:induction false} FirstDrawConcat(a: seq<Event>, b: seq<Event>)
    ensures FirstDraw(a + b) == if FirstDraw(a).Some? then FirstDraw(a) else FirstDraw(b)
  {
    if a == [] {
      assert a + b == b;
    } else {
      assert (a + b)[1..] == a[1..] + b;
      FirstDrawConcat(a[1..], b);
    }
  }

  lemma {:induction false} NoFirstDraw(events: seq<Event>)
    requires forall k :: 0 <= k < |events| ==> !events[k].CardDrawn?
    ensures FirstDraw(events).None?
  {
    if events != [] {
      NoFirstDraw(events[1..]);
    }
  }

  /** The card a landing leaves on display: the first it drew, or the one that was there. */
  predicate Displays(before: Option<ActiveCard>, events: seq<Event>, after: Option<ActiveCard>) {
    after == if FirstDraw(events).Some? then FirstDraw(events) else before
  }

  lemma PlainDisplays(g: Config, s: State, i: Seat, dice: DiceRoll, multiplier: int)
    requires Good(g, s) && i < |s.players|
    ensures var r := LandOnPlainSquare(g, s, i, dice, multiplier); Displays(s.activeCard, r.events, r.s.activeCard)
  {
    hide DeckKept, Assets, CalculateRent, FirstDraw, LandAndPay;
    var pos := s.players[i].position;
    var space := SpaceAt(g, pos);
    var t := TileAt(s.tiles, pos);
    if space.kind == Tax && space.tax.Some? {
      PaidDisplays(g, s, i, None, space.tax.value, PostRoll, TaxPaid(i, pos, space.tax.value));
    } else if IsPurchasable(g, pos) && t.owner.Some? && t.owner.value != i {
      var rent := CalculateRent(g, s.tiles, pos, dice.die1 + dice.die2, multiplier);
      PaidDisplays(g, s, i, t.owner, rent, MustPayRent, RentPaid(i, t.owner.value, pos, rent));
    }
    NoFirstDraw(LandOnPlainSquare(g, s, i, dice, multiplier).events);
  }

  lemma PaidDisplays(g: Config, s: State, i: Seat, creditor: Option<Seat>, amount: int, phase: Phase, event: Event)
    requires i < |s.players|
    requires creditor.Some? ==> creditor.value < |s.players|
    ensures var r := LandAndPay(g, s, i, creditor, amount, phase, event);
            r.s.activeCard == s.activeCard && (r.events == [] || r.events == [event])
  {
    hide Assets, AttemptPayment;
    PaymentFrame(g, Refresh(g, s), i, creditor, amount);
  }

  lemma LandingDisplays(g: Config, s: State, i: Seat, dice: DiceRoll, depth: nat, multiplier: int, env: Env)
    requires ValidConfig(g) && Good(g, s) && i < |s.players| && depth <= CARD_LANDING_RECURSION_LIMIT
    ensures var r := ResolveLanding(g, s, i, dice, depth, multiplier, env); Displays(s.activeCard, r.events, r.s.activeCard)
    decreases CARD_LANDING_RECURSION_LIMIT - depth, Rank(g, s.players[i].position)
  {
    hide ValidConfig, Good, LandOnPlainSquare, DrawCard;
    var pos := s.players[i].position;
    if IsCardSquare(g, pos) && SpaceAt(g, pos).corner != Some(GotoJail) {
      CardSquareDeck(g, s, i);
      MoneyOnlyGood(g, s, Refresh(g, s));
    } else {
      PlainDisplays(g, s, i, dice, multiplier);
    }
  }

  lemma WalkDisplays(g: Config, s: State, i: Seat, steps: int)
    requires ValidConfig(g) && Good(g, s) && i < |s.players|
    ensures var (s1, walk) := DiceWalk(g, s, i, steps); s1.activeCard == s.activeCard && FirstDraw(walk).None?
  {
    hide ValidConfig, DeckKept, Assets, FirstDraw;
    NoFirstDraw(DiceWalk(g, s, i, steps).1);
  }

  lemma MovedDisplays(g: Config, s: State, i: Seat, dice: DiceRoll, extraRoll: bool, env: Env)
    requires ValidConfig(g) && Good(g, s) && i < |s.players|
    ensures var (s', events) := ExecuteMove(g, s, i, dice, extraRoll, env); Displays(s.activeCard, events, s'.activeCard)
  {
    hide ValidConfig, Good, DiceWalk, ResolveLanding;
    var (s1, walk) := DiceWalk(g, s, i, dice.die1 + dice.die2);
    var streak := if dice.isDoubles then s.turn.streak + 1 else 0;
    var doubles := if dice.isDoubles && extraRoll then [RolledDoubles(i, streak)] else [];
    WalkDisplays(g, s, i, dice.die1 + dice.die2);
    LandingDisplays(g, s1, i, dice, 0, 1, env);
    assert doubles != [] ==> doubles[1..] == [];
    FirstDrawConcat(walk, doubles);
    FirstDrawConcat(walk + doubles, ResolveLanding(g, s1, i, dice, 0, 1, env).events);
  }

  lemma RollDisplays(g: Config, s: State, i: Seat, env: Env)
    requires ValidConfig(g) && Good(g, s) && i < |s.players| && Roll(g, s, i, env).Ok?
    ensures Displays(s.activeCard, Roll(g, s, i, env).events, Roll(g, s, i, env).s.activeCard)
  {
    hide ValidConfig, DeckKept, Roll, ExecuteMove, Assets, FirstDraw;
    RollCases(g, s, i, env);
    var dice := DiceOf(g, env);
    if StaysPut(s, i, dice) {
      NoFirstDraw(Roll(g, s, i, env).events);
    } else {
      var s1 := WithPlayer(s, i, Freed(g, s, i, dice));
      var extraRoll := ExtraRoll(s, i, dice);
      MovedDisplays(g, s1, i, dice, extraRoll, env);
    }
  }

  lemma WrapDisplays(g: Config, before: State, s: State, cmd: Command, now: int)
    requires GoodRefs(g, s) && cmd.RollDice?
    ensures Wrap(g, before, s, cmd, now).activeCard == if before.activeCard.Some? then None else s.activeCard
  {
    hide ActiveSeats, ComputeActions, TrySettleDebt;
    SettleKeeps(g, ClearCard(before, s, cmd));
  }

  /** The card on display after a roll is the first of the cards drawn in it - unless a card was on display
      before the roll: then nothing is, whatever the roll drew. */
  lemma CardOnDisplay(g: Config, s: State, i: Seat, env: Env)
    requires ValidConfig(g) && Good(g, s) && Apply(g, s, RollDice(i), env).Ok?
    ensures var r := Apply(g, s, RollDice(i), env);
            r.s.activeCard == if s.activeCard.Some? then None else FirstDraw(r.events)
  {
    hide ValidConfig, Good, Roll, Wrap, FirstDraw;
    CurrentInRange(g, s);
    RollDisplays(g, s, i, env);
    var s2 := ResetStrikes(Roll(g, s, i, env).s, i);
    GoodImpliesRefs(g, s2) by { RollGood(g, s, env); ResetGood(g, Roll(g, s, i, env).s, i); }
    WrapDisplays(g, s, s2, RollDice(i), env.now);
  }

  // ---------------------------------------------------------------- jail ends the roll

  lemma JailedMove(g: Config, s: State, i: Seat, dice: DiceRoll, extraRoll: bool, env: Env)
    requires ValidConfig(g) && Good(g, s) && i < |s.players| && s.bankruptcy.None? && s.turn.pending.None?
    requires SaysJailed(ExecuteMove(g, s, i, dice, extraRoll, env).1, i)
    ensures var s' := ExecuteMove(g, s, i, dice, extraRoll, env).0;
            i < |s'.players| && s'.turn.phase == PostRoll && s'.turn.streak == 0 && s'.turn.pending.None? && s'.bankruptcy.None?
            && s'.players[i].jail == Some(JAIL_TURNS_INITIAL) && s'.players[i].position == g.jail
  {
    hide ValidConfig, Good, DiceWalk, ResolveLanding, Touches, Replay, Draws, MovesOnly, Flow, Money, JailTotal;
    var (s1, walk) := DiceWalk(g, s, i, dice.die1 + dice.die2);
    var r := ResolveLanding(g, s1, i, dice, 0, 1, env);
    var streak := if dice.isDoubles then s.turn.streak + 1 else 0;
    var doubles := if dice.isDoubles && extraRoll then [RolledDoubles(i, streak)] else [];
    assert !SaysJailed(walk, i) ==> !SaysJailed(walk + doubles, i);
    WalkStory(g, s, i, dice.die1 + dice.die2, false);
    WalkQuiet(g, s, i, dice.die1 + dice.die2);
    LandingTouches(g, s1, i, dice, 0, 1, env);
    LandingSaysJailed(g, s1, i, dice, env);
    JailedTail(walk + doubles, r.events, i);
  }

  lemma LandingSaysJailed(g: Config, s: State, i: Seat, dice: DiceRoll, env: Env)
    requires ValidConfig(g) && Good(g, s) && i < |s.players| && s.bankruptcy.None?
    ensures var r := ResolveLanding(g, s, i, dice, 0, 1, env); r.jailed <==> SaysJailed(r.events, i)
  {
    hide ValidConfig, Good, ResolveLanding, Replay, Draws, MovesOnly, SaysJailed, Flow, Money, JailTotal, WorthFresh;
    LandingChains(g, s, i, dice, 0, 1, env);
  }

  lemma JailedTail(a: seq<Event>, b: seq<Event>, i: Seat)
    requires SaysJailed(a + b, i) && !SaysJailed(a, i)
    ensures SaysJailed(b, i)
  {
    var all := a + b;
    var k :| 0 <= k < |all| && all[k].SentToJail? && all[k].player == i;
    assert k >= |a|;
    assert b[k - |a|] == all[k];
  }

  lemma WalkQuiet(g: Config, s: State, i: Seat, steps: int)
    requires ValidConfig(g) && Good(g, s) && i < |s.players|
    ensures DiceWalk(g, s, i, steps).0 == s.(players := DiceWalk(g, s, i, steps).0.players)
  {
    hide ValidConfig, DeckKept, Assets;
  }

  /** Whatever sends the roller to jail - three doubles, the corner or a card at the end of any chain - ends
      the roll: no extra roll, nothing to buy, no debt, and a fresh term on the jail square. */
  lemma JailEndsRoll(g: Config, s: State, i: Seat, env: Env)
    requires ValidConfig(g) && Good(g, s) && i < |s.players| && Roll(g, s, i, env).Ok?
    requires s.bankruptcy.None? && s.turn.pending.None? && SaysJailed(Roll(g, s, i, env).events, i)
    ensures var s' := Roll(g, s, i, env).s;
            i < |s'.players| && s'.turn.phase == PostRoll && s'.turn.streak == 0 && s'.turn.pending.None? && s'.bankruptcy.None?
            && s'.players[i].jail == Some(JAIL_TURNS_INITIAL) && s'.players[i].position == g.jail
  {
    hide ValidConfig, DeckKept, Roll, ExecuteMove, Assets;
    RollCases(g, s, i, env);
    var dice := DiceOf(g, env);
    if !StaysPut(s, i, dice) {
      var s1 := WithPlayer(s, i, Freed(g, s, i, dice));
      var extraRoll := ExtraRoll(s, i, dice);
      JailedMove(g, s1, i, dice, extraRoll, env);
    }
  }
}
