/** The command handlers of `engine.py`, with `rules/actions.py` and `rules/turn_timer.py`. */
module Handlers {
  import opened GameTypes
  import opened Seqs
  import opened Soundness
  import opened Worth
  import opened Payments
  import opened Landing
  import opened PropertyRules
  import opened Elimination

  // ---------------------------------------------------------------- actions and timers

  /** `compute_actions`. */
  function ComputeActions(g: Config, s: State, who: Seat): ActionSet
    requires who < |s.players|
  {
    var p := s.players[who];
    var phase := s.turn.phase;
    if phase == Auctioning then
      NO_ACTIONS.(canBid := !p.bankrupt && s.auction.Some? && s.auction.value.leader != Some(who)
                            && p.balance > s.auction.value.highest)
    else if phase == Negotiating || who != s.turn.current then NO_ACTIONS
    else if phase == JailDecision then
      NO_ACTIONS.(canRoll := true, canPayJailFine := p.balance >= JAIL_FINE,
                  canUseJailCard := p.jailCards > 0, canSurrender := true)
    else if phase == PreRoll then
      NO_ACTIONS.(canRoll := true, canBuild := HasAnyBuildable(g, s, who),
                  canMortgage := HasAnyMortgageable(g, s, who), canUnmortgage := HasAnyUnmortgageable(g, s, who),
                  canTrade := s.trade.None? && !s.finished && s.turn.tradeOffers < MAX_TRADE_OFFERS_PER_TURN,
                  canSurrender := true)
    else if phase == PostRoll then
      NO_ACTIONS.(canBuy := s.turn.pending.Some? && TileAt(s.tiles, s.turn.pending.value).owner.None?,
                  canBuild := HasAnyBuildable(g, s, who),
                  canMortgage := HasAnyMortgageable(g, s, who), canUnmortgage := HasAnyUnmortgageable(g, s, who),
                  canTrade := s.trade.None? && s.turn.tradeOffers < MAX_TRADE_OFFERS_PER_TURN,
                  canEndTurn := s.turn.pending.None?, canSurrender := true)
    else if phase == MustPayRent then NO_ACTIONS.(canEndTurn := true, canSurrender := true)
    else if phase == Bankrupting then
      NO_ACTIONS.(canBuild := HasAnyBuildable(g, s, who),
                  canMortgage := HasAnyMortgageable(g, s, who), canUnmortgage := HasAnyUnmortgageable(g, s, who),
                  canDeclareBankruptcy := true, canEndTurn := s.bankruptcy.None?)
    else NO_ACTIONS
  }

  /** `with_actions`. */
  function WithActions(g: Config, s: State): State
    requires s.turn.current < |s.players|
  {
    s.(turn := s.turn.(actions := ComputeActions(g, s, s.turn.current)))
  }

  predicate IsActivePhase(phase: Phase) {
    phase == PreRoll || phase == JailDecision || phase == PostRoll || phase == MustPayRent
  }

  /** `is_turn_expired`. */
  predicate TurnExpired(s: State, now: int) {
    s.turn.deadline.Some? && now >= s.turn.deadline.value && IsActivePhase(s.turn.phase)
  }

  function WithDeadline(g: Config, s: State, now: int): State {
    s.(turn := s.turn.(deadline := Some(now + g.turnTimeout)))
  }

  // ---------------------------------------------------------------- rolling

  function DiceOf(g: Config, env: Env): DiceRoll {
    var die2 := if g.diceCount == 1 then 0 else env.die2;
    DiceRoll(env.die1, die2, env.die1 == die2)
  }

  lemma MoveGood(g: Config, s: State, i: Seat, p: Player)
    requires Good(g, s) && i < |s.players| && OnBoard(g, p.position)
    ensures Good(g, WithPlayer(s, i, p))
  {
    GoodFrame(g, s, WithPlayer(s, i, p));
  }

  /** The part of `_execute_move` before the landing: the dice walk and the salary. */
  function DiceWalk(g: Config, s: State, i: Seat, steps: int): (r: (State, seq<Event>))
    requires ValidConfig(g) && Good(g, s) && i < |s.players|
    ensures Good(g, r.0) && |r.0.players| == |s.players|
  {
    var p := s.players[i];
    var (to, passed) := AdvancePosition(g, p.position, steps);
    var s1 := WithPlayer(s, i, p.(position := to));
    MoveGood(g, s, i, p.(position := to));
    var (s2, goEvents) := GoSalary(g, s1, i, passed);
    MoneyOnlyGood(g, s1, s2);
    (s2, [PlayerMoved(i, p.position, to, steps, false)] + goEvents)
  }

  /** The turn after a landing, as `_execute_move` sets it. */
  function TurnAfterMove(r: Landed, dice: DiceRoll, extraRoll: bool, streak: int): Turn {
    var turn := r.s.turn.(dice := Some(dice));
    if r.jailed || r.s.bankruptcy.Some? then
      turn.(streak := 0, phase := if r.jailed then PostRoll else turn.phase)
    else if dice.isDoubles && extraRoll then
      if turn.pending.Some? then turn.(streak := streak, phase := PostRoll)
      else turn.(streak := streak, phase := PreRoll)
    else turn.(streak := 0)
  }

  /** `_execute_move`. */
  function ExecuteMove(g: Config, s: State, i: Seat, dice: DiceRoll, extraRoll: bool, env: Env): (State, seq<Event>)
    requires ValidConfig(g) && Good(g, s) && i < |s.players|
  {
    var (s1, walk) := DiceWalk(g, s, i, dice.die1 + dice.die2);
    var streak := if dice.isDoubles then s.turn.streak + 1 else 0;
    var doubles := if dice.isDoubles && extraRoll then [RolledDoubles(i, streak)] else [];
    var r := ResolveLanding(g, s1, i, dice, 0, 1, env);
    (r.s.(turn := TurnAfterMove(r, dice, extraRoll, streak)), walk + doubles + r.events)
  }

  /** `_handle_roll_dice`. */
  function Roll(g: Config, s: State, i: Seat, env: Env): Outcome
    requires ValidConfig(g) && Good(g, s) && i < |s.players|
  {
    var phase := s.turn.phase;
    var p := s.players[i];
    var dice := DiceOf(g, env);
    var idle := s.turn.(dice := Some(dice), streak := 0, phase := PostRoll, pending := None);
    if phase != PreRoll && phase != JailDecision then IllegalMove
    else if p.jail.Some? && phase == PreRoll then IllegalMove
    else if p.jail.Some? then
      if dice.isDoubles then
        MoveGood(g, s, i, p.(jail := None));
        var (s', events) := ExecuteMove(g, WithPlayer(s, i, p.(jail := None)), i, dice, false, env);
        Ok(s', events)
      else if p.jail.value - 1 > 0 then
        Ok(WithPlayer(s, i, Refreshed(g, s.tiles, p.(jail := Some(p.jail.value - 1)))).(turn := idle), [])
      else
        MoveGood(g, s, i, p.(jail := None, balance := p.balance - g.jailFine));
        var (s', events) :=
          ExecuteMove(g, WithPlayer(s, i, p.(jail := None, balance := p.balance - g.jailFine)), i, dice, false, env);
        Ok(s', events)
    else if dice.isDoubles && s.turn.streak + 1 >= DOUBLES_JAIL_THRESHOLD then
      Ok(WithPlayer(s, i, Refreshed(g, s.tiles, SendToJail(g, p))).(turn := idle), [SentToJail(i, ByDoubles)])
    else
      var (s', events) := ExecuteMove(g, s, i, dice, dice.isDoubles, env);
      Ok(s', events)
  }

  // ---------------------------------------------------------------- the other handlers

  function Buy(g: Config, s: State, i: Seat, p: int): Outcome
    requires i < |s.players|
  {
    var price := SpaceAt(g, p).price;
    if s.turn.phase != PostRoll && s.turn.phase != MustPayRent then IllegalMove
    else if s.turn.pending != Some(p) then IllegalMove
    else if !IsPurchasable(g, p) || TileAt(s.tiles, p).owner.Some? || price.None? then IllegalMove
    else if s.players[i].balance < price.value then IllegalMove
    else
      var s1 := Acquire(g, s, i, p, price.value, Sorted(s.players[i].owned + [p]));
      Ok(s1.(turn := s.turn.(pending := None, phase := if s.turn.streak > 0 then PreRoll else s.turn.phase)),
         [PropertyBought(i, p, price.value)])
  }

  function Pass(s: State, i: Seat, env: Env): Outcome {
    if s.turn.phase != PostRoll && s.turn.phase != MustPayRent then IllegalMove
    else if s.turn.pending.None? then IllegalMove
    else Ok(StartAuction(s, s.turn.pending.value, env.now), [BuyDeclined(i, s.turn.pending.value)])
  }

  function IndexOf(xs: seq<Seat>, x: Seat): (k: nat)
    ensures k <= |xs|
    ensures k < |xs| ==> xs[k] == x
    ensures k == |xs| ==> x !in xs
  {
    if xs == [] then 0 else if xs[0] == x then 0 else 1 + IndexOf(xs[1..], x)
  }

  /** The list-and-index arithmetic of `_handle_end_turn`: the next seat, and whether a round ends. */
  function NextInList(active: seq<Seat>, k: nat): (Seat, bool)
    requires k < |active|
  {
    var next := SeatAfter(|active|, k, 1);
    (active[next], next <= k)
  }

  function End(s: State, i: Seat): Outcome
    requires forall k :: 0 <= k < |Survivors(s)| ==> Survivors(s)[k] < |s.players|
  {
    if s.turn.phase != PostRoll && s.turn.phase != MustPayRent && s.turn.phase != Bankrupting then IllegalMove
    else if s.turn.pending.Some? || s.bankruptcy.Some? then IllegalMove
    else
      var active := Survivors(s);
      var k := IndexOf(active, s.turn.current);
      if k == |active| then Fault
      else
        var (next, wrapped) := NextInList(active, k);
        Ok(s.(turn := TurnFor(s, next, wrapped)), [TurnEnded(i, next)])
  }

  function PayFine(g: Config, s: State, i: Seat): Outcome
    requires i < |s.players|
  {
    var p := s.players[i];
    if s.turn.phase != JailDecision || p.jail.None? || p.balance < g.jailFine then IllegalMove
    else
      var freed := Refreshed(g, s.tiles, p.(jail := None, balance := p.balance - g.jailFine));
      Ok(WithPhase(WithPlayer(s, i, freed), PreRoll), [])
  }

  function UseCard(g: Config, s: State, i: Seat): Outcome
    requires i < |s.players|
  {
    var p := s.players[i];
    if s.turn.phase != JailDecision || p.jail.None? || p.jailCards <= 0 then IllegalMove
    else
      var freed := Refreshed(g, s.tiles, p.(jail := None, jailCards := p.jailCards - 1));
      Ok(WithPhase(WithPlayer(s, i, freed), PreRoll).(chanceDeck := s.chanceDeck + [CHANCE_JAIL_CARD]), [])
  }

  predicate IsBuildPhase(phase: Phase) {
    phase == PreRoll || phase == PostRoll || phase == Bankrupting
  }

  /** The four building and mortgage commands share their guards. */
  function Work(g: Config, s: State, p: int, allowed: bool, result: State): Outcome {
    if !IsBuildPhase(s.turn.phase) then IllegalMove
    else if !OnBoard(g, p) then Fault
    else if !allowed then IllegalMove
    else Ok(result, [])
  }

  function Propose(s: State, i: Seat, target: Seat, offer: TradeOffer, request: TradeOffer, env: Env): Outcome {
    if i == target || s.trade.Some? || s.turn.tradeOffers >= MAX_TRADE_OFFERS_PER_TURN then IllegalMove
    else if target >= |s.players| then Fault
    else
      match (ValidateOffer(s, i, offer), ValidateOffer(s, target, request))
      case (Valid, Valid) => Ok(OpenTrade(s, i, target, offer, request, env), [])
      case (Valid, Missing) => Fault
      case (Missing, _) => Fault
      case _ => IllegalMove
  }

  function Respond(g: Config, s: State, i: Seat, tradeId: int, response: TradeResponse, counter: Option<TradeOffer>, env: Env): Outcome
    requires GoodRefs(g, s)
  {
    if s.trade.None? || s.trade.value.id != tradeId then IllegalMove
    else
      var t := s.trade.value;
      match response
      case Reject => Ok(CloseTrade(s), [])
      case Counter =>
        if i != t.target || counter.None? then IllegalMove
        else (match ValidateOffer(s, t.proposer, counter.value)
              case Missing => Fault
              case Illegal => IllegalMove
              case Valid =>
                Ok(s.(trade := Some(t.(request := counter.value, countered := true,
                                      expiresAt := env.now + TRADE_DURATION_MS))), []))
      case Accept =>
        if i != t.proposer && i != t.target then IllegalMove
        else
          match (ValidateOffer(s, t.proposer, t.offer), ValidateOffer(s, t.target, t.request))
          case (Valid, Valid) => Ok(Exchange(g, s, t), [])
          case (Valid, Missing) => Fault
          case (Missing, _) => Fault
          case _ => IllegalMove
  }

  function Bidding(s: State, i: Seat, amount: int): Outcome {
    if s.auction.None? || s.turn.phase != Auctioning then IllegalMove
    else if i >= |s.players| then Fault
    else if !CanPlaceBid(s, i, amount) then IllegalMove
    else Ok(AddBid(s, i, amount), [])
  }

  function Declare(g: Config, s: State, i: Seat): Outcome
    requires GoodRefs(g, s)
  {
    if s.bankruptcy.None? || s.bankruptcy.value.debtor != i then IllegalMove
    else Ok(ResolveBankruptcy(g, s), [])
  }

  function GiveUp(g: Config, s: State, i: Seat): Outcome
    requires i < |s.players|
  {
    if s.players[i].bankrupt then IllegalMove
    else Ok(ResolveSurrender(g, s, i), [PlayerSurrendered(i, true)])
  }

  /** `_handle_turn_timeout`. */
  function Timeout(g: Config, s: State, now: int): (State, seq<Event>)
    requires s.turn.current < |s.players|
  {
    if !TurnExpired(s, now) then (s, [])
    else
      var i := s.turn.current;
      var strikes := s.players[i].strikes + 1;
      var s1 := WithPlayer(s, i, s.players[i].(strikes := strikes));
      if strikes >= MAX_AFK_STRIKES then (ResolveSurrender(g, s1, i), [PlayerSurrendered(i, false)])
      else (AdvanceOff(s1, i), [TurnTimedOut(i, strikes)])
  }

  // ---------------------------------------------------------------- apply

  predicate IsSystem(cmd: Command) {
    cmd.AdvanceAuction? || cmd.ExpireTrade? || cmd.TurnTimeout?
  }

  /** Commands that need not come from the player whose turn it is. */
  predicate IsOpen(cmd: Command) {
    cmd.RespondTrade? || cmd.PlaceBid?
  }

  function HandleSystem(g: Config, s: State, cmd: Command, env: Env): (State, seq<Event>)
    requires Good(g, s) && IsSystem(cmd)
  {
    match cmd
    case AdvanceAuction => (if AuctionExpired(s, env.now) then ResolveAuction(g, s) else s, [])
    case ExpireTrade => (if s.trade.None? || s.trade.value.expiresAt > env.now then s else CloseTrade(s), [])
    case TurnTimeout => Timeout(g, s, env.now)
  }

  /** `_dispatch_player_command` for the commands of the current player. */
  function Dispatch(g: Config, s: State, cmd: Command, env: Env): Outcome
    requires ValidConfig(g) && Good(g, s) && !IsSystem(cmd) && !IsOpen(cmd) && cmd.player == s.turn.current
  {
    var i := s.turn.current;
    match cmd
    case RollDice(_) => Roll(g, s, i, env)
    case BuyProperty(_, p) => Buy(g, s, i, p)
    case PassBuy(_) => Pass(s, i, env)
    case EndTurn(_) => SurvivorsInRange(s.players, |s.players|); End(s, i)
    case PayJailFine(_) => PayFine(g, s, i)
    case UseJailCard(_) => UseCard(g, s, i)
    case BuildHouse(_, p) => Work(g, s, p, CanBuildOn(g, s, i, p), BuildHouseOn(g, s, i, p))
    case SellHouse(_, p) => Work(g, s, p, CanSellOn(g, s, i, p), SellHouseOn(g, s, i, p))
    case Mortgage(_, p) => Work(g, s, p, CanMortgage(g, s, i, p), MortgageOn(g, s, i, p))
    case Unmortgage(_, p) => Work(g, s, p, CanUnmortgage(g, s, i, p), UnmortgageOn(g, s, i, p))
    case ProposeTrade(_, target, offer, request) => Propose(s, i, target, offer, request, env)
    case DeclareBankruptcy(_) => Declare(g, s, i)
    case Surrender(_) => GiveUp(g, s, i)
  }

  lemma {:induction false} SurvivorsInRange(players: seq<Player>, k: nat)
    requires k <= |players|
    ensures forall j :: 0 <= j < |ActiveSeats(players, k)| ==>
              ActiveSeats(players, k)[j] < k && !players[ActiveSeats(players, k)[j]].bankrupt
    ensures forall r :: 0 <= r < k && !players[r].bankrupt ==> r in ActiveSeats(players, k)
    ensures StrictlySorted(ActiveSeats(players, k))
  {
    if k > 0 {
      SurvivorsInRange(players, k - 1);
    }
  }
}
