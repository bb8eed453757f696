/** What a viewer is shown, event by event. */
module TimelineLaws {
  import opened GameTypes
  import opened LandingChain
  import opened Timeline

  /** Instructions for the first `k` events: a move of a player who is not jailed takes one, a card of the mode two. */
  function Frames(g: Config, events: seq<Event>, k: nat): nat
    requires k <= |events|
  {
    if k == 0 then 0
    else
      Frames(g, events, k - 1)
      + match events[k - 1]
        case PlayerMoved(i, _, _, _, _) => if SaysJailed(events, i) then 0 else 1
        case CardDrawn(_, card) => if card in g.cards then 2 else 0
        case _ => 0
  }

  lemma JailedSays(events: seq<Event>, i: Seat)
    ensures i in JailedIn(events) <==> SaysJailed(events, i)
  {}

  lemma {:induction false} ProjectConcat(g: Config, number: int, jailed: set<Seat>, a: seq<Event>, b: seq<Event>)
    ensures Project(g, number, jailed, a + b) == Project(g, number, jailed, a) + Project(g, number, jailed, b)
  {
    if a == [] {
      assert a + b == b;
    } else {
      assert (a + b)[1..] == a[1..] + b;
      ProjectConcat(g, number, jailed, a[1..], b);
    }
  }

  lemma {:induction false} ProjectFrames(g: Config, number: int, events: seq<Event>, k: nat)
    requires k <= |events|
    ensures |Project(g, number, JailedIn(events), events[..k])| == Frames(g, events, k)
  {
    hide Project, JailedIn, SaysJailed;
    var jailed := JailedIn(events);
    if k == 0 {
      assert |Project(g, number, jailed, [])| == 0 by { Nothing(g, number, jailed); }
    } else {
      var e := events[k - 1];
      ProjectFrames(g, number, events, k - 1);
      assert events[..k] == events[..k - 1] + [e];
      ProjectSnoc(g, number, jailed, events[..k - 1], e);
      if e.PlayerMoved? {
        JailedSays(events, e.player);
      }
    }
  }

  lemma Nothing(g: Config, number: int, jailed: set<Seat>)
    ensures Project(g, number, jailed, []) == []
  {}

  /** Event by event: a move is walked, fast exactly if a card caused it, unless its player goes to jail in the same command; a
      card is shown for the player who drew it, with a pause for this turn and card; each at its place, and nothing else
      comes after the dice. */
  lemma EventByEvent(g: Config, cmd: Command, after: State, events: seq<Event>)
    ensures var timeline := TimelineOf(g, cmd, after, events);
            var dice := if cmd.RollDice? && after.turn.dice.Some? then 1 else 0;
            && |timeline| == dice + Frames(g, events, |events|)
            && (dice == 1 ==> var d := after.turn.dice.value; timeline[0] == ShowDice(cmd.player, d.die1, d.die2, d.isDoubles))
            && (forall k :: 0 <= k < |events| ==> FrameOf(g, after.turn.number, events, timeline, k, dice + Frames(g, events, k)))
  {
    hide Project, JailedIn, Frames, FrameOf;
    var timeline := TimelineOf(g, cmd, after, events);
    var opening := if cmd.RollDice? && after.turn.dice.Some? then
                     var d := after.turn.dice.value; [ShowDice(cmd.player, d.die1, d.die2, d.isDoubles)]
                   else [];
    var rest := Project(g, after.turn.number, JailedIn(events), events);
    assert timeline == opening + rest;
    ProjectFrames(g, after.turn.number, events, |events|);
    assert events[..|events|] == events;
    forall k | 0 <= k < |events| ensures FrameOf(g, after.turn.number, events, timeline, k, |opening| + Frames(g, events, k)) {
      EventAt(g, after.turn.number, events, k);
      FrameShift(g, after.turn.number, events, opening, rest, k, Frames(g, events, k));
    }
  }

  /** The instructions for event `k` stand at `at`. */
  predicate FrameOf(g: Config, number: int, events: seq<Event>, timeline: seq<Instruction>, k: nat, at: nat)
    requires k < |events|
  {
    match events[k]
    case PlayerMoved(i, from, to, _, byCard) =>
      SaysJailed(events, i) || (at < |timeline| && timeline[at] == Walk(i, from, to, byCard, byCard))
    case CardDrawn(i, card) =>
      card !in g.cards || (at + 1 < |timeline| && timeline[at] == ShowCard(card, i) && timeline[at + 1] == WaitForPlayer(number, card))
    case _ => true
  }

  lemma FrameShift(g: Config, number: int, events: seq<Event>, opening: seq<Instruction>, rest: seq<Instruction>, k: nat, at: nat)
    requires k < |events| && FrameOf(g, number, events, rest, k, at)
    ensures FrameOf(g, number, events, opening + rest, k, |opening| + at)
  {}

  lemma EventAt(g: Config, number: int, events: seq<Event>, k: nat)
    requires k < |events|
    ensures FrameOf(g, number, events, Project(g, number, JailedIn(events), events), k, Frames(g, events, k))
  {
    hide Project, JailedIn, SaysJailed, Frames;
    var jailed := JailedIn(events);
    var e := events[k];
    ProjectFrames(g, number, events, k);
    assert events == events[..k + 1] + events[k + 1..] && events[..k + 1] == events[..k] + [e];
    ProjectConcat(g, number, jailed, events[..k + 1], events[k + 1..]);
    ProjectSnoc(g, number, jailed, events[..k], e);
    if e.PlayerMoved? {
      JailedSays(events, e.player);
    }
  }
}
