/** A complete group can be developed: five rounds of building put a hotel on every street of it. */
module Development {
  import opened GameTypes
  import opened Soundness
  import opened Engine
  import opened Invariants
  import opened Steps
  import opened Setup
  import opened Timers
  import opened WorkLaws

  /** The list names every street of one colour once. */
  ghost predicate Group(g: Config, streets: seq<int>) {
    && streets != [] && (forall a, b :: 0 <= a < b < |streets| ==> streets[a] != streets[b])
    && (forall k :: 0 <= k < |streets| ==> OnBoard(g, streets[k]) && SpaceAt(g, streets[k]).kind == Property
                                           && SpaceAt(g, streets[k]).color.Some? && SpaceAt(g, streets[k]).houseCost >= 0)
    && (forall q, k {:trigger SameColor(g, streets[k], q)} :: OnBoard(g, q) && 0 <= k < |streets| && SameColor(g, streets[k], q) ==> q in streets)
    && (forall k :: 0 <= k < |streets| ==> SpaceAt(g, streets[k]).color == SpaceAt(g, streets[0]).color)
  }

  /** The price of a house on each street from the `k`-th on. */
  function CostFrom(g: Config, streets: seq<int>, k: nat): int
    requires k <= |streets|
    decreases |streets| - k
  {
    if k == |streets| then 0 else SpaceAt(g, streets[k]).houseCost + CostFrom(g, streets, k + 1)
  }

  lemma {:induction false} CostPositive(g: Config, streets: seq<int>, k: nat)
    requires Group(g, streets) && k <= |streets|
    ensures CostFrom(g, streets, k) >= 0
    decreases |streets| - k
  {
    if k < |streets| {
      CostPositive(g, streets, k + 1);
    }
  }

  /** Every street stands at `level`, the first `k` one storey higher; cash and bank suffice for the rest. */
  ghost predicate Stage(g: Config, s: State, i: Seat, streets: seq<int>, level: nat, k: nat) {
    var n := |streets|;
    && Group(g, streets) && level <= 4 && k <= n
    && Inv(g, s) && s.turn.current == i < |s.players| && (s.turn.phase == PreRoll || s.turn.phase == PostRoll) && s.bankruptcy.None?
    && (forall j :: 0 <= j < n ==>
          var t := TileAt(s.tiles, streets[j]);
          t.owner == Some(i) && !t.mortgaged && Storeys(t) == level + if j < k then 1 else 0)
    && s.players[i].balance >= CostFrom(g, streets, k) + (4 - level) * CostFrom(g, streets, 0)
    && (level < 4 ==> s.bankHouses >= (n - k) + (3 - level) * n)
    && s.bankHotels >= n - if level == 4 then k else 0
  }

  /** The next building is accepted. */
  lemma BuildNext(g: Config, s: State, i: Seat, streets: seq<int>, level: nat, k: nat, env: Env)
    requires ValidConfig(g) && Stage(g, s, i, streets, level, k) && k < |streets|
    ensures Good(g, s) && Apply(g, s, BuildHouse(i, streets[k]), env).Ok?
    ensures Stage(g, Apply(g, s, BuildHouse(i, streets[k]), env).s, i, streets, level, k + 1)
  {
    hide ValidConfig, Good, Inv, Apply, Group;
    var p := streets[k];
    StreetFacts(g, streets, k);
    InvStreets(g, s);
    LevelTile(g, s, p, level);
    Affordable(g, streets, level, k);
    BuildAccepted(g, s, p, env);
    forall q | OnBoard(g, q) && SameColor(g, p, q)
      ensures TileAt(s.tiles, q).owner == Some(i) && !TileAt(s.tiles, q).mortgaged && level <= Storeys(TileAt(s.tiles, q))
    {
      InGroup(g, streets, k, q);
      var j :| 0 <= j < |streets| && streets[j] == q;
    }
    assert Apply(g, s, BuildHouse(i, p), env).Ok?;
    Built(g, s, p, env);
    var s' := Apply(g, s, BuildHouse(i, p), env).s;
    StepInvariant(g, s, BuildHouse(i, p), env);
    forall j | 0 <= j < |streets|
      ensures var t := TileAt(s'.tiles, streets[j]);
              t.owner == Some(i) && !t.mortgaged && Storeys(t) == level + if j < k + 1 then 1 else 0
    {
      if j != k {
        Distinct(g, streets, j, k);
      }
    }
  }

  lemma StreetFacts(g: Config, streets: seq<int>, k: nat)
    requires Group(g, streets) && k < |streets|
    ensures OnBoard(g, streets[k]) && SpaceAt(g, streets[k]).kind == Property && SpaceAt(g, streets[k]).color.Some?
    ensures SpaceAt(g, streets[k]).houseCost >= 0
  {}

  lemma Distinct(g: Config, streets: seq<int>, j: nat, k: nat)
    requires Group(g, streets) && j < |streets| && k < |streets| && j != k
    ensures streets[j] != streets[k]
  {}

  lemma InGroup(g: Config, streets: seq<int>, k: nat, q: int)
    requires Group(g, streets) && k < |streets| && OnBoard(g, q) && SameColor(g, streets[k], q)
    ensures q in streets
  {}

  lemma LevelTile(g: Config, s: State, p: int, level: nat)
    requires Streets(g, s.tiles) && OnBoard(g, p) && Storeys(TileAt(s.tiles, p)) == level <= 4
    ensures !TileAt(s.tiles, p).hasHotel && TileAt(s.tiles, p).houses == level
  {
    assert TileOk(g, p, TileAt(s.tiles, p));
  }

  lemma Affordable(g: Config, streets: seq<int>, level: nat, k: nat)
    requires Group(g, streets) && level <= 4 && k < |streets|
    ensures CostFrom(g, streets, k) == SpaceAt(g, streets[k]).houseCost + CostFrom(g, streets, k + 1)
    ensures CostFrom(g, streets, k + 1) >= 0 && (4 - level) * CostFrom(g, streets, 0) >= 0
    ensures (3 - level) * |streets| >= 0 || level == 4
  {
    CostPositive(g, streets, k + 1);
    CostPositive(g, streets, 0);
  }

  /** A finished round is the start of the next. */
  lemma NextRound(g: Config, s: State, i: Seat, streets: seq<int>, level: nat)
    requires Stage(g, s, i, streets, level, |streets|) && level < 4
    ensures Stage(g, s, i, streets, level + 1, 0)
  {
    hide Inv, Group;
    var c := CostFrom(g, streets, 0);
    assert (4 - level) * c == c + (4 - (level + 1)) * c;
    assert (3 - level) * |streets| == |streets| + (3 - (level + 1)) * |streets|;
    assert CostFrom(g, streets, |streets|) == 0;
  }

  /** Every command of the run is accepted. */
  ghost predicate AllAccepted(g: Config, s: State, steps: seq<Move>)
    requires ValidConfig(g) && Good(g, s)
  {
    steps == [] ||
    var n := |steps| - 1;
    AllAccepted(g, s, steps[..n]) && Apply(g, Run(g, s, steps[..n]), steps[n].cmd, steps[n].env).Ok?
  }

  lemma AcceptedOn(g: Config, s: State, steps: seq<Move>, m: Move)
    requires ValidConfig(g) && Good(g, s) && AllAccepted(g, s, steps) && Apply(g, Run(g, s, steps), m.cmd, m.env).Ok?
    ensures AllAccepted(g, s, steps + [m]) && Run(g, s, steps + [m]) == Apply(g, Run(g, s, steps), m.cmd, m.env).s
  {
    hide ValidConfig, Good, Apply;
    assert (steps + [m])[..|steps|] == steps;
  }

  /** The move builds on one of the streets. */
  predicate Builds(m: Move, i: Seat, streets: seq<int>) {
    m.cmd.BuildHouse? && m.cmd.player == i && m.cmd.position in streets
  }

  lemma {:induction false} BuildOn(g: Config, start: State, steps: seq<Move>, i: Seat, streets: seq<int>, level: nat, k: nat, env: Env)
    returns (all: seq<Move>)
    requires ValidConfig(g) && Good(g, start) && AllAccepted(g, start, steps) && Stage(g, Run(g, start, steps), i, streets, level, k)
    requires forall j :: 0 <= j < |steps| ==> Builds(steps[j], i, streets)
    ensures AllAccepted(g, start, all) && Stage(g, Run(g, start, all), i, streets, 4, |streets|)
    ensures forall j :: 0 <= j < |all| ==> Builds(all[j], i, streets)
    ensures |all| == |steps| + (|streets| - k) + (4 - level) * |streets|
    decreases 4 - level, |streets| - k
  {
    hide ValidConfig, Good, Apply, Run, AllAccepted, Stage;
    StageBounds(g, Run(g, start, steps), i, streets, level, k);
    if k < |streets| {
      var m := Move(BuildHouse(i, streets[k]), env);
      BuildNext(g, Run(g, start, steps), i, streets, level, k, env);
      AcceptedOn(g, start, steps, m);
      all := BuildOn(g, start, steps + [m], i, streets, level, k + 1, env);
    } else if level < 4 {
      NextRound(g, Run(g, start, steps), i, streets, level);
      all := BuildOn(g, start, steps, i, streets, level + 1, 0, env);
      assert (4 - level) * |streets| == |streets| + (4 - (level + 1)) * |streets|;
    } else {
      all := steps;
    }
  }

  lemma StageBounds(g: Config, s: State, i: Seat, streets: seq<int>, level: nat, k: nat)
    requires Stage(g, s, i, streets, level, k)
    ensures level <= 4 && k <= |streets|
  {}

  /** The player of the turn, outside a debt, who has every street of a colour, bare and unmortgaged, with the cash for five
      storeys on each, four houses for each street and a hotel for each in the bank, can build, one accepted command after
      the other, five on each street and nothing else, until a hotel stands on every one. */
  lemma GroupDeveloped(g: Config, s: State, streets: seq<int>, env: Env) returns (all: seq<Move>)
    requires ValidConfig(g) && Inv(g, s) && s.turn.current < |s.players| && Group(g, streets)
    requires (s.turn.phase == PreRoll || s.turn.phase == PostRoll) && s.bankruptcy.None?
    requires forall j :: 0 <= j < |streets| ==> TileAt(s.tiles, streets[j]) == BARE.(owner := Some(s.turn.current))
    requires s.players[s.turn.current].balance >= 5 * CostFrom(g, streets, 0)
    requires s.bankHouses >= 4 * |streets| && s.bankHotels >= |streets|
    ensures Good(g, s) && AllAccepted(g, s, all) && |all| == 5 * |streets|
    ensures forall j :: 0 <= j < |all| ==> Builds(all[j], s.turn.current, streets)
    ensures var s' := Run(g, s, all);
            forall j :: 0 <= j < |streets| ==> TileAt(s'.tiles, streets[j]) == BARE.(owner := Some(s.turn.current), hasHotel := true)
  {
    hide ValidConfig, Good, Inv, Apply, Group;
    InvGood(g, s);
    assert Stage(g, s, s.turn.current, streets, 0, 0);
    all := BuildOn(g, s, [], s.turn.current, streets, 0, 0, env);
    var s' := Run(g, s, all);
    forall j | 0 <= j < |streets| ensures TileAt(s'.tiles, streets[j]) == BARE.(owner := Some(s.turn.current), hasHotel := true) {
      InvStreets(g, s');
      StreetFacts(g, streets, j);
      assert TileOk(g, streets[j], TileAt(s'.tiles, streets[j]));
    }
  }
}
