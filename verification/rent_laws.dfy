/** `rent.py` against the building rules: a building always pays. */
module RentLaws {
  import opened GameTypes
  import opened Soundness
  import opened Worth
  import opened Payments
  import opened PropertyRules
  import opened Invariants
  import opened PropertyLaws
  import opened Boards

  /** Rents rise from level to level, the first house beating the doubled rent of a complete group. */
  predicate Rising(r: RentTable) {
    0 <= r.base && 2 * r.base < r.one < r.two < r.three < r.four < r.hotel
  }

  predicate SquareRises(s: Space) {
    s.color.Some? ==> s.rent.Some? && Rising(s.rent.value)
  }

  predicate RisingRents(g: Config) {
    forall p | 1 <= p <= |g.board| :: SquareRises(SpaceAt(g, p))
  }

  lemma Scaled(a: int, b: int, m: int)
    requires 0 <= a < b && m >= 1
    ensures a * m < b * m && b <= b * m
  {}

  /** What a street earns.  Nothing while it is mortgaged; bare, twice its base rent if every street of its colour has the
      same owner and none is mortgaged, and otherwise the base rent times the multiplier of a card; built on, the rent of
      its houses or its hotel times that multiplier. */
  lemma StreetRent(g: Config, tiles: seq<Tile>, p: int, dice: int, multiplier: int)
    requires OnBoard(g, p) && SpaceAt(g, p).kind == Property && SpaceAt(g, p).color.Some? && SpaceAt(g, p).rent.Some?
    requires TileAt(tiles, p).owner.Some? && TileOk(g, p, TileAt(tiles, p))
    ensures var t := TileAt(tiles, p);
            var r := SpaceAt(g, p).rent.value;
            CalculateRent(g, tiles, p, dice, multiplier)
            == if t.mortgaged then 0
               else if t.hasHotel then r.hotel * multiplier
               else if t.houses > 0 then [r.one, r.two, r.three, r.four][t.houses - 1] * multiplier
               else if forall q | 1 <= q <= |g.board| && SpaceAt(g, q).color == SpaceAt(g, p).color ::
                         TileAt(tiles, q).owner == t.owner && !TileAt(tiles, q).mortgaged
               then r.base * 2 else r.base * multiplier
  {
    var who := TileAt(tiles, p).owner.value;
    assert HasMonopoly(g, tiles, who, p)
           <==> forall q | 1 <= q <= |g.board| && SpaceAt(g, q).color == SpaceAt(g, p).color ::
                  TileAt(tiles, q).owner == TileAt(tiles, p).owner && !TileAt(tiles, q).mortgaged by {
      forall q ensures SameGroup(g, p, q) <==> SpaceAt(g, q).color == SpaceAt(g, p).color {}
    }
    hide HasMonopoly;
  }

  /** What a street of a complete, unmortgaged group earns at each level. */
  lemma GroupRent(g: Config, tiles: seq<Tile>, p: int, dice: int, multiplier: int)
    requires OnBoard(g, p) && SpaceAt(g, p).kind == Property && SpaceAt(g, p).color.Some? && SpaceAt(g, p).rent.Some?
    requires TileAt(tiles, p).owner.Some? && HasMonopoly(g, tiles, TileAt(tiles, p).owner.value, p)
    ensures var t := TileAt(tiles, p);
            var amount := SpaceAt(g, p).rent.value.AmountFor(t.houses, t.hasHotel);
            CalculateRent(g, tiles, p, dice, multiplier) == if t.houses == 0 && !t.hasHotel then amount * 2 else amount * multiplier
  {
    assert SameGroup(g, p, p);
    assert !TileAt(tiles, p).mortgaged;
  }

  /** Building a house or a hotel raises the rent of the street, for every throw and every card multiplier. */
  lemma BuildingRaisesRent(g: Config, s: State, who: Seat, p: int, dice: int, multiplier: int)
    requires RisingRents(g) && Streets(g, s.tiles) && who < |s.players| && OnBoard(g, p) && CanBuildOn(g, s, who, p)
    requires multiplier >= 1
    ensures CalculateRent(g, BuildHouseOn(g, s, who, p).tiles, p, dice, multiplier) > CalculateRent(g, s.tiles, p, dice, multiplier)
  {
    hide Assets, CalculateRent, RisingRents;
    RisesAt(g, p);
    assert TileOk(g, p, TileAt(s.tiles, p));
    var tiles' := BuildHouseOn(g, s, who, p).tiles;
    var t := TileAt(s.tiles, p);
    var t' := if t.houses == 4 then t.(houses := 0, hasHotel := true) else t.(houses := t.houses + 1);
    assert tiles' == SetTile(s.tiles, p, t');
    assert HasMonopoly(g, tiles', who, p) by { BuiltMonopoly(g, s.tiles, who, p, t'); }
    GroupRent(g, s.tiles, p, dice, multiplier);
    GroupRent(g, tiles', p, dice, multiplier);
    var r := SpaceAt(g, p).rent.value;
    Scaled(2 * r.base, r.one, multiplier);
    Scaled(r.one, r.two, multiplier);
    Scaled(r.two, r.three, multiplier);
    Scaled(r.three, r.four, multiplier);
    Scaled(r.four, r.hotel, multiplier);
  }

  lemma RisesAt(g: Config, p: int)
    requires RisingRents(g) && OnBoard(g, p)
    ensures SquareRises(SpaceAt(g, p))
  {}

  lemma BuiltMonopoly(g: Config, tiles: seq<Tile>, who: Seat, p: int, t: Tile)
    requires HasMonopoly(g, tiles, who, p) && 1 <= p <= |tiles| && t.owner == Some(who) && !t.mortgaged
    ensures HasMonopoly(g, SetTile(tiles, p, t), who, p)
  {}

  lemma SidesRise()
    ensures forall k :: 0 <= k < 10 ==> SquareRises(SIDE_1[k]) && SquareRises(SIDE_2[k]) && SquareRises(SIDE_3[k]) && SquareRises(SIDE_4[k])
  {}

  /** The classic board's rents rise, so a building pays on every street of it. */
  lemma NormalRentsRise(goSalary: int, jailFine: int)
    ensures RisingRents(Normal(goSalary, jailFine))
  {
    SidesRise();
    Side1();
    Side2();
    Side3();
    Side4();
    hide SIDE_1, SIDE_2, SIDE_3, SIDE_4, AllCards, CHANCE_DECK, CHEST_DECK, SquaresOk, SquareRises;
    var g := Normal(goSalary, jailFine);
    forall p | 1 <= p <= |g.board| ensures SquareRises(SpaceAt(g, p)) {
      var k := p - 1;
      assert g.board[k] == (if k < 10 then SIDE_1[k] else if k < 20 then SIDE_2[k - 10]
                            else if k < 30 then SIDE_3[k - 20] else SIDE_4[k - 30]);
    }
  }
}
