/** How each change of hands and each building step keeps the property invariants. */
module PropertyLaws {
  import opened GameTypes
  import opened Seqs
  import opened Soundness
  import opened Worth
  import opened Payments
  import opened PropertyRules
  import opened Elimination
  import opened Engine
  import opened Invariants

  // ---------------------------------------------------------------- frames

  /** Nothing about property differs. */
  ghost predicate SameProperty(a: State, b: State) {
    && |a.players| == |b.players|
    && a.tiles == b.tiles && a.bankHouses == b.bankHouses && a.bankHotels == b.bankHotels
    && (forall i :: 0 <= i < |a.players| ==> a.players[i].owned == b.players[i].owned)
  }

  lemma OwnsFrame(a: State, b: State)
    requires SameProperty(a, b) && Owns(a)
    ensures Owns(b)
  {}

  // ---------------------------------------------------------------- one player takes one unowned tile

  lemma AcquireOwns(g: Config, s: State, who: Seat, p: int, price: int, owned: seq<int>)
    requires Owns(s) && who < |s.players|
    requires 1 <= p <= |s.tiles| && TileAt(s.tiles, p).owner.None?
    requires StrictlySorted(owned)
    requires forall y :: y in owned <==> y == p || y in s.players[who].owned
    ensures Owns(Acquire(g, s, who, p, price, owned))
  {
    hide Assets;
    var s' := Acquire(g, s, who, p, price, owned);
    forall i: Seat, q: int | i < |s.players| ensures q in s'.players[i].owned <==> HeldBy(s'.tiles, i, q) {
      assert q in s.players[i].owned <==> HeldBy(s.tiles, i, q);
    }
  }

  lemma AcquireStreets(g: Config, tiles: seq<Tile>, p: int, who: Seat)
    requires Streets(g, tiles) && OnBoard(g, p) && IsPurchasable(g, p) && TileAt(tiles, p).owner.None?
    ensures Streets(g, SetTile(tiles, p, TileAt(tiles, p).(owner := Some(who))))
  {
    var tiles' := SetTile(tiles, p, TileAt(tiles, p).(owner := Some(who)));
    assert TileOk(g, p, TileAt(tiles, p));
    forall q, r | OnBoard(g, q) && OnBoard(g, r) && SameGroup(g, q, r)
      ensures Even(TileAt(tiles', q), TileAt(tiles', r))
    {
      assert Even(TileAt(tiles, q), TileAt(tiles, r));
    }
    forall q | OnBoard(g, q) ensures TileOk(g, q, TileAt(tiles', q)) {
      assert TileOk(g, q, TileAt(tiles, q));
    }
  }

  // ---------------------------------------------------------------- buildings and mortgages

  lemma ReworkOwns(g: Config, s: State, who: Seat, p: int, t: Tile, gain: int)
    requires Owns(s) && who < |s.players| && t.owner == TileAt(s.tiles, p).owner
    ensures Owns(Rework(g, s, who, p, t, gain))
  {
    hide Assets;
    var s' := Rework(g, s, who, p, t, gain);
    forall i: Seat, q: int | i < |s.players| ensures q in s'.players[i].owned <==> HeldBy(s'.tiles, i, q) {
      assert q in s.players[i].owned <==> HeldBy(s.tiles, i, q);
    }
  }

  /** Replacing one tile keeps the street laws if the new tile fits its group. */
  lemma SetTileStreets(g: Config, tiles: seq<Tile>, p: int, t: Tile)
    requires Streets(g, tiles) && OnBoard(g, p) && TileOk(g, p, t)
    requires Even(t, t)
    requires forall q :: OnBoard(g, q) && q != p && SameGroup(g, p, q) ==> Even(t, TileAt(tiles, q)) && Even(TileAt(tiles, q), t)
    ensures Streets(g, SetTile(tiles, p, t))
  {
    var tiles' := SetTile(tiles, p, t);
    forall q | OnBoard(g, q) ensures TileOk(g, q, TileAt(tiles', q)) {
      assert TileOk(g, q, TileAt(tiles, q));
    }
    forall q, r | OnBoard(g, q) && OnBoard(g, r) && SameGroup(g, q, r)
      ensures Even(TileAt(tiles', q), TileAt(tiles', r))
    {
      assert Even(TileAt(tiles, q), TileAt(tiles, r));
      assert SameGroup(g, r, q);
    }
  }

  /** The facts about tile `p` and a group mate that the street laws give. */
  lemma Mates(g: Config, tiles: seq<Tile>, p: int)
    requires Streets(g, tiles) && OnBoard(g, p)
    ensures TileOk(g, p, TileAt(tiles, p))
    ensures forall q :: OnBoard(g, q) && SameGroup(g, p, q) ==>
              TileOk(g, q, TileAt(tiles, q)) && Even(TileAt(tiles, p), TileAt(tiles, q)) && Even(TileAt(tiles, q), TileAt(tiles, p))
  {
    forall q | OnBoard(g, q) && SameGroup(g, p, q)
      ensures Even(TileAt(tiles, p), TileAt(tiles, q)) && Even(TileAt(tiles, q), TileAt(tiles, p))
    {
      assert SameGroup(g, q, p);
    }
  }

  lemma BuildStreets(g: Config, s: State, who: Seat, p: int)
    requires Streets(g, s.tiles) && who < |s.players| && OnBoard(g, p) && CanBuildOn(g, s, who, p)
    ensures Streets(g, BuildHouseOn(g, s, who, p).tiles)
  {
    hide Assets, Streets;
    Mates(g, s.tiles, p);
    var t := TileAt(s.tiles, p);
    var t' := if t.houses == 4 then t.(houses := 0, hasHotel := true) else t.(houses := t.houses + 1);
    forall q | OnBoard(g, q) && q != p && SameGroup(g, p, q)
      ensures Even(t', TileAt(s.tiles, q)) && Even(TileAt(s.tiles, q), t')
    {
      assert Level(t) <= Level(TileAt(s.tiles, q)) && TileAt(s.tiles, q).owner == Some(who) && !TileAt(s.tiles, q).mortgaged;
    }
    SetTileStreets(g, s.tiles, p, t');
  }

  lemma SellStreets(g: Config, s: State, who: Seat, p: int)
    requires Streets(g, s.tiles) && who < |s.players| && OnBoard(g, p) && CanSellOn(g, s, who, p)
    ensures Streets(g, SellHouseOn(g, s, who, p).tiles)
  {
    hide Assets, Streets;
    Mates(g, s.tiles, p);
    var t := TileAt(s.tiles, p);
    var t' := if t.hasHotel then t.(houses := 4, hasHotel := false) else t.(houses := t.houses - 1);
    forall q | OnBoard(g, q) && q != p && SameGroup(g, p, q)
      ensures Even(t', TileAt(s.tiles, q)) && Even(TileAt(s.tiles, q), t')
    {
      assert Level(TileAt(s.tiles, q)) <= Level(t);
    }
    SetTileStreets(g, s.tiles, p, t');
  }

  lemma MortgageStreets(g: Config, s: State, who: Seat, p: int)
    requires ValidConfig(g)
    requires Streets(g, s.tiles) && who < |s.players| && OnBoard(g, p) && CanMortgage(g, s, who, p)
    ensures Streets(g, MortgageOn(g, s, who, p).tiles)
  {
    hide Assets, Streets;
    Mates(g, s.tiles, p);
    var t := TileAt(s.tiles, p);
    forall q | OnBoard(g, q) && q != p && SameGroup(g, p, q)
      ensures Even(t.(mortgaged := true), TileAt(s.tiles, q)) && Even(TileAt(s.tiles, q), t.(mortgaged := true))
    {
      assert SpaceOk(g, p);
      assert !(TileAt(s.tiles, q).houses > 0 || TileAt(s.tiles, q).hasHotel);
    }
    SetTileStreets(g, s.tiles, p, t.(mortgaged := true));
  }

  lemma UnmortgageStreets(g: Config, s: State, who: Seat, p: int)
    requires Streets(g, s.tiles) && who < |s.players| && OnBoard(g, p) && CanUnmortgage(g, s, who, p)
    ensures Streets(g, UnmortgageOn(g, s, who, p).tiles)
  {
    hide Assets, Streets;
    Mates(g, s.tiles, p);
    SetTileStreets(g, s.tiles, p, TileAt(s.tiles, p).(mortgaged := false));
  }

  // ---------------------------------------------------------------- building inventory

  lemma SetTileCounts(tiles: seq<Tile>, p: int, t: Tile)
    requires 1 <= p <= |tiles|
    ensures Sum(Houses(SetTile(tiles, p, t))) == Sum(Houses(tiles)) - TileAt(tiles, p).houses + t.houses
    ensures Sum(Hotels(SetTile(tiles, p, t)))
            == Sum(Hotels(tiles)) - (if TileAt(tiles, p).hasHotel then 1 else 0) + (if t.hasHotel then 1 else 0)
  {
    SumUpdate(Houses(tiles), p - 1, t.houses);
    assert Houses(SetTile(tiles, p, t)) == Houses(tiles)[p - 1 := t.houses];
    var h := if t.hasHotel then 1 else 0;
    SumUpdate(Hotels(tiles), p - 1, h);
    assert Hotels(SetTile(tiles, p, t)) == Hotels(tiles)[p - 1 := h];
  }

  /** Building exchanges houses and hotels with the bank and creates none. */
  lemma BuildInventory(g: Config, s: State, who: Seat, p: int)
    requires Streets(g, s.tiles) && who < |s.players| && OnBoard(g, p) && CanBuildOn(g, s, who, p)
    ensures AllHouses(BuildHouseOn(g, s, who, p)) == AllHouses(s)
    ensures AllHotels(BuildHouseOn(g, s, who, p)) == AllHotels(s)
    ensures s.bankHotels >= 0 ==> BuildHouseOn(g, s, who, p).bankHotels >= 0
  {
    hide Assets, Sum;
    assert TileOk(g, p, TileAt(s.tiles, p));
    var t := TileAt(s.tiles, p);
    SetTileCounts(s.tiles, p, t.(houses := 0, hasHotel := true));
    SetTileCounts(s.tiles, p, t.(houses := t.houses + 1));
  }

  lemma SellInventory(g: Config, s: State, who: Seat, p: int)
    requires Streets(g, s.tiles) && who < |s.players| && OnBoard(g, p) && CanSellOn(g, s, who, p)
    ensures AllHouses(SellHouseOn(g, s, who, p)) == AllHouses(s)
    ensures AllHotels(SellHouseOn(g, s, who, p)) == AllHotels(s)
    ensures s.bankHotels >= 0 ==> SellHouseOn(g, s, who, p).bankHotels >= 0
  {
    hide Assets, Sum;
    assert TileOk(g, p, TileAt(s.tiles, p));
    var t := TileAt(s.tiles, p);
    SetTileCounts(s.tiles, p, t.(houses := 4, hasHotel := false));
    SetTileCounts(s.tiles, p, t.(houses := t.houses - 1));
  }

  lemma MortgageInventory(g: Config, s: State, who: Seat, p: int)
    requires who < |s.players| && 1 <= p <= |s.tiles|
    ensures AllHouses(MortgageOn(g, s, who, p)) == AllHouses(s) && AllHotels(MortgageOn(g, s, who, p)) == AllHotels(s)
    ensures AllHouses(UnmortgageOn(g, s, who, p)) == AllHouses(s) && AllHotels(UnmortgageOn(g, s, who, p)) == AllHotels(s)
  {
    hide Assets, Sum;
    var t := TileAt(s.tiles, p);
    SetTileCounts(s.tiles, p, t.(mortgaged := true));
    SetTileCounts(s.tiles, p, t.(mortgaged := false));
  }

  /** Clearing tiles takes off the board exactly the buildings that are counted. */
  lemma {:induction false} ReleaseCounts(g: Config, tiles: seq<Tile>, owned: seq<int>)
    requires forall k :: 0 <= k < |tiles| ==> tiles[k].hasHotel ==> tiles[k].houses == 0
    requires forall k :: 0 <= k < |owned| ==> 1 <= owned[k] <= |tiles|
    ensures var r := ReleaseTiles(tiles, owned);
            && Sum(Houses(r.tiles)) + r.houses == Sum(Houses(tiles))
            && Sum(Hotels(r.tiles)) + r.hotels == Sum(Hotels(tiles))
            && (forall k :: 0 <= k < |r.tiles| ==> r.tiles[k].hasHotel ==> r.tiles[k].houses == 0)
  {
    hide Sum;
    if owned != [] {
      var n := |owned| - 1;
      assert forall k :: 0 <= k < n ==> owned[..n][k] == owned[k];
      ReleaseCounts(g, tiles, owned[..n]);
      SetTileCounts(ReleaseTiles(tiles, owned[..n]).tiles, owned[n], BARE);
    }
  }

  /** Clearing everything one player owns keeps the street laws: a built group has one owner. */
  lemma ReleaseStreets(g: Config, s: State, who: Seat)
    requires Streets(g, s.tiles) && Owns(s) && who < |s.players|
    ensures Streets(g, ReleaseTiles(s.tiles, s.players[who].owned).tiles)
  {
    var owned := s.players[who].owned;
    var tiles' := ReleaseTiles(s.tiles, owned).tiles;
    forall p | OnBoard(g, p) ensures TileAt(tiles', p) == if p in owned then BARE else TileAt(s.tiles, p) {
      ReleaseOwners(s.tiles, owned, p - 1);
    }
    forall p | OnBoard(g, p) ensures TileOk(g, p, TileAt(tiles', p)) {
      assert TileOk(g, p, TileAt(s.tiles, p));
    }
    forall p, q | OnBoard(g, p) && OnBoard(g, q) && SameGroup(g, p, q)
      ensures Even(TileAt(tiles', p), TileAt(tiles', q))
    {
      assert Even(TileAt(s.tiles, p), TileAt(s.tiles, q)) && Even(TileAt(s.tiles, q), TileAt(s.tiles, p));
      assert TileOk(g, p, TileAt(s.tiles, p)) && TileOk(g, q, TileAt(s.tiles, q));
      assert p in owned <==> HeldBy(s.tiles, who, p);
      assert q in owned <==> HeldBy(s.tiles, who, q);
    }
  }

  /** Handing everything one player owns to another keeps the street laws. */
  lemma InheritStreets(g: Config, s: State, from: Seat, to: Seat)
    requires Streets(g, s.tiles) && Owns(s) && from < |s.players|
    ensures Streets(g, Reassign(s.tiles, s.players[from].owned, Some(to)))
  {
    var owned := s.players[from].owned;
    var tiles' := Reassign(s.tiles, owned, Some(to));
    forall p | OnBoard(g, p) ensures TileOk(g, p, TileAt(tiles', p)) {
      assert TileOk(g, p, TileAt(s.tiles, p));
      assert p in owned <==> HeldBy(s.tiles, from, p);
    }
    forall p, q | OnBoard(g, p) && OnBoard(g, q) && SameGroup(g, p, q)
      ensures Even(TileAt(tiles', p), TileAt(tiles', q))
    {
      assert Even(TileAt(s.tiles, p), TileAt(s.tiles, q));
      assert p in owned <==> HeldBy(s.tiles, from, p);
      assert q in owned <==> HeldBy(s.tiles, from, q);
    }
  }

  lemma ReassignCounts(tiles: seq<Tile>, positions: seq<int>, to: Option<Seat>)
    ensures Houses(Reassign(tiles, positions, to)) == Houses(tiles)
    ensures Hotels(Reassign(tiles, positions, to)) == Hotels(tiles)
  {}

  /** Handing over tiles without buildings keeps the street laws. */
  lemma ReassignStreets(g: Config, tiles: seq<Tile>, positions: seq<int>, to: Seat)
    requires Streets(g, tiles)
    requires forall k :: 0 <= k < |positions| ==>
               && TileAt(tiles, positions[k]).owner.Some?
               && !(TileAt(tiles, positions[k]).houses > 0 || TileAt(tiles, positions[k]).hasHotel)
    ensures Streets(g, Reassign(tiles, positions, Some(to)))
  {
    var tiles' := Reassign(tiles, positions, Some(to));
    forall p | OnBoard(g, p) ensures TileOk(g, p, TileAt(tiles', p)) {
      assert TileOk(g, p, TileAt(tiles, p));
    }
    forall p, q | OnBoard(g, p) && OnBoard(g, q) && SameGroup(g, p, q)
      ensures Even(TileAt(tiles', p), TileAt(tiles', q))
    {
      assert Even(TileAt(tiles, p), TileAt(tiles, q));
      assert TileOk(g, p, TileAt(tiles, p)) && TileOk(g, q, TileAt(tiles, q));
      assert p in positions ==> Level(TileAt(tiles, p)) == 0;
      assert q in positions ==> Level(TileAt(tiles, q)) == 0;
    }
  }
}
