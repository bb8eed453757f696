/** Net worth and the other look-ups of `rules/helpers.py` and `rules/rent.py`. */
module Worth {
  import opened GameTypes
  import opened Seqs

  /** What one tile adds to its owner's net worth. */
  function TileWorth(g: Config, tiles: seq<Tile>, p: int): int {
    var t := TileAt(tiles, p);
    var space := SpaceAt(g, p);
    if t.mortgaged then 0
    else
      (if space.price.Some? then space.price.value else 0)
      + (if t.hasHotel then space.houseCost * HOTEL_HOUSE_COUNT else space.houseCost * t.houses)
  }

  function Assets(g: Config, tiles: seq<Tile>, owned: seq<int>): int {
    if owned == [] then 0
    else Assets(g, tiles, owned[..|owned| - 1]) + TileWorth(g, tiles, owned[|owned| - 1])
  }

  function NetWorth(g: Config, tiles: seq<Tile>, p: Player): int {
    p.balance + Assets(g, tiles, p.owned)
  }

  /** The accumulating loop of `compute_net_worth` computes the recursive sum. */
  method ComputeNetWorth(g: Config, tiles: seq<Tile>, p: Player) returns (total: int)
    ensures total == NetWorth(g, tiles, p)
  {
    total := p.balance;
    for k := 0 to |p.owned|
      invariant total == p.balance + Assets(g, tiles, p.owned[..k])
    {
      var pos := p.owned[k];
      assert p.owned[..k + 1][..k] == p.owned[..k];
      var space := SpaceAt(g, pos);
      var t := TileAt(tiles, pos);
      if t.mortgaged {
        continue;
      }
      if space.price.Some? {
        total := total + space.price.value;
      }
      if t.hasHotel {
        total := total + space.houseCost * HOTEL_HOUSE_COUNT;
      } else {
        total := total + space.houseCost * t.houses;
      }
    }
    assert p.owned[..|p.owned|] == p.owned;
  }

  /** `update_player_net_worth`. */
  function Refreshed(g: Config, tiles: seq<Tile>, p: Player): Player {
    p.(netWorth := NetWorth(g, tiles, p))
  }

  /** `refresh_all_net_worth`. */
  function RefreshAll(g: Config, tiles: seq<Tile>, players: seq<Player>): (r: seq<Player>)
    ensures |r| == |players|
    ensures forall i :: 0 <= i < |r| ==> r[i] == Refreshed(g, tiles, players[i])
  {
    seq(|players|, i requires 0 <= i < |players| => Refreshed(g, tiles, players[i]))
  }

  predicate WorthFresh(g: Config, s: State) {
    forall i :: 0 <= i < |s.players| ==> s.players[i].netWorth == NetWorth(g, s.tiles, s.players[i])
  }

  /** The worth of a list of positions depends on the tiles at those positions only. */
  lemma {:induction false} AssetsFrame(g: Config, a: seq<Tile>, b: seq<Tile>, owned: seq<int>)
    requires forall k :: 0 <= k < |owned| ==> TileAt(a, owned[k]) == TileAt(b, owned[k])
    ensures Assets(g, a, owned) == Assets(g, b, owned)
  {
    if owned != [] {
      var n := |owned| - 1;
      assert forall k :: 0 <= k < n ==> owned[..n][k] == owned[k];
      AssetsFrame(g, a, b, owned[..n]);
    }
  }

  // ---------------------------------------------------------------- rent

  /** `player_has_rent_monopoly` and `player_owns_monopoly`: the whole colour group of `p` belongs to
      `who` and none of it is mortgaged. */
  predicate HasMonopoly(g: Config, tiles: seq<Tile>, who: Seat, p: int) {
    forall q | 1 <= q <= |g.board| && SameGroup(g, p, q) ::
      TileAt(tiles, q).owner == Some(who) && !TileAt(tiles, q).mortgaged
  }

  function CountOwned(tiles: seq<Tile>, who: Seat, among: set<int>): nat {
    |set q | q in among && TileAt(tiles, q).owner == Some(who) && !TileAt(tiles, q).mortgaged|
  }

  /** `RAILROAD_RENTS[min(count, 4) - 1]`; a count of 0 indexes the last entry, as in Python. */
  function RailroadRent(count: nat): int {
    if count == 1 then 25 else if count == 2 then 50 else if count == 3 then 100 else 200
  }

  function CalculateRent(g: Config, tiles: seq<Tile>, p: int, diceTotal: int, multiplier: int): int {
    var t := TileAt(tiles, p);
    var space := SpaceAt(g, p);
    if t.owner.None? || t.mortgaged then 0
    else if space.kind == Railroad then
      RailroadRent(CountOwned(tiles, t.owner.value, g.railroads)) * multiplier
    else if space.kind == Utility then
      (if CountOwned(tiles, t.owner.value, g.utilities) == 1 then 4 else 10) * diceTotal
    else if space.kind == Property && space.rent.Some? then
      var amount := space.rent.value.AmountFor(t.houses, t.hasHotel);
      if t.houses == 0 && !t.hasHotel && space.color.Some? && HasMonopoly(g, tiles, t.owner.value, p)
      then amount * 2
      else amount * multiplier
    else 0
  }
}
