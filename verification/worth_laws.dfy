/** What the stored net worth is worth: the board behind it, and what one square adds to it. */
module WorthLaws {
  import opened GameTypes
  import opened Seqs
  import opened Worth
  import opened Invariants

  // ---------------------------------------------------------------- the board behind it

  /** The board, square by square: what an owner gets credited for the squares of the list.  A square counts its printed
      price and what its houses, or a hotel as five, have cost; a mortgaged one counts nothing. */
  function Credits(g: Config, tiles: seq<Tile>, owned: seq<int>): (r: seq<int>)
    ensures |r| == |g.board|
  {
    seq(|g.board|, k requires 0 <= k < |g.board| =>
      var t := TileAt(tiles, k + 1);
      if k + 1 !in owned || t.mortgaged then 0
      else (if g.board[k].price.Some? then g.board[k].price.value else 0)
           + g.board[k].houseCost * (if t.hasHotel then 5 else t.houses))
  }

  lemma {:induction false} AssetsOnBoard(g: Config, tiles: seq<Tile>, owned: seq<int>)
    requires StrictlySorted(owned) && forall k :: 0 <= k < |owned| ==> OnBoard(g, owned[k])
    ensures Assets(g, tiles, owned) == Sum(Credits(g, tiles, owned))
  {
    hide Sum;
    if owned == [] {
      NoCredits(Credits(g, tiles, owned));
    } else {
      var n := |owned| - 1;
      var p := owned[n];
      var rest := owned[..n];
      AssetsOnBoard(g, tiles, rest);
      assert p !in rest;
      assert forall q :: q in owned <==> q in rest || q == p;
      SumUpdate(Credits(g, tiles, rest), p - 1, TileWorth(g, tiles, p));
      assert Credits(g, tiles, owned) == Credits(g, tiles, rest)[p - 1 := TileWorth(g, tiles, p)];
    }
  }

  lemma {:induction false} NoCredits(xs: seq<int>)
    requires forall k :: 0 <= k < |xs| ==> xs[k] == 0
    ensures Sum(xs) == 0
  {
    if xs != [] {
      NoCredits(xs[..|xs| - 1]);
    }
  }

  /** The stored net worth of every player is the cash and what the board credits for the player's squares. */
  lemma NetWorthOnBoard(g: Config, s: State, i: Seat)
    requires Inv(g, s) && i < |s.players|
    ensures s.players[i].netWorth == s.players[i].balance + Sum(Credits(g, s.tiles, s.players[i].owned))
  {
    hide Sum, Credits, Streets, Inventory, Phases, Roster;
    var owned := s.players[i].owned;
    forall k | 0 <= k < |owned| ensures OnBoard(g, owned[k]) {
      assert owned[k] in owned && HeldBy(s.tiles, i, owned[k]);
    }
    AssetsOnBoard(g, s.tiles, owned);
  }

  // ---------------------------------------------------------------- one square

  /** Two boards that differ in one square differ by what that square adds. */
  lemma {:induction false} AssetsChange(g: Config, a: seq<Tile>, b: seq<Tile>, owned: seq<int>, p: int)
    requires StrictlySorted(owned) && forall q :: q != p ==> TileAt(a, q) == TileAt(b, q)
    ensures Assets(g, b, owned) == Assets(g, a, owned) + if p in owned then TileWorth(g, b, p) - TileWorth(g, a, p) else 0
  {
    if owned != [] {
      var n := |owned| - 1;
      AssetsChange(g, a, b, owned[..n], p);
      assert p in owned <==> p in owned[..n] || p == owned[n];
      assert owned[n] !in owned[..n];
    }
  }

  /** A list with one more square is worth that square more. */
  lemma {:induction false} AssetsInsert(g: Config, tiles: seq<Tile>, x: int, xs: seq<int>)
    ensures Assets(g, tiles, Insert(x, xs)) == Assets(g, tiles, xs) + TileWorth(g, tiles, x)
  {
    if xs == [] {
      assert [x][..0] == [];
      assert Assets(g, tiles, []) == 0;
    } else if x <= xs[0] {
      AssetsFront(g, tiles, x, xs);
    } else {
      AssetsInsert(g, tiles, x, xs[1..]);
      AssetsFront(g, tiles, xs[0], Insert(x, xs[1..]));
      AssetsFront(g, tiles, xs[0], xs[1..]);
      assert [xs[0]] + xs[1..] == xs;
    }
  }

  lemma {:induction false} AssetsFront(g: Config, tiles: seq<Tile>, x: int, xs: seq<int>)
    ensures Assets(g, tiles, [x] + xs) == TileWorth(g, tiles, x) + Assets(g, tiles, xs)
  {
    var all := [x] + xs;
    if xs == [] {
      assert all[..0] == [];
      assert Assets(g, tiles, []) == 0;
    } else {
      AssetsFront(g, tiles, x, xs[..|xs| - 1]);
      assert all[..|all| - 1] == [x] + xs[..|xs| - 1];
    }
  }
}
