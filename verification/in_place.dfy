/** The rules that the source carries out step by step on copied lists, proved against the functions
    that the laws of the other modules are about. */
module InPlace {
  import opened GameTypes
  import opened Seqs
  import opened Worth
  import opened Landing
  import opened PropertyRules
  import opened Elimination

  // ---------------------------------------------------------------- cards that pay everyone

  lemma OneMoreTimes(amount: int, k: nat)
    ensures amount * (k + 1) == amount * k + amount
  {}

  /** The two loops of the pay-each-player effect. */
  method PayEachInPlace(g: Config, s: State, i: Seat, amount: int) returns (r: State)
    requires i < |s.players|
    ensures r == PayToAll(g, s, i, amount)
  {
    hide Assets;
    var players := s.players;
    var total := 0;
    for j := 0 to |s.players|
      invariant total == amount * ActiveOthers(s.players, i, j)
    {
      if j == i || s.players[j].bankrupt {
        continue;
      }
      OneMoreTimes(amount, ActiveOthers(s.players, i, j));
      total := total + amount;
    }
    players := players[i := Refreshed(g, s.tiles, players[i].(balance := players[i].balance - total))];
    for j := 0 to |players|
      invariant |players| == |s.players|
      invariant players[i] == Refreshed(g, s.tiles, s.players[i].(balance := s.players[i].balance - total))
      invariant forall k :: 0 <= k < j && k != i ==>
                  players[k] == (if s.players[k].bankrupt then s.players[k]
                                 else Refreshed(g, s.tiles, s.players[k].(balance := s.players[k].balance + amount)))
      invariant forall k :: j <= k < |players| && k != i ==> players[k] == s.players[k]
    {
      hide ActiveOthers;
      if j == i || players[j].bankrupt {
        continue;
      }
      players := players[j := Refreshed(g, s.tiles, players[j].(balance := players[j].balance + amount))];
    }
    r := s.(players := RefreshAll(g, s.tiles, players));
    assert r.players == PayToAll(g, s, i, amount).players;
  }

  // ---------------------------------------------------------------- trade

  lemma ReassignSnoc(tiles: seq<Tile>, positions: seq<int>, p: int, to: Option<Seat>)
    ensures Reassign(tiles, positions + [p], to)
            == SetTile(Reassign(tiles, positions, to), p, TileAt(Reassign(tiles, positions, to), p).(owner := to))
  {
    assert forall q :: q in positions + [p] <==> q in positions || q == p;
  }

  lemma {:induction false} WithoutSnoc(xs: seq<int>, gone: seq<int>, p: int)
    ensures Without(Without(xs, gone), [p]) == Without(xs, gone + [p])
  {
    if xs != [] {
      WithoutSnoc(xs[1..], gone, p);
      assert xs[0] in gone + [p] <==> xs[0] in gone || xs[0] == p;
      if xs[0] !in gone {
        var rest := Without(xs[1..], gone);
        assert ([xs[0]] + rest)[1..] == rest;
      }
    }
  }

  lemma {:induction false} WithoutNone(xs: seq<int>)
    ensures Without(xs, []) == xs
  {
    if xs != [] {
      WithoutNone(xs[1..]);
      assert xs == [xs[0]] + xs[1..];
    }
  }

  /** `_transfer_offer`; each Python set is a list of its elements, sorted at the end. */
  method TransferOffer(giver: Player, receiver: Player, tiles: seq<Tile>, offer: TradeOffer, to: Seat)
    returns (giver': Player, receiver': Player, tiles': seq<Tile>)
    ensures giver' == giver.(owned := SortedSet(Without(giver.owned, offer.positions)))
    ensures receiver' == receiver.(owned := SortedSet(receiver.owned + offer.positions))
    ensures tiles' == Reassign(tiles, offer.positions, Some(to))
  {
    var giverOwned, receiverOwned := giver.owned, receiver.owned;
    tiles' := tiles;
    WithoutNone(giver.owned);
    for k := 0 to |offer.positions|
      invariant giverOwned == Without(giver.owned, offer.positions[..k])
      invariant receiverOwned == receiver.owned + offer.positions[..k]
      invariant tiles' == Reassign(tiles, offer.positions[..k], Some(to))
    {
      hide Without, Reassign, SetTile;
      var p := offer.positions[k];
      assert offer.positions[..k + 1] == offer.positions[..k] + [p];
      WithoutSnoc(giver.owned, offer.positions[..k], p);
      ReassignSnoc(tiles, offer.positions[..k], p, Some(to));
      giverOwned := Without(giverOwned, [p]);
      receiverOwned := receiverOwned + [p];
      tiles' := SetTile(tiles', p, TileAt(tiles', p).(owner := Some(to)));
    }
    assert offer.positions[..|offer.positions|] == offer.positions;
    giver' := giver.(owned := SortedSet(giverOwned));
    receiver' := receiver.(owned := SortedSet(receiverOwned));
  }

  /** `_execute_trade` after its checks. */
  method ExecuteTrade(g: Config, s: State, t: Trade) returns (r: State)
    requires t.proposer < |s.players| && t.target < |s.players| && t.proposer != t.target
    ensures r == Exchange(g, s, t)
  {
    hide SortedSet, Without, Reassign, Assets;
    var players, tiles := s.players, s.tiles;
    var proposer, target := players[t.proposer], players[t.target];
    proposer, target, tiles := TransferOffer(proposer, target, tiles, t.offer, t.target);
    target, proposer, tiles := TransferOffer(target, proposer, tiles, t.request, t.proposer);
    var netDelta := t.request.money - t.offer.money;
    proposer := proposer.(balance := proposer.balance + netDelta);
    target := target.(balance := target.balance - netDelta);
    var jailDelta := t.request.jailCards - t.offer.jailCards;
    proposer := proposer.(jailCards := proposer.jailCards + jailDelta);
    target := target.(jailCards := target.jailCards - jailDelta);
    players := players[t.proposer := proposer];
    players := players[t.target := target];
    r := s.(players := RefreshAll(g, tiles, players), tiles := tiles, trade := None, turn := s.turn.(phase := PostRoll));
  }

  // ---------------------------------------------------------------- bankruptcy

  lemma ReassignKeepsMortgage(tiles: seq<Tile>, positions: seq<int>, to: Option<Seat>, p: int)
    ensures TileAt(Reassign(tiles, positions, to), p).mortgaged == TileAt(tiles, p).mortgaged
  {}

  lemma ReassignNone(tiles: seq<Tile>, to: Option<Seat>)
    ensures Reassign(tiles, [], to) == tiles
  {}

  /** The creditor's branch of `resolve_bankruptcy`: the squares change hands one by one, and each
      mortgaged one costs the creditor its interest at once. */
  method InheritEstate(g: Config, s: State, debtor: Seat, creditor: Seat, owed: int) returns (r: State)
    requires debtor < |s.players| && creditor < |s.players|
    ensures r == AssetsToCreditor(g, s, debtor, creditor, owed)
  {
    hide SortedSet;
    var d, c := s.players[debtor], s.players[creditor];
    var cash := if d.balance <= owed then d.balance else owed;
    var heir := c.(balance := c.balance + cash);
    var tiles, newOwned := s.tiles, c.owned;
    ReassignNone(s.tiles, Some(creditor));
    for k := 0 to |d.owned|
      invariant tiles == Reassign(s.tiles, d.owned[..k], Some(creditor))
      invariant newOwned == c.owned + d.owned[..k]
      invariant heir == c.(balance := c.balance + cash - Interest(g, s.tiles, d.owned[..k]))
    {
      hide Reassign, SetTile;
      var p := d.owned[k];
      assert d.owned[..k + 1] == d.owned[..k] + [p] && d.owned[..k + 1][..k] == d.owned[..k];
      ReassignSnoc(s.tiles, d.owned[..k], p, Some(creditor));
      ReassignKeepsMortgage(s.tiles, d.owned[..k], Some(creditor), p);
      var ownership := TileAt(tiles, p);
      tiles := SetTile(tiles, p, ownership.(owner := Some(creditor)));
      if ownership.mortgaged {
        var cost := SpaceAt(g, p).mortgageValue / 10;
        heir := heir.(balance := heir.balance - cost);
      }
      newOwned := newOwned + [p];
    }
    assert d.owned[..|d.owned|] == d.owned;
    heir := heir.(owned := SortedSet(newOwned), jailCards := c.jailCards + d.jailCards);
    r := s.(players := s.players[creditor := heir], tiles := tiles);
  }

  method ResolveBankruptcyInPlace(g: Config, s: State) returns (r: State)
    requires s.bankruptcy.Some? && s.bankruptcy.value.debtor < |s.players|
    requires s.bankruptcy.value.creditor.Some? ==> s.bankruptcy.value.creditor.value < |s.players|
    ensures r == ResolveBankruptcy(g, s)
  {
    hide ActiveSeats, NextOffset, AssetsToCreditor, ReleaseTiles, AppendCards, Assets;
    var b := s.bankruptcy.value;
    var debtor := s.players[b.debtor];
    var settled := s;
    if b.creditor.Some? {
      settled := InheritEstate(g, s, b.debtor, b.creditor.value, b.owed);
      InheritSeats(g, s, b.debtor, b.creditor.value, b.owed);
    } else {
      var chanceDeck := ReturnCardsLoop(s.chanceDeck, CHANCE_JAIL_CARD, debtor.jailCards);
      var chestDeck := ReturnCardsLoop(s.chestDeck, CHEST_JAIL_CARD, debtor.jailCards);
      var released := ReleaseLoop(s.tiles, debtor.owned);
      settled := s.(tiles := released.tiles, chanceDeck := chanceDeck, chestDeck := chestDeck);
    }
    var players := settled.players[b.debtor := Eliminated(debtor, g.start, s.turn.number)];
    settled := settled.(players := RefreshAll(g, settled.tiles, players), bankruptcy := None);
    assert settled == SettleEstate(g, s);
    var resolved := CheckWin(settled);
    if resolved.finished {
      return resolved;
    }
    r := AdvanceTurnOffPlayer(resolved, b.debtor);
  }

  lemma InheritSeats(g: Config, s: State, debtor: Seat, creditor: Seat, owed: int)
    requires debtor < |s.players| && creditor < |s.players|
    ensures |AssetsToCreditor(g, s, debtor, creditor, owed).players| == |s.players|
  {}
}
