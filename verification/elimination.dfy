/** `rules/bankruptcy.py` and `rules/surrender.py`: leaving the game, and who plays next. */
module Elimination {
  import opened GameTypes
  import opened Seqs
  import opened Worth
  import opened Payments
  import opened PropertyRules

  // ---------------------------------------------------------------- the players still in the game

  /** The active seats among the first `k`, in order. */
  function ActiveSeats(players: seq<Player>, k: nat): seq<Seat>
    requires k <= |players|
  {
    if k == 0 then []
    else ActiveSeats(players, k - 1) + (if players[k - 1].bankrupt then [] else [k - 1])
  }

  function Survivors(s: State): seq<Seat> {
    ActiveSeats(s.players, |s.players|)
  }

  /** `check_win_condition`. */
  function CheckWin(s: State): (r: State)
    ensures r.players == s.players && r.turn.current == s.turn.current
  {
    if |Survivors(s)| == 1 && !s.finished then
      s.(finished := true, winner := Some(Survivors(s)[0]), turn := s.turn.(phase := GameOver))
    else s
  }

  // ---------------------------------------------------------------- turn order

  /** The seat `k` places after `start` around a table of `n`. */
  function SeatAfter(n: nat, start: nat, k: nat): (r: nat)
    requires n > 0
    ensures r < n
  {
    (start + k) % n
  }

  lemma SeatAfterValue(n: nat, start: nat, k: nat)
    requires start < n && k <= n
    ensures SeatAfter(n, start, k) == if start + k < n then start + k else start + k - n
  {
    ModOnce(start + k, n);
  }

  /** The cyclic scan of `advance_turn_off_player`: the least offset from `k` on that leads to an
      active player. */
  function NextOffset(players: seq<Player>, start: nat, k: nat): Option<nat>
    requires players != []
    decreases |players| + 1 - k
  {
    if k > |players| then None
    else if !players[SeatAfter(|players|, start, k)].bankrupt then Some(k)
    else NextOffset(players, start, k + 1)
  }

  /** The turn handed to seat `next`; `wrapped` says whether a new round starts. */
  function TurnFor(s: State, next: Seat, wrapped: bool): Turn
    requires next < |s.players|
  {
    s.turn.(current := next, phase := if s.players[next].jail.Some? then JailDecision else PreRoll,
            number := s.turn.number + 1, round := s.turn.round + (if wrapped then 1 else 0),
            dice := None, streak := 0, tradeOffers := 0, pending := None)
  }

  /** `advance_turn_off_player`. */
  function AdvanceOff(s: State, from: Seat): State
    requires s.players != []
  {
    var n := |s.players|;
    match NextOffset(s.players, from, 1)
    case None => s
    case Some(k) => s.(turn := TurnFor(s, SeatAfter(n, from, k), from + k >= n))
  }

  /** The scanning loop of the source finds the same player. */
  method AdvanceTurnOffPlayer(s: State, from: Seat) returns (r: State)
    requires s.players != [] && from < |s.players|
    ensures r == AdvanceOff(s, from)
  {
    var n := |s.players|;
    var offset := 1;
    while offset <= n
      invariant 1 <= offset <= n + 1
      invariant NextOffset(s.players, from, 1) == NextOffset(s.players, from, offset)
    {
      var next := SeatAfter(n, from, offset);
      if !s.players[next].bankrupt {
        return s.(turn := TurnFor(s, next, from + offset >= n));
      }
      offset := offset + 1;
    }
    return s;
  }

  // ---------------------------------------------------------------- assets of a leaving player

  function AppendCards(deck: seq<CardId>, card: CardId, n: int): seq<CardId> {
    if n <= 0 then deck else AppendCards(deck, card, n - 1) + [card]
  }

  datatype Released = Released(tiles: seq<Tile>, houses: int, hotels: int)

  /** Clears the tiles one by one, counting the buildings that come off them. */
  function ReleaseTiles(tiles: seq<Tile>, owned: seq<int>): (r: Released)
    ensures |r.tiles| == |tiles|
  {
    if owned == [] then Released(tiles, 0, 0)
    else
      var r := ReleaseTiles(tiles, owned[..|owned| - 1]);
      var p := owned[|owned| - 1];
      var t := TileAt(r.tiles, p);
      Released(SetTile(r.tiles, p, BARE),
               r.houses + (if t.hasHotel then 0 else t.houses),
               r.hotels + (if t.hasHotel then 1 else 0))
  }

  /** Mortgage interest a creditor pays on the first positions: a tenth of each mortgaged value. */
  function Interest(g: Config, tiles: seq<Tile>, owned: seq<int>): int {
    if owned == [] then 0
    else
      var p := owned[|owned| - 1];
      Interest(g, tiles, owned[..|owned| - 1])
      + (if TileAt(tiles, p).mortgaged then SpaceAt(g, p).mortgageValue / 10 else 0)
  }

  // ---------------------------------------------------------------- bankruptcy

  function Min(a: int, b: int): int {
    if a <= b then a else b
  }

  /** `resolve_bankruptcy` up to the elimination: where the debtor's assets go. */
  function AssetsToCreditor(g: Config, s: State, debtor: Seat, creditor: Seat, owed: int): State
    requires debtor < |s.players| && creditor < |s.players|
  {
    var d := s.players[debtor];
    var c := s.players[creditor];
    var c' := c.(balance := c.balance + Min(d.balance, owed) - Interest(g, s.tiles, d.owned),
                 owned := SortedSet(c.owned + d.owned),
                 jailCards := c.jailCards + d.jailCards);
    s.(players := s.players[creditor := c'], tiles := Reassign(s.tiles, d.owned, Some(creditor)))
  }

  function AssetsToBank(s: State, debtor: Seat): State
    requires debtor < |s.players|
  {
    var d := s.players[debtor];
    s.(tiles := ReleaseTiles(s.tiles, d.owned).tiles,
       chanceDeck := AppendCards(s.chanceDeck, CHANCE_JAIL_CARD, d.jailCards),
       chestDeck := AppendCards(s.chestDeck, CHEST_JAIL_CARD, d.jailCards))
  }

  /** The record of a player who is out of the game. */
  function Eliminated(p: Player, position: int, turnNumber: int): Player {
    p.(balance := 0, owned := [], jailCards := 0, jail := None, bankrupt := true,
       position := position, eliminatedAt := Some(turnNumber))
  }

  /** Everything `resolve_bankruptcy` does before the win check. */
  function SettleEstate(g: Config, s: State): State
    requires s.bankruptcy.Some? && s.bankruptcy.value.debtor < |s.players|
    requires s.bankruptcy.value.creditor.Some? ==> s.bankruptcy.value.creditor.value < |s.players|
  {
    var b := s.bankruptcy.value;
    var s1 := if b.creditor.Some? then AssetsToCreditor(g, s, b.debtor, b.creditor.value, b.owed)
              else AssetsToBank(s, b.debtor);
    var out := Eliminated(s.players[b.debtor], g.start, s.turn.number);
    s1.(players := RefreshAll(g, s1.tiles, s1.players[b.debtor := out]), bankruptcy := None)
  }

  /** `resolve_bankruptcy`. */
  function ResolveBankruptcy(g: Config, s: State): State
    requires s.bankruptcy.Some? && s.bankruptcy.value.debtor < |s.players|
    requires s.bankruptcy.value.creditor.Some? ==> s.bankruptcy.value.creditor.value < |s.players|
  {
    var s1 := CheckWin(SettleEstate(g, s));
    if s1.finished then s1 else AdvanceOff(s1, s.bankruptcy.value.debtor)
  }

  // ---------------------------------------------------------------- surrender

  /** The seats that share a surrendering player's cash. */
  function Recipients(players: seq<Player>, who: Seat, k: nat): seq<Seat>
    requires k <= |players|
  {
    if k == 0 then []
    else Recipients(players, who, k - 1) + (if k - 1 == who || players[k - 1].bankrupt then [] else [k - 1])
  }

  /** The share of the `n`-th of `m` recipients: everyone gets the quotient, the first ones one more. */
  function Share(cash: int, m: nat, n: nat): int
    requires m > 0
  {
    cash / m + (if n < cash % m then 1 else 0)
  }

  /** Pays the first `n` recipients their shares. */
  function PayShares(players: seq<Player>, to: seq<Seat>, cash: int, n: nat): (r: seq<Player>)
    requires n <= |to|
    requires forall k :: 0 <= k < |to| ==> to[k] < |players|
    ensures |r| == |players|
  {
    if n == 0 then players
    else
      var ps := PayShares(players, to, cash, n - 1);
      var p := ps[to[n - 1]];
      ps[to[n - 1] := p.(balance := p.balance + Share(cash, |to|, n - 1))]
  }

  lemma {:induction false} RecipientsInRange(players: seq<Player>, who: Seat, k: nat)
    requires k <= |players|
    ensures forall j :: 0 <= j < |Recipients(players, who, k)| ==>
              var r := Recipients(players, who, k)[j]; r < k && r != who && !players[r].bankrupt
    ensures forall r :: 0 <= r < k && r != who && !players[r].bankrupt ==> r in Recipients(players, who, k)
    ensures StrictlySorted(Recipients(players, who, k))
  {
    if k > 0 {
      RecipientsInRange(players, who, k - 1);
    }
  }

  /** `players` after the cash split of a surrender. */
  function SplitCash(players: seq<Player>, who: Seat): (r: seq<Player>)
    requires who < |players|
    ensures |r| == |players|
  {
    var to := Recipients(players, who, |players|);
    var cash := players[who].balance;
    RecipientsInRange(players, who, |players|);
    if to != [] && cash > 0 then PayShares(players, to, cash, |to|) else players
  }

  /** Everything `resolve_surrender` does before the win check. */
  function LeaveTable(g: Config, s: State, who: Seat): State
    requires who < |s.players|
  {
    var p := s.players[who];
    var r := ReleaseTiles(s.tiles, p.owned);
    var players := SplitCash(s.players, who)[who := Eliminated(p, p.position, s.turn.number)];
    s.(players := RefreshAll(g, r.tiles, players), tiles := r.tiles,
       bankHouses := s.bankHouses + r.houses, bankHotels := s.bankHotels + r.hotels,
       chanceDeck := AppendCards(s.chanceDeck, CHANCE_JAIL_CARD, p.jailCards),
       chestDeck := AppendCards(s.chestDeck, CHEST_JAIL_CARD, p.jailCards))
  }

  /** `resolve_surrender`. */
  function ResolveSurrender(g: Config, s: State, who: Seat): State
    requires who < |s.players|
  {
    if s.players[who].bankrupt then s
    else
      var s1 := CheckWin(LeaveTable(g, s, who));
      if s1.finished then s1
      else if s1.turn.current == who then AdvanceOff(s1, who)
      else s1
  }

  // ---------------------------------------------------------------- the loops of `resolve_surrender`

  method ReleaseLoop(tiles: seq<Tile>, owned: seq<int>) returns (r: Released)
    ensures r == ReleaseTiles(tiles, owned)
  {
    var left, houses, hotels := tiles, 0, 0;
    for k := 0 to |owned|
      invariant Released(left, houses, hotels) == ReleaseTiles(tiles, owned[..k])
    {
      assert owned[..k + 1][..k] == owned[..k];
      var p := owned[k];
      var t := TileAt(left, p);
      if t.hasHotel {
        hotels := hotels + 1;
      } else {
        houses := houses + t.houses;
      }
      left := SetTile(left, p, BARE);
    }
    assert owned[..|owned|] == owned;
    r := Released(left, houses, hotels);
  }

  method ReturnCardsLoop(deck: seq<CardId>, card: CardId, n: int) returns (r: seq<CardId>)
    ensures r == AppendCards(deck, card, n)
  {
    r := deck;
    var k := 0;
    while k < n
      invariant k == 0 || k <= n
      invariant r == AppendCards(deck, card, k)
    {
      r := r + [card];
      k := k + 1;
    }
  }

  method SplitCashLoop(players: seq<Player>, who: Seat) returns (r: seq<Player>)
    requires who < |players|
    ensures r == SplitCash(players, who)
  {
    var recipients := Recipients(players, who, |players|);
    RecipientsInRange(players, who, |players|);
    var cash := players[who].balance;
    r := players;
    if recipients != [] && cash > 0 {
      var share, remainder := cash / |recipients|, cash % |recipients|;
      for n := 0 to |recipients|
        invariant r == PayShares(players, recipients, cash, n)
      {
        var extra := if n < remainder then 1 else 0;
        var recipient := r[recipients[n]];
        r := r[recipients[n] := recipient.(balance := recipient.balance + share + extra)];
      }
    }
  }

  /** The imperative text of `resolve_surrender` computes the specification above. */
  method Surrendered(g: Config, s: State, who: Seat) returns (r: State)
    requires who < |s.players|
    ensures r == ResolveSurrender(g, s, who)
  {
    var player := s.players[who];
    if player.bankrupt {
      return s;
    }
    var released := ReleaseLoop(s.tiles, player.owned);
    var chanceDeck := ReturnCardsLoop(s.chanceDeck, CHANCE_JAIL_CARD, player.jailCards);
    var chestDeck := ReturnCardsLoop(s.chestDeck, CHEST_JAIL_CARD, player.jailCards);
    var players := SplitCashLoop(s.players, who);
    players := players[who := Eliminated(player, player.position, s.turn.number)];
    var left := s.(players := RefreshAll(g, released.tiles, players), tiles := released.tiles,
                   bankHouses := s.bankHouses + released.houses, bankHotels := s.bankHotels + released.hotels,
                   chanceDeck := chanceDeck, chestDeck := chestDeck);
    var resolved := CheckWin(left);
    if resolved.finished {
      return resolved;
    }
    if resolved.turn.current == who {
      r := AdvanceTurnOffPlayer(resolved, who);
    } else {
      r := resolved;
    }
  }
}
