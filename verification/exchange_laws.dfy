/** The three operations that move several properties at once: trade, bankruptcy and surrender. */
module ExchangeLaws {
  import opened GameTypes
  import opened Seqs
  import opened Soundness
  import opened Worth
  import opened Payments
  import opened LandingChain
  import opened PropertyRules
  import opened Elimination
  import opened Engine
  import opened Invariants
  import opened PropertyLaws

  // ---------------------------------------------------------------- trade

  /** Both offers of a trade are valid. */
  predicate TradeValid(s: State, t: Trade) {
    && t.proposer < |s.players| && t.target < |s.players| && t.proposer != t.target
    && ValidateOffer(s, t.proposer, t.offer).Valid?
    && ValidateOffer(s, t.target, t.request).Valid?
  }

  lemma OfferFacts(s: State, who: Seat, offer: TradeOffer)
    requires ValidateOffer(s, who, offer).Valid?
    ensures who < |s.players| && offer.money <= s.players[who].balance && offer.jailCards <= s.players[who].jailCards
    ensures forall k :: 0 <= k < |offer.positions| ==>
              && HeldBy(s.tiles, who, offer.positions[k])
              && !(TileAt(s.tiles, offer.positions[k]).houses > 0 || TileAt(s.tiles, offer.positions[k]).hasHotel)
  {
    CheckedPositions(s.tiles, who, offer.positions);
  }

  /** Who holds a position after the exchange. */
  lemma ExchangeTiles(s: State, t: Trade, q: int)
    requires TradeValid(s, t) && 1 <= q <= |s.tiles|
    ensures var tiles' := Reassign(Reassign(s.tiles, t.offer.positions, Some(t.target)), t.request.positions, Some(t.proposer));
            TileAt(tiles', q) == if q in t.request.positions then TileAt(s.tiles, q).(owner := Some(t.proposer))
                                 else if q in t.offer.positions then TileAt(s.tiles, q).(owner := Some(t.target))
                                 else TileAt(s.tiles, q)
  {}

  lemma ExchangeOwned(g: Config, s: State, t: Trade)
    requires TradeValid(s, t)
    ensures var s' := Exchange(g, s, t);
            && StrictlySorted(s'.players[t.proposer].owned) && StrictlySorted(s'.players[t.target].owned)
            && (forall q :: q in s'.players[t.proposer].owned <==>
                  q in t.request.positions || (q in s.players[t.proposer].owned && q !in t.offer.positions))
            && (forall q :: q in s'.players[t.target].owned <==>
                  (q in t.offer.positions || q in s.players[t.target].owned) && q !in t.request.positions)
  {
    hide Assets, ValidateOffer, SortedSet, Reassign;
    var a, b := s.players[t.proposer].owned, s.players[t.target].owned;
    SortedSetIsSet(Without(a, t.offer.positions));
    SortedSetIsSet(SortedSet(Without(a, t.offer.positions)) + t.request.positions);
    SortedSetIsSet(b + t.offer.positions);
    SortedSetIsSet(Without(SortedSet(b + t.offer.positions), t.request.positions));
  }

  lemma ExchangeOwns(g: Config, s: State, t: Trade)
    requires TradeValid(s, t) && Owns(s)
    ensures Owns(Exchange(g, s, t))
  {
    hide Assets, SortedSet, Without, ValidateOffer;
    var s' := Exchange(g, s, t);
    ExchangeOwned(g, s, t);
    OfferFacts(s, t.proposer, t.offer);
    OfferFacts(s, t.target, t.request);
    forall i: Seat, q: int | i < |s.players| ensures q in s'.players[i].owned <==> HeldBy(s'.tiles, i, q) {
      HeldByOne(s, q);
      if 1 <= q <= |s.tiles| {
        ExchangeTiles(s, t, q);
      }
    }
  }

  lemma ExchangeStreets(g: Config, s: State, t: Trade)
    requires TradeValid(s, t) && Streets(g, s.tiles)
    ensures Streets(g, Exchange(g, s, t).tiles)
    ensures AllHouses(Exchange(g, s, t)) == AllHouses(s) && AllHotels(Exchange(g, s, t)) == AllHotels(s)
    ensures Exchange(g, s, t).bankHotels == s.bankHotels
  {
    hide Assets, SortedSet, Without, ValidateOffer, Streets;
    OfferFacts(s, t.proposer, t.offer);
    OfferFacts(s, t.target, t.request);
    var tiles1 := Reassign(s.tiles, t.offer.positions, Some(t.target));
    ReassignStreets(g, s.tiles, t.offer.positions, t.target);
    ReassignStreets(g, tiles1, t.request.positions, t.proposer);
    ReassignCounts(s.tiles, t.offer.positions, Some(t.target));
    ReassignCounts(tiles1, t.request.positions, Some(t.proposer));
  }

  /** A trade moves money and jail cards between its parties and creates none; with fair offers
      neither party is overdrawn by it. */
  lemma ExchangeLedger(g: Config, s: State, t: Trade)
    requires TradeValid(s, t)
    ensures Money(Exchange(g, s, t)) == Money(s)
    ensures JailTotal(g, Exchange(g, s, t)) == JailTotal(g, s)
    ensures FairOffer(t.offer) && FairOffer(t.request) ==>
              forall i :: 0 <= i < |s.players| && (i == t.proposer || i == t.target) ==>
                Exchange(g, s, t).players[i].balance >= 0 && Exchange(g, s, t).players[i].jailCards >= 0
  {
    hide Assets, SortedSet, Without, Sum, Reassign, CheckPositions;
    var s' := Exchange(g, s, t);
    var d := t.request.money - t.offer.money;
    var bs := Balances(s.players);
    SumUpdate(bs, t.proposer, bs[t.proposer] + d);
    SumUpdate(bs[t.proposer := bs[t.proposer] + d], t.target, bs[t.target] - d);
    assert Balances(s'.players) == bs[t.proposer := bs[t.proposer] + d][t.target := bs[t.target] - d];
    var e := t.request.jailCards - t.offer.jailCards;
    var hs := Hands(s.players);
    SumUpdate(hs, t.proposer, hs[t.proposer] + e);
    SumUpdate(hs[t.proposer := hs[t.proposer] + e], t.target, hs[t.target] - e);
    assert Hands(s'.players) == hs[t.proposer := hs[t.proposer] + e][t.target := hs[t.target] - e];
  }

  // ---------------------------------------------------------------- bankruptcy

  lemma EstateShape(g: Config, s: State)
    requires Good(g, s) && s.bankruptcy.Some?
    ensures var s' := SettleEstate(g, s);
            var b := s.bankruptcy.value;
            && |s'.players| == |s.players| && s'.bankruptcy.None? && WorthFresh(g, s')
            && (forall i :: 0 <= i < |s.players| && i != b.debtor && Some(i) != b.creditor ==>
                  s'.players[i] == s.players[i].(netWorth := s'.players[i].netWorth))
            && s'.players[b.debtor] == Eliminated(s.players[b.debtor], g.start, s.turn.number).(netWorth := s'.players[b.debtor].netWorth)
            && (b.creditor.Some? ==>
                  var c := s.players[b.creditor.value];
                  s'.players[b.creditor.value] == c.(balance := s'.players[b.creditor.value].balance,
                                                     netWorth := s'.players[b.creditor.value].netWorth,
                                                     owned := SortedSet(c.owned + s.players[b.debtor].owned),
                                                     jailCards := c.jailCards + s.players[b.debtor].jailCards))
            && s' == s.(players := s'.players, tiles := s'.tiles, bankruptcy := None,
                        chanceDeck := s'.chanceDeck, chestDeck := s'.chestDeck)
            && s'.tiles == if b.creditor.Some? then Reassign(s.tiles, s.players[b.debtor].owned, b.creditor)
                           else ReleaseTiles(s.tiles, s.players[b.debtor].owned).tiles
  {
    hide Assets, SortedSet, DeckKept, AppendCards, Interest;
  }

  lemma EstateOwns(g: Config, s: State)
    requires Good(g, s) && s.bankruptcy.Some? && Owns(s)
    ensures Owns(SettleEstate(g, s))
  {
    hide Assets, SortedSet, DeckKept, SettleEstate;
    EstateShape(g, s);
    var s' := SettleEstate(g, s);
    var b := s.bankruptcy.value;
    var owned := s.players[b.debtor].owned;
    if b.creditor.Some? {
      SortedSetIsSet(s.players[b.creditor.value].owned + owned);
    }
    forall i: Seat, q: int | i < |s.players| ensures q in s'.players[i].owned <==> HeldBy(s'.tiles, i, q) {
      HeldByOne(s, q);
      if 1 <= q <= |s.tiles| {
        ReleaseOwners(s.tiles, owned, q - 1);
      }
    }
  }

  lemma EstateStreets(g: Config, s: State)
    requires Good(g, s) && s.bankruptcy.Some? && Owns(s) && Streets(g, s.tiles)
    ensures Streets(g, SettleEstate(g, s).tiles)
  {
    hide Assets, SortedSet, DeckKept, SettleEstate, Streets;
    EstateShape(g, s);
    var b := s.bankruptcy.value;
    if b.creditor.Some? {
      InheritStreets(g, s, b.debtor, b.creditor.value);
    } else {
      ReleaseStreets(g, s, b.debtor);
    }
  }

  /** The buildings standing on what a player owns. */
  function HousesOf(s: State, who: Seat): int
    requires who < |s.players|
  {
    ReleaseTiles(s.tiles, s.players[who].owned).houses
  }

  function HotelsOf(s: State, who: Seat): int
    requires who < |s.players|
  {
    ReleaseTiles(s.tiles, s.players[who].owned).hotels
  }

  lemma OwnedReleaseCounts(g: Config, s: State, who: Seat)
    requires Owns(s) && Streets(g, s.tiles) && who < |s.players|
    ensures var r := ReleaseTiles(s.tiles, s.players[who].owned);
            Sum(Houses(r.tiles)) + HousesOf(s, who) == Sum(Houses(s.tiles))
            && Sum(Hotels(r.tiles)) + HotelsOf(s, who) == Sum(Hotels(s.tiles))
            && r.houses >= 0 && r.hotels >= 0
  {
    var owned := s.players[who].owned;
    forall k | 0 <= k < |s.tiles| ensures s.tiles[k].hasHotel ==> s.tiles[k].houses == 0 {
      assert TileOk(g, k + 1, TileAt(s.tiles, k + 1));
    }
    forall k | 0 <= k < |owned| ensures 1 <= owned[k] <= |s.tiles| {
      assert owned[k] in owned && HeldBy(s.tiles, who, owned[k]);
    }
    ReleaseCounts(g, s.tiles, owned);
    forall k | 0 <= k < |s.tiles| ensures s.tiles[k].houses >= 0 {
      assert TileOk(g, k + 1, TileAt(s.tiles, k + 1));
    }
    ReleaseNonNegative(s.tiles, owned);
  }

  lemma {:induction false} ReleaseNonNegative(tiles: seq<Tile>, owned: seq<int>)
    requires forall k :: 0 <= k < |tiles| ==> tiles[k].houses >= 0
    ensures ReleaseTiles(tiles, owned).houses >= 0 && ReleaseTiles(tiles, owned).hotels >= 0
    ensures forall k :: 0 <= k < |tiles| ==> ReleaseTiles(tiles, owned).tiles[k].houses >= 0
  {
    if owned != [] {
      ReleaseNonNegative(tiles, owned[..|owned| - 1]);
    }
  }

  /** A bankruptcy to the bank takes exactly the debtor's buildings out of the game; a bankruptcy to
      another player takes none. */
  lemma EstateInventory(g: Config, s: State)
    requires Good(g, s) && s.bankruptcy.Some? && Owns(s) && Streets(g, s.tiles)
    ensures var b := s.bankruptcy.value;
            var lost := b.creditor.None?;
            && AllHouses(SettleEstate(g, s)) == AllHouses(s) - (if lost then HousesOf(s, b.debtor) else 0)
            && AllHotels(SettleEstate(g, s)) == AllHotels(s) - (if lost then HotelsOf(s, b.debtor) else 0)
            && SettleEstate(g, s).bankHotels == s.bankHotels
            && HousesOf(s, b.debtor) >= 0 && HotelsOf(s, b.debtor) >= 0
  {
    hide Assets, SortedSet, DeckKept, SettleEstate, Streets, Sum, Owns;
    EstateShape(g, s);
    var b := s.bankruptcy.value;
    OwnedReleaseCounts(g, s, b.debtor);
    ReassignCounts(s.tiles, s.players[b.debtor].owned, b.creditor);
  }

  /** To a creditor go the debtor's money, up to the debt, less the interest on mortgages; whatever is
      not handed over, and the whole balance when the bank is the creditor, leaves the game. */
  lemma EstateLedger(g: Config, s: State)
    requires Good(g, s) && s.bankruptcy.Some?
    ensures var b := s.bankruptcy.value;
            var d := s.players[b.debtor];
            Money(SettleEstate(g, s)) == Money(s) - d.balance
              + (if b.creditor.Some? then Min(d.balance, b.owed) - Interest(g, s.tiles, d.owned) else 0)
  {
    hide Assets, SortedSet, DeckKept, AppendCards, Interest, Sum;
    var b := s.bankruptcy.value;
    var s' := SettleEstate(g, s);
    var bs := Balances(s.players);
    if b.creditor.Some? {
      var c := b.creditor.value;
      var v := bs[c] + Min(bs[b.debtor], b.owed) - Interest(g, s.tiles, s.players[b.debtor].owned);
      SumUpdate(bs, c, v);
      SumUpdate(bs[c := v], b.debtor, 0);
      assert Balances(s'.players) == bs[c := v][b.debtor := 0];
    } else {
      SumUpdate(bs, b.debtor, 0);
      assert Balances(s'.players) == bs[b.debtor := 0];
    }
  }

  lemma {:induction false} AppendJails(g: Config, deck: seq<CardId>, card: CardId, n: int)
    requires IsJailCard(g, card)
    ensures JailsIn(g, AppendCards(deck, card, n)) == JailsIn(g, deck) + (if n <= 0 then 0 else n)
    decreases n
  {
    if n > 0 {
      AppendJails(g, deck, card, n - 1);
      var d := AppendCards(deck, card, n - 1);
      assert (d + [card])[..|d|] == d;
    }
  }

  /** A creditor inherits the jail cards; the bank returns each of them to both decks, so their number
      grows by what the debtor held. */
  lemma EstateJails(g: Config, s: State)
    requires ValidConfig(g) && Good(g, s) && s.bankruptcy.Some?
    requires s.players[s.bankruptcy.value.debtor].jailCards >= 0
    ensures var b := s.bankruptcy.value;
            JailTotal(g, SettleEstate(g, s)) == JailTotal(g, s)
              + (if b.creditor.Some? then 0 else s.players[b.debtor].jailCards)
  {
    hide Assets, SortedSet, DeckKept, ValidConfig, Interest, Sum, JailsIn;
    JailOnBoard(g);
    var b := s.bankruptcy.value;
    var s' := SettleEstate(g, s);
    var hs := Hands(s.players);
    if b.creditor.Some? {
      var c := b.creditor.value;
      SumUpdate(hs, c, hs[c] + hs[b.debtor]);
      SumUpdate(hs[c := hs[c] + hs[b.debtor]], b.debtor, 0);
      assert Hands(s'.players) == hs[c := hs[c] + hs[b.debtor]][b.debtor := 0];
    } else {
      SumUpdate(hs, b.debtor, 0);
      assert Hands(s'.players) == hs[b.debtor := 0];
      AppendJails(g, s.chanceDeck, CHANCE_JAIL_CARD, hs[b.debtor]);
      AppendJails(g, s.chestDeck, CHEST_JAIL_CARD, hs[b.debtor]);
    }
  }
}
