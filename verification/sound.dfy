/** What a game mode must provide, and the well-formedness every reachable state has on every run. */
module Soundness {
  import opened GameTypes

  predicate IsJailCard(g: Config, id: CardId) {
    id in g.cards && g.cards[id] == GetOutOfJailFree
  }

  /** The card is in the table, and an advance card names a square that is not a card square. */
  predicate CardOk(g: Config, id: CardId) {
    && id in g.cards
    && (g.cards[id].AdvanceTo? ==> OnBoard(g, g.cards[id].position) && !IsCardSquare(g, g.cards[id].position))
  }

  predicate HasOrdinaryCard(g: Config, deck: seq<CardId>) {
    exists k :: 0 <= k < |deck| && !IsJailCard(g, deck[k])
  }

  ghost predicate ValidConfig(g: Config) {
    && OnBoard(g, g.start) && OnBoard(g, g.jail)
    && (exists p :: p in g.railroads) && (exists p :: p in g.utilities)
    && (forall p :: p in g.railroads ==> OnBoard(g, p) && !IsCardSquare(g, p))
    && (forall p :: p in g.utilities ==> OnBoard(g, p) && !IsCardSquare(g, p))
    && (forall k :: 0 <= k < |g.chanceDeck| ==> CardOk(g, g.chanceDeck[k]))
    && (forall k :: 0 <= k < |g.chestDeck| ==> CardOk(g, g.chestDeck[k]))
    && IsJailCard(g, CHANCE_JAIL_CARD) && IsJailCard(g, CHEST_JAIL_CARD)
    && (forall p {:trigger SpaceOk(g, p)} :: OnBoard(g, p) ==> SpaceOk(g, p))
    && g.turnTimeout > 0
  }

  /** A card square has a deck that cannot run out; taxes, prices and building costs make sense. */
  predicate SpaceOk(g: Config, p: int) {
    var space := SpaceAt(g, p);
    && (space.kind == Chance ==> HasOrdinaryCard(g, g.chanceDeck))
    && (space.kind == Chest ==> HasOrdinaryCard(g, g.chestDeck))
    && (space.tax.Some? ==> space.tax.value > 0)
    && (IsPurchasable(g, p) ==> space.price.Some?)
    && (space.color.Some? ==> space.kind == Property)
    && space.unmortgageCost >= space.mortgageValue
  }

  /** Every card other than the jail cards is in the deck as often as in the mode's full deck. */
  ghost predicate DeckKept(g: Config, deck: seq<CardId>, full: seq<CardId>) {
    && (forall k :: 0 <= k < |deck| ==> CardOk(g, deck[k]))
    && (forall id :: !IsJailCard(g, id) ==> multiset(deck)[id] == multiset(full)[id])
  }

  ghost predicate GoodRefs(g: Config, s: State) {
    var n := |s.players|;
    && s.turn.current < n
    && (s.turn.pending.Some? ==> OnBoard(g, s.turn.pending.value))
    && (s.auction.Some? ==> OnBoard(g, s.auction.value.position)
                            && (s.auction.value.leader.Some? ==> s.auction.value.leader.value < n))
    && (s.trade.Some? ==> s.trade.value.proposer < n && s.trade.value.target < n
                          && s.trade.value.proposer != s.trade.value.target)
    && (s.bankruptcy.Some? ==>
          && s.bankruptcy.value.debtor < n
          && (s.bankruptcy.value.creditor.Some? ==>
                s.bankruptcy.value.creditor.value < n && s.bankruptcy.value.creditor.value != s.bankruptcy.value.debtor))
  }

  ghost predicate GoodPlayers(g: Config, players: seq<Player>) {
    forall i :: 0 <= i < |players| ==> OnBoard(g, players[i].position)
  }

  ghost predicate GoodTiles(g: Config, tiles: seq<Tile>, n: nat) {
    && |tiles| == |g.board|
    && (forall k :: 0 <= k < |tiles| ==> tiles[k].owner.Some? ==> tiles[k].owner.value < n)
  }

  ghost predicate GoodDecks(g: Config, s: State) {
    && DeckKept(g, s.chanceDeck, g.chanceDeck)
    && DeckKept(g, s.chestDeck, g.chestDeck)
  }

  /** References resolve, everyone stands on the board, and the decks hold their ordinary cards. */
  ghost predicate Good(g: Config, s: State) {
    GoodRefs(g, s) && GoodPlayers(g, s.players) && GoodTiles(g, s.tiles, |s.players|) && GoodDecks(g, s)
  }

  lemma DeckNotEmpty(g: Config, deck: seq<CardId>, full: seq<CardId>)
    requires DeckKept(g, deck, full) && HasOrdinaryCard(g, full)
    ensures deck != []
  {
    var k :| 0 <= k < |full| && !IsJailCard(g, full[k]);
    assert multiset(full)[full[k]] > 0;
    assert multiset(deck)[full[k]] > 0;
  }
}
