/** Money, net worth and the length of the card chain in one landing. */
module LandingMoney {
  import opened GameTypes
  import opened Seqs
  import opened Soundness
  import opened Worth
  import opened Payments
  import opened Landing

  // ---------------------------------------------------------------- card effects between players

  /** Change of every balance but the collector's when everyone hands over a contribution. */
  function CollectDeltas(players: seq<Player>, i: Seat, amount: int): (r: seq<int>)
    ensures |r| == |players|
    ensures forall j :: 0 <= j < |r| ==> r[j] == -Contribution(players, i, j, amount)
  {
    seq(|players|, j requires 0 <= j < |players| => -Contribution(players, i, j, amount))
  }

  /** Change of every balance but the payer's when everyone else is paid `amount`. */
  function PayDeltas(players: seq<Player>, i: Seat, amount: int): (r: seq<int>)
    ensures |r| == |players|
    ensures forall j :: 0 <= j < |r| ==> r[j] == if j == i || players[j].bankrupt then 0 else amount
  {
    seq(|players|, j requires 0 <= j < |players| => if j == i || players[j].bankrupt then 0 else amount)
  }

  lemma {:induction false} CollectDeltasSum(players: seq<Player>, i: Seat, amount: int, k: nat)
    requires k <= |players|
    ensures Sum(CollectDeltas(players, i, amount)[..k]) == -Contributions(players, i, amount, k)
  {
    if k > 0 {
      CollectDeltasSum(players, i, amount, k - 1);
      var ds := CollectDeltas(players, i, amount);
      assert ds[..k][..k - 1] == ds[..k - 1];
    }
  }

  lemma {:induction false} PayDeltasSum(players: seq<Player>, i: Seat, amount: int, k: nat)
    requires k <= |players|
    ensures Sum(PayDeltas(players, i, amount)[..k]) == amount * ActiveOthers(players, i, k)
  {
    if k > 0 {
      PayDeltasSum(players, i, amount, k - 1);
      var ds := PayDeltas(players, i, amount);
      assert ds[..k][..k - 1] == ds[..k - 1];
      var a := ActiveOthers(players, i, k - 1);
      assert amount * (a + 1) == amount * a + amount;
    }
  }

  lemma MoneyFromDeltas(s: State, s': State, ds: seq<int>)
    requires |s.players| == |s'.players| == |ds|
    requires forall j :: 0 <= j < |ds| ==> s'.players[j].balance == s.players[j].balance + ds[j]
    ensures Money(s') == Money(s) + Sum(ds)
  {
    SumDifference(Balances(s.players), Balances(s'.players), ds);
  }

  /** Collecting from every player only moves money between players. */
  lemma CollectLedger(g: Config, s: State, i: Seat, amount: int)
    requires i < |s.players|
    ensures Money(CollectFromAll(g, s, i, amount)) == Money(s)
  {
    hide Assets, Sum, Contributions;
    var n := |s.players|;
    var ds := CollectDeltas(s.players, i, amount);
    var total := Contributions(s.players, i, amount, n);
    CollectDeltasSum(s.players, i, amount, n);
    assert ds[..n] == ds;
    SumUpdate(ds, i, total);
    MoneyFromDeltas(s, CollectFromAll(g, s, i, amount), ds[i := total]);
  }

  /** Paying every player only moves money between players. */
  lemma PayAllLedger(g: Config, s: State, i: Seat, amount: int)
    requires i < |s.players|
    ensures Money(PayToAll(g, s, i, amount)) == Money(s)
  {
    hide Assets, Sum, ActiveOthers;
    var n := |s.players|;
    var ds := PayDeltas(s.players, i, amount);
    var total := amount * ActiveOthers(s.players, i, n);
    PayDeltasSum(s.players, i, amount, n);
    assert ds[..n] == ds;
    SumUpdate(ds, i, -total);
    MoneyFromDeltas(s, PayToAll(g, s, i, amount), ds[i := -total]);
  }

  // ---------------------------------------------------------------- the loops of the two effects

  /** The loop of the collect effect. */
  method CollectLoop(g: Config, s: State, i: Seat, amount: int) returns (r: State)
    requires i < |s.players|
    ensures r == CollectFromAll(g, s, i, amount)
  {
    var players := s.players;
    var total := 0;
    for j := 0 to |players|
      invariant |players| == |s.players|
      invariant total == Contributions(s.players, i, amount, j)
      invariant forall k :: 0 <= k < j ==>
                  players[k] == (if k == i || s.players[k].bankrupt then s.players[k]
                                 else Refreshed(g, s.tiles, s.players[k].(balance := s.players[k].balance
                                                                          - Contribution(s.players, i, k, amount))))
      invariant forall k :: j <= k < |players| ==> players[k] == s.players[k]
    {
      var other := players[j];
      if j == i || other.bankrupt {
        continue;
      }
      var pay := if amount < other.balance then amount else other.balance;
      players := players[j := Refreshed(g, s.tiles, other.(balance := other.balance - pay))];
      total := total + pay;
    }
    var receiver := players[i];
    players := players[i := Refreshed(g, s.tiles, receiver.(balance := receiver.balance + total))];
    r := s.(players := players);
    assert players == CollectFromAll(g, s, i, amount).players;
  }

  /** The loop of the repairs effect. */
  method RepairsLoop(tiles: seq<Tile>, owned: seq<int>, perHouse: int, perHotel: int) returns (cost: int)
    ensures cost == RepairsCost(tiles, owned, perHouse, perHotel)
  {
    cost := 0;
    for k := 0 to |owned|
      invariant cost == RepairsCost(tiles, owned[..k], perHouse, perHotel)
    {
      assert owned[..k + 1][..k] == owned[..k];
      var t := TileAt(tiles, owned[k]);
      if t.hasHotel {
        cost := cost + perHotel;
      } else {
        cost := cost + perHouse * t.houses;
      }
    }
    assert owned[..|owned|] == owned;
  }

  // ---------------------------------------------------------------- the ledger of a landing

  /** What the bank pays out for one event; an unpaid fine (`unpaid`) leaves a debt instead. */
  function EventFlow(g: Config, s: State, e: Event, unpaid: bool): int {
    match e
    case PassedGo(_, amount) => amount
    case TaxPaid(_, _, amount) => -amount
    case CardDrawn(i, card) =>
      if card !in g.cards then 0
      else (match g.cards[card]
            case Collect(amount) => amount
            case Pay(amount) => if unpaid || amount <= 0 then 0 else -amount
            case Repairs(perHouse, perHotel) =>
              if i >= |s.players| then 0
              else
                var cost := RepairsCost(s.tiles, s.players[i].owned, perHouse, perHotel);
                if unpaid || cost <= 0 then 0 else -cost
            case _ => 0)
    case _ => 0
  }

  /** The bank's net payment over a list of events. */
  function Flow(g: Config, s: State, events: seq<Event>, unpaid: bool): int {
    if events == [] then 0
    else Flow(g, s, events[..|events| - 1], unpaid) + EventFlow(g, s, events[|events| - 1], unpaid)
  }

  lemma {:induction false} FlowConcat(g: Config, s: State, a: seq<Event>, b: seq<Event>, unpaid: bool)
    ensures Flow(g, s, a + b, unpaid) == Flow(g, s, a, unpaid) + Flow(g, s, b, unpaid)
  {
    if b == [] {
      assert a + b == a;
    } else {
      var n := |b| - 1;
      FlowConcat(g, s, a, b[..n], unpaid);
      assert (a + b)[..|a + b| - 1] == a + b[..n];
    }
  }

  lemma FlowOne(g: Config, s: State, e: Event, unpaid: bool)
    ensures Flow(g, s, [e], unpaid) == EventFlow(g, s, e, unpaid)
  {
    assert [e][..0] == [];
  }

  /** The flow of an event depends on the tiles and on what each player owns only. */
  lemma {:induction false} FlowFrame(g: Config, a: State, b: State, events: seq<Event>, unpaid: bool)
    requires a.tiles == b.tiles && |a.players| == |b.players|
    requires forall j :: 0 <= j < |a.players| ==> a.players[j].owned == b.players[j].owned
    ensures Flow(g, a, events, unpaid) == Flow(g, b, events, unpaid)
  {
    if events != [] {
      FlowFrame(g, a, b, events[..|events| - 1], unpaid);
    }
  }

  lemma RefreshLedger(g: Config, s: State)
    ensures Money(Refresh(g, s)) == Money(s)
  {
    MoneySame(s, Refresh(g, s));
  }

  lemma PaymentLedger(g: Config, s: State, i: Seat, creditor: Option<Seat>, amount: int)
    requires i < |s.players| && s.bankruptcy.None?
    requires creditor.Some? ==> creditor.value < |s.players|
    ensures var s' := AttemptPayment(g, s, i, creditor, amount);
            Money(s') == Money(s) - (if creditor.Some? || s'.bankruptcy.Some? || amount <= 0 then 0 else amount)
  {
    hide Assets;
    TransferLedger(g, s, i, creditor, amount);
  }

  lemma PlainLedger(g: Config, s: State, i: Seat, dice: DiceRoll, multiplier: int)
    requires ValidConfig(g) && Good(g, s) && i < |s.players| && s.bankruptcy.None?
    ensures var r := LandOnPlainSquare(g, s, i, dice, multiplier);
            Money(r.s) == Money(s) + Flow(g, s, r.events, r.s.bankruptcy.Some?)
  {
    hide ValidConfig, DeckKept, Assets, CalculateRent, Flow, AttemptPayment, LandFreely, LandOnGotoJail;
    var pos := s.players[i].position;
    var space := SpaceAt(g, pos);
    var t := TileAt(s.tiles, pos);
    var r := LandOnPlainSquare(g, s, i, dice, multiplier);
    FlowNone(g, s, r.s.bankruptcy.Some?);
    RefreshLedger(g, s);
    if space.corner == Some(GotoJail) {
      FlowOne(g, s, SentToJail(i, BySpace), r.s.bankruptcy.Some?);
      JailMoney(g, s, i);
    } else if space.kind == Tax && space.tax.Some? {
      TaxPositive(g, pos);
      PaymentLedger(g, Refresh(g, s), i, None, space.tax.value);
      PaymentSeats(g, Refresh(g, s), i, None, space.tax.value);
      FlowOne(g, s, TaxPaid(i, pos, space.tax.value), r.s.bankruptcy.Some?);
    } else if IsPurchasable(g, pos) && t.owner.Some? && t.owner.value != i && !t.mortgaged {
      var rent := CalculateRent(g, s.tiles, pos, dice.die1 + dice.die2, multiplier);
      PaymentLedger(g, Refresh(g, s), i, t.owner, rent);
      FlowOne(g, s, RentPaid(i, t.owner.value, pos, rent), r.s.bankruptcy.Some?);
    } else {
      FreelyMoney(g, s, i);
    }
  }

  lemma FlowNone(g: Config, s: State, unpaid: bool)
    ensures Flow(g, s, [], unpaid) == 0
  {}

  lemma TaxPositive(g: Config, p: int)
    requires ValidConfig(g) && OnBoard(g, p)
    ensures SpaceAt(g, p).tax.Some? ==> SpaceAt(g, p).tax.value > 0
  {
    assert SpaceOk(g, p);
  }

  lemma PaymentSeats(g: Config, s: State, i: Seat, creditor: Option<Seat>, amount: int)
    requires i < |s.players|
    requires creditor.Some? ==> creditor.value < |s.players|
    ensures |AttemptPayment(g, s, i, creditor, amount).players| == |s.players|
  {}

  lemma JailMoney(g: Config, s: State, i: Seat)
    requires i < |s.players|
    ensures Money(LandOnGotoJail(g, s, i).s) == Money(s)
    ensures LandOnGotoJail(g, s, i).events == [SentToJail(i, BySpace)]
  {
    MoneySame(s, LandOnGotoJail(g, s, i).s);
  }

  lemma FreelyMoney(g: Config, s: State, i: Seat)
    requires i < |s.players|
    ensures Money(LandFreely(g, s, i).s) == Money(s)
    ensures LandFreely(g, s, i).events == []
  {
    MoneySame(s, LandFreely(g, s, i).s);
  }

  /** A card that neither moves nor jails: its flow is that of the drawing event. */
  lemma StandingLedger(g: Config, s: State, i: Seat, card: CardId)
    requires i < |s.players| && s.bankruptcy.None? && card in g.cards
    requires !Moves(g.cards[card]) && !g.cards[card].GoToJail?
    ensures var s' := StandingEffect(g, s, i, g.cards[card]);
            Money(s') == Money(s) + EventFlow(g, s, CardDrawn(i, card), s'.bankruptcy.Some?)
  {
    hide Assets, AttemptPayment, Contributions, ActiveOthers, RepairsCost, CollectFromAll, PayToAll;
    var effect := g.cards[card];
    match effect
    case Collect(amount) => StoreMoney(g, s, i, s.players[i].(balance := s.players[i].balance + amount));
    case GetOutOfJailFree => StoreMoney(g, s, i, s.players[i].(jailCards := s.players[i].jailCards + 1));
    case Pay(amount) => PaymentLedger(g, s, i, None, amount);
    case CollectFromEach(amount) => CollectLedger(g, s, i, amount); CollectBankruptcy(g, s, i, amount);
    case PayEach(amount) => PayAllLedger(g, s, i, amount);
    case Repairs(perHouse, perHotel) =>
      PaymentLedger(g, s, i, None, RepairsCost(s.tiles, s.players[i].owned, perHouse, perHotel));
  }

  lemma CollectBankruptcy(g: Config, s: State, i: Seat, amount: int)
    requires i < |s.players|
    ensures CollectFromAll(g, s, i, amount).bankruptcy == s.bankruptcy
    ensures PayToAll(g, s, i, amount).bankruptcy == s.bankruptcy
  {}

  lemma StoreMoney(g: Config, s: State, i: Seat, p: Player)
    requires i < |s.players|
    ensures Money(StorePlayer(g, s, i, p)) == Money(s) - s.players[i].balance + p.balance
  {
    hide Assets;
    MoneyUpdate(s, i, p);
    MoneySame(WithPlayer(s, i, p), StorePlayer(g, s, i, p));
  }

  lemma MoveMoney(g: Config, s: State, i: Seat, to: int, salary: bool, unpaid: bool)
    requires i < |s.players|
    ensures Money(CardMove(g, s, i, to, salary).0) == Money(s) + Flow(g, s, CardMove(g, s, i, to, salary).1, unpaid)
  {
    hide Assets;
    var p := s.players[i];
    StoreMoney(g, s, i, p.(position := to));
    var s1 := StorePlayer(g, s, i, p.(position := to));
    MoneyCredited(g, s1, i, g.goSalary);
    var move := PlayerMoved(i, p.position, to, 0, true);
    FlowOne(g, s, move, unpaid);
    FlowOne(g, s, PassedGo(i, g.goSalary), unpaid);
    FlowConcat(g, s, [move], [PassedGo(i, g.goSalary)], unpaid);
    assert [move] + [] == [move];
  }
}
