/** `rules/payments.py`: payments, and the bankruptcy state an unaffordable payment opens. */
module Payments {
  import opened GameTypes
  import opened Seqs
  import opened Worth

  function WithPlayer(s: State, i: Seat, p: Player): State
    requires i < |s.players|
  {
    s.(players := s.players[i := p])
  }

  function WithPhase(s: State, phase: Phase): State {
    s.(turn := s.turn.(phase := phase))
  }

  /** Adds `amount` to one balance and recomputes that player's net worth. */
  function Credited(g: Config, s: State, i: Seat, amount: int): State
    requires i < |s.players|
  {
    var p := s.players[i];
    WithPlayer(s, i, Refreshed(g, s.tiles, p.(balance := p.balance + amount)))
  }

  /** `_transfer_funds`. */
  function Transfer(g: Config, s: State, payer: Seat, creditor: Option<Seat>, amount: int): State
    requires payer < |s.players|
    requires creditor.Some? ==> creditor.value < |s.players|
  {
    var s1 := Credited(g, s, payer, -amount);
    if creditor.None? then s1 else Credited(g, s1, creditor.value, amount)
  }

  /** `attempt_payment`. */
  function AttemptPayment(g: Config, s: State, payer: Seat, creditor: Option<Seat>, amount: int): State
    requires payer < |s.players|
    requires creditor.Some? ==> creditor.value < |s.players|
  {
    if amount <= 0 then s
    else if s.players[payer].balance >= amount then Transfer(g, s, payer, creditor, amount)
    else if s.bankruptcy.Some? then s
    else WithPhase(s, Bankrupting).(bankruptcy := Some(Bankruptcy(payer, creditor, amount)))
  }

  /** `try_settle_debt`. */
  function TrySettleDebt(g: Config, s: State): (r: State)
    requires s.bankruptcy.Some? ==>
      && s.bankruptcy.value.debtor < |s.players|
      && (s.bankruptcy.value.creditor.Some? ==> s.bankruptcy.value.creditor.value < |s.players|)
    ensures |r.players| == |s.players| && r.turn.current == s.turn.current
  {
    if s.bankruptcy.None? then s
    else
      var b := s.bankruptcy.value;
      if s.players[b.debtor].balance >= b.owed then
        WithPhase(Transfer(g, s, b.debtor, b.creditor, b.owed), PostRoll).(bankruptcy := None)
      else s
  }

  // ---------------------------------------------------------------- the ledger

  function Balances(players: seq<Player>): (r: seq<int>)
    ensures |r| == |players|
    ensures forall i :: 0 <= i < |r| ==> r[i] == players[i].balance
  {
    seq(|players|, i requires 0 <= i < |players| => players[i].balance)
  }

  /** All the money in players' hands. */
  function Money(s: State): int {
    Sum(Balances(s.players))
  }

  lemma MoneyUpdate(s: State, i: Seat, p: Player)
    requires i < |s.players|
    ensures Money(WithPlayer(s, i, p)) == Money(s) - s.players[i].balance + p.balance
  {
    SumUpdate(Balances(s.players), i, p.balance);
    assert Balances(s.players[i := p]) == Balances(s.players)[i := p.balance];
  }

  lemma MoneyCredited(g: Config, s: State, i: Seat, amount: int)
    requires i < |s.players|
    ensures Money(Credited(g, s, i, amount)) == Money(s) + amount
  {
    var p := s.players[i];
    MoneyUpdate(s, i, Refreshed(g, s.tiles, p.(balance := p.balance + amount)));
  }

  lemma MoneySame(s: State, s': State)
    requires |s.players| == |s'.players|
    requires forall i :: 0 <= i < |s.players| ==> s.players[i].balance == s'.players[i].balance
    ensures Money(s) == Money(s')
  {
    assert Balances(s.players) == Balances(s'.players);
  }

  /** A transfer between players moves money and creates none; a payment to the bank destroys it. */
  lemma TransferLedger(g: Config, s: State, payer: Seat, creditor: Option<Seat>, amount: int)
    requires payer < |s.players|
    requires creditor.Some? ==> creditor.value < |s.players|
    ensures Money(Transfer(g, s, payer, creditor, amount)) == Money(s) - (if creditor.None? then amount else 0)
  {
    MoneyCredited(g, s, payer, -amount);
    if creditor.Some? {
      MoneyCredited(g, Credited(g, s, payer, -amount), creditor.value, amount);
    }
  }
}
