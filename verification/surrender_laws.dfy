/** Laws of `rules/surrender.py`. */
module SurrenderLaws {
  import opened GameTypes
  import opened Seqs
  import opened Soundness
  import opened Worth
  import opened Payments
  import opened LandingChain
  import opened PropertyRules
  import opened Elimination
  import opened Handlers
  import opened Engine
  import opened Invariants
  import opened PropertyLaws
  import opened ExchangeLaws

  // ---------------------------------------------------------------- the cash split

  function Shares(cash: int, m: nat, n: nat): int
    requires m > 0
  {
    if n == 0 then 0 else Shares(cash, m, n - 1) + Share(cash, m, n - 1)
  }

  /** The first `n` of `m` shares: `n` quotients, and one more for each of the first `cash % m`. */
  lemma {:induction false} SharesClosedForm(cash: int, m: nat, n: nat)
    requires m > 0 && n <= m
    ensures Shares(cash, m, n) == n * (cash / m) + (if n <= cash % m then n else cash % m)
  {
    if n > 0 {
      SharesClosedForm(cash, m, n - 1);
      var q := cash / m;
      assert (n - 1) * q + q == n * q;
    }
  }

  /** The shares add up to the cash exactly, and no two of them differ by more than one. */
  lemma SharesExact(cash: int, m: nat)
    requires m > 0
    ensures Shares(cash, m, m) == cash
    ensures forall a: nat, b: nat :: a < m && b < m ==> Share(cash, m, a) - Share(cash, m, b) <= 1
  {
    SharesClosedForm(cash, m, m);
    assert m * (cash / m) + cash % m == cash;
  }

  lemma {:induction false} PaySharesLedger(players: seq<Player>, to: seq<Seat>, cash: int, n: nat)
    requires n <= |to|
    requires forall k :: 0 <= k < |to| ==> to[k] < |players|
    ensures Sum(Balances(PayShares(players, to, cash, n))) == Sum(Balances(players)) + (if n == 0 then 0 else Shares(cash, |to|, n))
  {
    hide Sum;
    if n > 0 {
      PaySharesLedger(players, to, cash, n - 1);
      var ps := PayShares(players, to, cash, n - 1);
      var v := ps[to[n - 1]].balance + Share(cash, |to|, n - 1);
      SumUpdate(Balances(ps), to[n - 1], v);
      assert Balances(PayShares(players, to, cash, n)) == Balances(ps)[to[n - 1] := v];
    }
  }

  /** What each remaining active player receives: the seats are distinct, so one share each. */
  lemma {:induction false} PaySharesEach(players: seq<Player>, to: seq<Seat>, cash: int, n: nat, k: nat)
    requires n <= |to| && k < |to| && StrictlySorted(to)
    requires forall j :: 0 <= j < |to| ==> to[j] < |players|
    ensures PayShares(players, to, cash, n)[to[k]].balance
            == players[to[k]].balance + (if k < n then Share(cash, |to|, k) else 0)
  {
    if n > 0 {
      PaySharesEach(players, to, cash, n - 1, k);
      assert k != n - 1 ==> to[k] != to[n - 1];
    }
  }

  lemma SplitLedger(players: seq<Player>, who: Seat)
    requires who < |players|
    ensures Sum(Balances(SplitCash(players, who))) == Sum(Balances(players))
              + (if Recipients(players, who, |players|) != [] && players[who].balance > 0 then players[who].balance else 0)
  {
    var to := Recipients(players, who, |players|);
    RecipientsInRange(players, who, |players|);
    if to != [] && players[who].balance > 0 {
      PaySharesLedger(players, to, players[who].balance, |to|);
      SharesExact(players[who].balance, |to|);
    }
  }

  // ---------------------------------------------------------------- leaving the table

  lemma LeaveShape(g: Config, s: State, who: Seat)
    requires who < |s.players|
    ensures var s' := LeaveTable(g, s, who);
            && |s'.players| == |s.players| && WorthFresh(g, s')
            && (forall i :: 0 <= i < |s.players| && i != who ==>
                  s'.players[i] == s.players[i].(netWorth := s'.players[i].netWorth, balance := s'.players[i].balance))
            && s'.players[who] == Eliminated(s.players[who], s.players[who].position, s.turn.number).(netWorth := s'.players[who].netWorth)
            && s'.tiles == ReleaseTiles(s.tiles, s.players[who].owned).tiles
            && s' == s.(players := s'.players, tiles := s'.tiles, bankHouses := s'.bankHouses, bankHotels := s'.bankHotels,
                        chanceDeck := s'.chanceDeck, chestDeck := s'.chestDeck)
            && s'.bankHouses == s.bankHouses + HousesOf(s, who) && s'.bankHotels == s.bankHotels + HotelsOf(s, who)
  {
    hide Assets, AppendCards, SplitCash;
    SplitFrame(s.players, who);
  }

  lemma LeaveOwns(g: Config, s: State, who: Seat)
    requires who < |s.players| && Owns(s)
    ensures Owns(LeaveTable(g, s, who))
  {
    hide LeaveTable;
    LeaveShape(g, s, who);
    var s' := LeaveTable(g, s, who);
    forall i: Seat, q: int | i < |s.players| ensures q in s'.players[i].owned <==> HeldBy(s'.tiles, i, q) {
      HeldByOne(s, q);
      if 1 <= q <= |s.tiles| {
        ReleaseOwners(s.tiles, s.players[who].owned, q - 1);
      }
    }
  }

  lemma LeaveStreets(g: Config, s: State, who: Seat)
    requires who < |s.players| && Owns(s) && Streets(g, s.tiles)
    ensures Streets(g, LeaveTable(g, s, who).tiles)
  {
    hide LeaveTable, Streets;
    LeaveShape(g, s, who);
    ReleaseStreets(g, s, who);
  }

  /** A surrender returns every building to the bank. */
  lemma LeaveInventory(g: Config, s: State, who: Seat)
    requires who < |s.players| && Owns(s) && Streets(g, s.tiles)
    ensures AllHouses(LeaveTable(g, s, who)) == AllHouses(s) && AllHotels(LeaveTable(g, s, who)) == AllHotels(s)
    ensures LeaveTable(g, s, who).bankHotels >= s.bankHotels
  {
    hide LeaveTable, Streets, Owns, Sum;
    LeaveShape(g, s, who);
    OwnedReleaseCounts(g, s, who);
  }

  /** A surrender distributes non-negative cash without loss while anyone else is left. */
  lemma LeaveLedger(g: Config, s: State, who: Seat)
    requires who < |s.players|
    ensures var cash := s.players[who].balance;
            Money(LeaveTable(g, s, who)) == Money(s) -
              (if cash > 0 && Recipients(s.players, who, |s.players|) != [] then 0 else cash)
  {
    hide Assets, AppendCards, Sum, SplitCash, Recipients;
    SplitLedger(s.players, who);
    SplitFrame(s.players, who);
    var split := SplitCash(s.players, who);
    SumUpdate(Balances(split), who, 0);
    assert Balances(LeaveTable(g, s, who).players) == Balances(split)[who := 0];
  }

  lemma LeaveJails(g: Config, s: State, who: Seat)
    requires ValidConfig(g) && who < |s.players| && s.players[who].jailCards >= 0
    ensures JailTotal(g, LeaveTable(g, s, who)) == JailTotal(g, s) + s.players[who].jailCards
  {
    hide Assets, ValidConfig, Sum, JailsIn, SplitCash;
    JailOnBoard(g);
    SplitFrame(s.players, who);
    var hs := Hands(s.players);
    SumUpdate(hs, who, 0);
    assert Hands(LeaveTable(g, s, who).players) == hs[who := 0];
    AppendJails(g, s.chanceDeck, CHANCE_JAIL_CARD, hs[who]);
    AppendJails(g, s.chestDeck, CHEST_JAIL_CARD, hs[who]);
  }
}
