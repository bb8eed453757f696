# Verified model of the Monopoly rules engine and its commit protocol

The server keeps each game as one immutable state and advances it by commands: a client's move, a bid, an answer to a
trade, or one of three timed system commands.  This project models that engine with its eighteen commands, nine turn
phases and three sub-protocols (auction, trade, bankruptcy), the timer scheduler and intent service that commit its
results to a versioned store, the animation built from its events, and the ratings computed when a game ends.  It proves
properties of all runs, of all interleavings, and of operations that undo or refine one another.

## Reading guide

| theme | main results | files |
|---|---|---|
| invariants of runs | `Steps.StepInvariant`, `Setup.Reachable`, `Boards.ClassicGame` | `invariants`, `engine`, `step*`, `setup`, `property_laws`, `exchange_laws`, `surrender_laws` |
| the landing and card recursion | `LandingChain.LandingChains`, `StepRoll.RollTells`, `Timeline.RollTimeline`, `TimelineLaws.EventByEvent` | `landing*`, `step_roll`, `timeline`, `timeline_laws` |
| conservation | `Accounts.StepAccounts`, `Decks.DecksConserved` | `accounts`, `decks` |
| commands in full, and when they are accepted | `LeavingLaws.EstateLaw`, `CommandLaws.AcceptLaw`, `WorkLaws.BuildAccepted`, `Development.GroupDeveloped`, `RollLaws.RollRecord`, `CardLaws`, `Refusals.FaultsExact` | `leaving_laws`, `command_laws`, `work_laws`, `development`, `roll_laws`, `card_laws`, `auction_laws`, `refusals` |
| what things are worth | `WorthLaws.NetWorthOnBoard`, `WorkLaws.Built`, `RentLaws.StreetRent` | `worth_laws`, `work_laws`, `rent_laws`, `boards` |
| foretelling a roll | `Foresight.RollForetold`, `Solvency.StepSolvent`, `Solvency.RunSolvent` | `foresight`, `solvency` |
| undoing and refining | `TradeLaws.TradeUndone`, `Rotation.SameSuccessor`, `InPlace` | `trade_laws`, `rotation`, `in_place` |
| progress | `Timers.NoSoftlock`, `Timers.AbandonedGameEnds`, `Offers` | `timers`, `offers` |
| auctions | `AuctionLaws.AuctionRun`, `AuctionLaws.Awarded` | `auction_laws` |
| ranking and ratings | `Finishing.FinishingOrder`, `Rating.NearZeroSum`, `RatingLaws.ChangeExact`, `RatingService.ApplyForFinishedGame` | `finishing`, `rating`, `rating_laws`, `rating_service` |
| the store | `Store.Serialisable`, `Store.StoreLawful`, `StoreLaws.ReadToCommit`, `Repository.ApplyIntent` | `store`, `store_laws`, `repository` |
| laws that fail, with the exact condition | `OrderlyLaws.StepExact`, `Decisions.StepConfined`, `Solvency.StepSolvent`, `Limits`, `Timers.AbandonedDebtorStays`, `Store.RatingsSettled`, `Boards.RailroadRentExact`, `Boards.DuelUtilities` | `orderly`, `decisions`, `solvency`, `limits`, `timers`, `store`, `boards` |
| classic games in which they fail | `ClassicGames.ClassicDecision`, `ClassicGames.ClassicFine`, `ClassicDebts` | `scenes`, `classic_games`, `classic_debts` |

`Apply` (in `engine.dfy`) is `engine.apply`.  `Inv` (in `invariants.dfy`) is the conjunction of everything that holds on
every *orderly* run: a run in which a trade is proposed only in the four phases of the turn itself and a surrender sent only
in a game in progress without an open auction, trade or bankruptcy, and amounts in trade offers are those the gateway's
schemas admit (`src/protocol/ws/schemas.py:134-139`: not negative).  The engine has no such guard; `OrderlyLaws.StepExact`
shows that these are exactly the accepted commands that keep `Inv`, `OrderlyLaws.AdvertisedIsOrderly` that whatever
`compute_actions` offers is among them.  `Good`, the well-formedness of states, holds on every run without such a premise.
States that satisfy `Inv` exist: every new game of either shipped mode is one (`Setup.NewGameInvariant` with
`Boards.NormalIsValid` and `Boards.DuelIsValid`).

The board, the decks, the card table, the salary and the fine are parameters; `ValidConfig` says what the laws need of
them, and `boards.dfy` proves it of both shipped modes.  The number of players is arbitrary.

Where the source works step by step on copied lists, a method with the source's loop is proved against the function that
the laws are about (`in_place.dfy`, the methods of `elimination.dfy`, `worth.dfy`, `landing_money.dfy`, `timeline.dfy`,
`decks.dfy`, `setup.dfy`, `rating.dfy`); handlers without a loop are functions only.  The document store and the user store
are classes whose fields are updated in place.

## Representation

- A player id is the index of the player's seat: ids are unique and the tuple of players is never reordered.
- Board position `p` is entry `p - 1` of the board and of the ownership records; both boards number their squares
  1 to n in order.  A look-up off the board gives a default square.  `Good` implies that every position in a state is on the board,
  and a command that names a square off the board is a `Fault`, the source's `KeyError`.
- `IllegalMove` is the engine's refusal, `Fault` a Python `KeyError` or `StopIteration`.  Both leave the stored state alone.
- The two dice, the order a reshuffle would give a deck, the clock and fresh ids come in an `Env`, arbitrary at every step.
- Times are integer milliseconds; the source compares trade expiry as timestamps.
- Mortgage interest is the integer tenth of the mortgage value, which is what the floating-point expression gives for every
  value on the two boards.  The cost of unmortgaging is a field of each square, at or above the mortgage value; the two boards carry the
  values of `ceil(value * 1.1)` in floating point, one too high for example for 100.
- The win probability of ELO is a function `p` with `p(a, b) + p(b, a) = 1` and values from 0 to 1; scores are reals, and `round`
  rounds halves to even.
- `compute_actions` compares with the constant fine of 50 while the engine takes the configured fine; the model keeps both.
- The document store holds games of one mode at a time; the generator's state is an opaque integer that each engine call reads
  and replaces.

Where the documents and the code differ, the model follows the code:

- `docs/game-protocol.md:130-131` says the action flags never advertise a move the engine would reject.  Buying is offered without a
  look at the balance and the jail fine without a look at whether the player is in jail; `Offers` states the exact relation, action by action.
- `docs/game-protocol.md:145` lets only the target of a trade respond.  The code lets either party accept and any seat reject
  (`TradeLaws.Acceptance`, `TradeLaws.Rejection`), and it validates a counter offer against the proposer although it replaces what the
  target gives; both offers are validated again before an exchange.
- `docs/ruleset.md:90` has a bankrupt player's properties auctioned and the jail cards returned when the debt is to the bank.  The
  code returns the squares bare without an auction, loses their buildings (`Limits.BankBankruptcySupply`) and returns each card to both decks
  (`ExchangeLaws.EstateJails`).
- `docs/ruleset.md:52-56` describes the jail-decision phase as the turn of a jailed player; a roll may leave the
  phase to a free player, and `Decisions.StepConfined` says exactly which.
- `docs/game-protocol.md:160-161` says the shown card clears on the next command.  It does, but together with any card that command
  draws (`Timeline.CardOnDisplay`).
- `src/infra/mongo/games/repository.py:120-121` says the rating update runs exactly once.  It runs at most once: a crash after the
  claim loses the accounts not yet written for good (`Store.RatingsSettled`).
- `docs/game-protocol.md:117` numbers squares from 0; the code numbers them from 1.

## Model

| member | source | states |
|---|---|---|
| Landing.StepsReach | src/domain/game/rules/cards.py:358-364 | Walking `_steps_to` squares with `advance_position` ends on the target and passes GO exactly when the target lies behind. |
| LandingLaws.PassedIffBehind | src/domain/game/rules/movement.py:30-37 | A walk of less than a lap passes GO exactly when it ends on a lower square; the square is given in closed form. |
| LandingLaws.BackAndForth | src/domain/game/rules/cards.py:200-219 | Going back is the inverse of walking on. |
| Decks.NearestIsFirst | src/domain/game/rules/cards.py:104-111 | `nearest_position` is the target met first when walking on, compared with every other target on the board. |
| Decks.NearestPosition | src/domain/game/rules/cards.py:104-111 | The searching loop finds that square. |
| LandingLaws.LandingTouches | src/domain/game/rules/movement.py:49-181 | The mutual recursion of landing and cards, which terminates because only going back deepens it and advance cards avoid card squares: one player moves, everything about ownership, the bank, auction and trade stays, and jail, debt, phase and purchase end in one of the listed shapes. |
| LandingLaws.EffectTouches | src/domain/game/rules/cards.py:114-300 | The same for one card effect with everything it leads to. |
| LandingChain.LandingChains | src/domain/game/rules/movement.py:49-181 | A landing, however long its card chain: its moves form one connected walk to the final square (or end in jail, and say so), net worths are fresh, money and jail cards change by what the events say, and at most 4 cards are drawn. |
| LandingChain.EffectChains | src/domain/game/rules/cards.py:114-300 | The same for one card effect, given the event that announced the card. |
| LandingChain.DrawJails | src/domain/game/rules/cards.py:60-93 | A drawn jail card leaves its deck for the hand of the drawer; any other card stays in the deck. |
| LandingChain.PayFresh | src/domain/game/rules/movement.py:84-109 | A payment on landing leaves every net worth fresh and everybody where they are. |
| LandingMoney.CollectLedger | src/domain/game/rules/cards.py:230-253 | Collecting from each player moves money between players and creates none. |
| LandingMoney.PayAllLedger | src/domain/game/rules/cards.py:255-280 | Paying each player moves money between players and creates none. |
| LandingMoney.CollectLoop | src/domain/game/rules/cards.py:230-253 | The loop of the collect effect computes the contributions and pays their sum out. |
| LandingMoney.RepairsLoop | src/domain/game/rules/cards.py:289-298 | The loop of the repairs effect adds up the cost of all houses and hotels owned. |
| InPlace.PayEachInPlace | src/domain/game/rules/cards.py:255-280 | The two loops of the pay-each effect. |
| CardLaws.AdvanceToSquare | src/domain/game/rules/cards.py:127-154 | A card that names a square moves the player there first, and the salary for passing GO follows if and only if the card allows it and the square lies behind. |
| CardLaws.AdvanceToFirst | src/domain/game/rules/cards.py:156-199 | A card that names the nearest railroad moves the player to one of the mode's railroads with none of them met earlier walking on, one that names the nearest utility likewise, and the salary follows if and only if that square lies behind. |
| CardLaws.GoBackSquares | src/domain/game/rules/cards.py:200-219 | A go-back card moves the player as many squares back, round GO if need be, without a salary. |
| CardLaws.PlainEvents | src/domain/game/rules/movement.py:49-132 | What a landing without a card announces: the arrest, or the tax or rent once it is paid, with square, payee and amount, and otherwise nothing. |
| CardLaws.CardEvents | src/domain/game/rules/cards.py:303-340 | A landing on a card square announces the head of that deck first and puts it on display for the drawer; a card that jails then announces just the arrest, and one that moves nobody nothing. |
| CardLaws.CollectsFromEach | src/domain/game/rules/cards.py:230-253 | What every other player has after a collect-from-each card: the bankrupt ones what they had, the others less the amount, or nothing if they had less; the money stays the same in all. |
| CardLaws.PaysEach | src/domain/game/rules/cards.py:255-280 | What every other player has after a pay-each card: the amount more, unless bankrupt; the money stays the same in all. |
| CardLaws.RepairsByBuildings | src/domain/game/rules/cards.py:289-298 | Repairs cost the house rate for each house and the hotel rate for each hotel on the squares of the player. |
| Decks.FullCycle | src/domain/game/rules/cards.py:60-93 | As many draws as a deck without jail cards holds turn up every card once, in order, and restore the deck. |
| Decks.DrawRotates | src/domain/game/rules/cards.py:60-93 | Every partial cycle is a rotation. |
| Decks.DecksConserved | src/domain/game/rules/cards.py:60-93 | On every run from `new_game`, orderly or not, each ordinary card is in its deck exactly as often as at the start, and no card square ever meets an empty deck, so the reshuffle is never needed. |
| Payments.TransferLedger | src/domain/game/rules/payments.py:55-77 | A transfer conserves money; a payment to the bank removes exactly the amount. |
| Worth.ComputeNetWorth | src/domain/game/rules/helpers.py:31-48 | The accumulating loop computes balance plus the worth of every owned square. |
| Worth.AssetsFrame | src/domain/game/rules/helpers.py:31-48 | The worth of a list of squares depends on those squares only, which is why refreshing just the players a step touches is enough. |
| WorthLaws.NetWorthOnBoard | src/domain/game/rules/helpers.py:31-48 | On every state of an orderly run the stored net worth is the balance and, for each square of the board the player owns without a mortgage, its price and the house cost for each house, or five times for a hotel. |
| RentLaws.StreetRent | src/domain/game/rules/rent.py:45-62 | The rent of any owned, unmortgaged street: the entry of its table for its houses or hotel, times the multiplier; but for a bare street all of whose colour has the same owner and no mortgage, exactly twice the base. |
| WorkLaws.MortgageEndsDoubleRent | src/domain/game/rules/rent.py:48-60 | Mortgaging one street of a bare complete group brings the rent of every other street of the group from twice the base down to the base. |
| RentLaws.BuildingRaisesRent | src/domain/game/rules/rent.py:22-62 | Whenever `can_build_on` allows a building, it strictly raises the rent of the street, for every throw and card multiplier, provided the rent tables rise. |
| RentLaws.NormalRentsRise | src/domain/game/board_data.py:78-303 | The tables of the classic board rise in that sense. |
| Boards.RailroadRentExact | src/domain/game/rules/rent.py:34-37 | A railroad earns 25, 50, 100 or 200 by the number of railroads of the board its owner has if and only if the mode's own set counts the same number, or both count for four (as counting none does), or nothing is multiplied. |
| Boards.UtilityRentExact | src/domain/game/rules/rent.py:38-43 | A utility earns 4 or 10 times the dice by the number of utilities of the board its owner has if and only if the mode's set counts one just when the owner has one, or nothing is thrown. |
| Boards.RentOfLines | src/domain/game/rules/rent.py:34-43 | With matching sets both hold for every holding. |
| PropertyLaws.BuildStreets | src/domain/game/rules/building.py:86-125 | Building keeps the street laws: levels within one of each other, one owner of all buildings of a group, no building beside a mortgage, a hotel instead of houses. |
| PropertyLaws.SellStreets | src/domain/game/rules/building.py:128-168 | So does selling. |
| PropertyLaws.MortgageStreets | src/domain/game/rules/building.py:209-235 | So does mortgaging. |
| PropertyLaws.UnmortgageStreets | src/domain/game/rules/building.py:238-264 | So does unmortgaging. |
| PropertyLaws.BuildInventory | src/domain/game/rules/building.py:97-107 | Building exchanges houses and hotels with the bank and creates none. |
| PropertyLaws.SellInventory | src/domain/game/rules/building.py:140-150 | So does selling. |
| WorkLaws.BuildAccepted | src/domain/game/rules/building.py:42-67 | Building is accepted if and only if the phase allows it, every street of the colour is the player's, unmortgaged and built at least as high, there is no hotel yet, the bank has the piece - a hotel on four houses, a house below - and the player the cost. |
| WorkLaws.SaleAccepted | src/domain/game/rules/building.py:70-83 | Selling is accepted if and only if the phase allows it and the square is a built street of the player with none of its colour higher. |
| WorkLaws.MortgageAccepted | src/domain/game/rules/building.py:179-192 | Mortgaging is accepted if and only if the phase allows it and the square is the player's, unmortgaged, and neither it nor anything of its colour is built on. |
| WorkLaws.UnmortgageAccepted | src/domain/game/rules/building.py:195-202 | Unmortgaging is accepted if and only if the phase allows it, the square is the player's and mortgaged, and the cost is at hand. |
| WorkLaws.Built | src/domain/game/rules/building.py:86-125 | The whole effect of building: one storey, the bank's pieces, the house cost, and a net worth that stays as it was. |
| WorkLaws.Sold | src/domain/game/rules/building.py:128-168 | The whole effect of selling: one storey less, half the house cost, and a net worth lower by the rest. |
| WorkLaws.Pledged | src/domain/game/rules/building.py:209-235 | The whole effect of a mortgage: the mortgage value in cash, for the price in net worth. |
| WorkLaws.Redeemed | src/domain/game/rules/building.py:238-264 | The whole effect of lifting a mortgage: its cost in cash, for the price in net worth. |
| WorkLaws.PurchaseKeepsWorth | src/domain/game/engine.py:464-519 | Buying at the printed price leaves the net worth of the buyer as it was. |
| WorkLaws.DebtWorkedOff | src/domain/game/rules/payments.py:37-52 | In a debt, a sale or mortgage that brings in what is missing pays the creditor in full and ends the debt after the roll; as long as it does not, the debt stays as it is. |
| Development.GroupDeveloped | src/domain/game/rules/building.py:42-125 | From any state in which building is allowed without a debt, the owner of a bare complete group, with cash for five times its house costs and the pieces in the bank, has a list of building commands that are all accepted and end with a hotel on every street. |
| PropertyLaws.ReleaseCounts | src/domain/game/rules/surrender.py:35-52 | Clearing squares takes off the board exactly the buildings that are counted. |
| PropertyLaws.ReleaseStreets | src/domain/game/rules/surrender.py:35-52 | Clearing all of one player's squares keeps the street laws. |
| PropertyLaws.InheritStreets | src/domain/game/rules/bankruptcy.py:39-56 | Handing all of one player's squares to another keeps the street laws. |
| StepProperty.AcquireCore | src/domain/game/engine.py:464-519 | Buying one unowned square keeps ownership, streets, supply and net worths consistent, although only the buyer is refreshed. |
| ExchangeLaws.ExchangeOwns | src/domain/game/rules/trade.py:162-180 | A valid trade keeps the owner records and the sorted lists of positions two views of one relation. |
| ExchangeLaws.ExchangeStreets | src/domain/game/rules/trade.py:113-159 | A valid trade keeps the street laws and moves no building. |
| ExchangeLaws.ExchangeLedger | src/domain/game/rules/trade.py:132-146 | A valid trade conserves money and jail cards and, for non-negative amounts, overdraws neither party. |
| InPlace.TransferOffer | src/domain/game/rules/trade.py:162-180 | The position-by-position loop of `_transfer_offer`. |
| InPlace.ExecuteTrade | src/domain/game/rules/trade.py:113-159 | The edits of `_execute_trade`, offer by offer. |
| TradeLaws.MirrorValid | src/domain/game/rules/trade.py:18-29 | After any valid trade the mirrored trade passes both validations. |
| TradeLaws.RoundTrip | src/domain/game/rules/trade.py:113-180 | A valid trade followed by its mirror restores every square and every player - cash, positions, jail cards, net worth - exactly. |
| TradeLaws.Acceptance | src/domain/game/rules/trade.py:97-101 | Accepting is allowed exactly for a party to the open trade with that id whose offers are both still valid, and then does the exchange. |
| TradeLaws.Rejection | src/domain/game/rules/trade.py:79-82 | A trade can be rejected from any seat whatever, if and only if it is open; it is off, the turn goes on after the roll, and nothing else changes. |
| TradeLaws.TradeUndone | src/domain/game/engine.py:636-659 | The round trip as three engine commands: accept, propose the mirror, accept.  The mirror is accepted exactly while the turn has a proposal left, and then everything is back where it was. |
| CommandLaws.ProposalAccepted | src/domain/game/rules/trade.py:18-65 | A proposal is accepted if and only if no trade is open, one is left in the turn, it is to another player, and both have the money, the cards and the unbuilt squares it names. |
| CommandLaws.ProposalMade | src/domain/game/rules/trade.py:32-65 | The whole effect of an orderly proposal: the trade as proposed, open for a minute, and one proposal of the turn used up. |
| CommandLaws.AcceptLaw | src/domain/game/rules/trade.py:97-159 | The whole effect of an accepted trade: the squares of each offer go to the other party as they are, money and cards by the difference of the two offers, nothing else changes, and the turn goes on after the roll. |
| CommandLaws.CounterLaw | src/domain/game/rules/trade.py:84-95 | A counter offer is for the target alone, if and only if the proposer has what it names; it replaces the request and gives the trade a new minute. |
| LeavingLaws.ExpiryLaw | src/domain/game/rules/trade.py:106-110 | A trade not answered in time is off, and nothing else changes. |
| AuctionLaws.Bought | src/domain/game/engine.py:464-519 | Buying: the buyer pays the printed price out of cash at hand and becomes the one owner of the square on offer, and a roll deferred by doubles is granted; nothing else changes. |
| Refusals.OfferAnywhere | src/domain/game/engine.py:464-543 | In any well-formed state, reached in order or not: exactly when buying and passing are accepted, and that buying keeps the phase unless doubles have earned a roll. |
| AuctionLaws.PassOpensAuction | src/domain/game/engine.py:522-543 | Passing puts exactly the square on offer up for auction for half a minute, without a bid, and changes nothing else. |
| CommandLaws.BidLaw | src/domain/game/rules/auction.py:32-53 | A bid is accepted if and only if an auction is open and it comes from an active player, above the highest so far and within the balance; it becomes the last and highest, and nothing else changes. |
| AuctionLaws.AuctionStep | src/domain/game/rules/auction.py:32-53 | Until its time is up nothing ends or disturbs an open auction: whatever orderly command is accepted, only a higher bid changes anything of substance. |
| AuctionLaws.AuctionRun | src/domain/game/rules/auction.py:17-53 | Over a whole orderly run while the auction is open: property, cash, jail cards, positions and bank are frozen and the list of bids only grows. |
| AuctionLaws.Awarded | src/domain/game/rules/auction.py:56-98 | The award: the last bidder, with the highest of all bids, pays it out of cash at hand and becomes the only owner of the square, and a roll deferred by doubles is granted; nothing else changes. |
| AuctionLaws.NoBidsNoChange | src/domain/game/rules/auction.py:56-98 | An auction without bids changes nothing but the auction and the turn record. |
| ExchangeLaws.EstateOwns | src/domain/game/rules/bankruptcy.py:39-77 | Both kinds of bankruptcy keep owner records and position lists one relation. |
| ExchangeLaws.EstateInventory | src/domain/game/rules/bankruptcy.py:61-77 | A bankruptcy to a player keeps the supply of buildings; one to the bank loses exactly the debtor's buildings. |
| ExchangeLaws.EstateLedger | src/domain/game/rules/bankruptcy.py:29-56 | What a bankruptcy does to the money in players' hands: the heir gets the lesser of cash and debt, less a tenth of each mortgaged value. |
| ExchangeLaws.EstateJails | src/domain/game/rules/bankruptcy.py:58-64 | A bankruptcy to a player conserves jail cards; one to the bank adds as many as the debtor held, because each is returned to both decks. |
| InPlace.InheritEstate | src/domain/game/rules/bankruptcy.py:29-56 | The creditor's loop: squares change hands one by one and each mortgaged one costs interest at once. |
| InPlace.ResolveBankruptcyInPlace | src/domain/game/rules/bankruptcy.py:16-108 | The whole of `resolve_bankruptcy`, step by step. |
| SurrenderLaws.SharesExact | src/domain/game/rules/surrender.py:61-70 | The shares of a surrendered balance add up to it exactly. |
| SurrenderLaws.PaySharesEach | src/domain/game/rules/surrender.py:61-70 | Each recipient gets one share, the quotient or one more, so any two shares are within 1 of each other. |
| SurrenderLaws.LeaveOwns | src/domain/game/rules/surrender.py:35-52 | A surrender keeps owner records and position lists one relation. |
| SurrenderLaws.LeaveInventory | src/domain/game/rules/surrender.py:35-52 | A surrender keeps the supply of buildings. |
| SurrenderLaws.LeaveLedger | src/domain/game/rules/surrender.py:61-81 | A surrender conserves non-negative cash as long as somebody is left. |
| SurrenderLaws.LeaveJails | src/domain/game/rules/surrender.py:54-57 | A surrender adds as many jail cards as the player held. |
| LeavingLaws.EstateLaw | src/domain/game/rules/bankruptcy.py:16-108 | Declaring bankruptcy is accepted if and only if a debt is open.  An heir gets the lesser of cash and debt less a tenth of each mortgage taken over, the squares with buildings and mortgages, and the cards; the bank gets the squares bare and each card for both decks.  Then the only one left has won, or the next active seat plays. |
| LeavingLaws.SurrenderLaw | src/domain/game/rules/surrender.py:21-103 | What an orderly surrender leaves: positive cash split evenly among the others in the game, earlier seats getting what is left over, one each; bare squares, all buildings back in the bank, the cards in both decks; then the winner, or the next active seat. |
| LeavingLaws.InterestOnBoard | src/domain/game/rules/bankruptcy.py:45-52 | The interest of an heir is a tenth of the mortgage value of each mortgaged square of the debtor. |
| Elimination.ReleaseLoop | src/domain/game/rules/surrender.py:35-52 | The loop that clears the squares and counts the buildings. |
| Elimination.ReturnCardsLoop | src/domain/game/rules/surrender.py:54-57 | The loop that returns jail cards to a deck. |
| Elimination.SplitCashLoop | src/domain/game/rules/surrender.py:61-70 | The loop that pays the shares. |
| Elimination.Surrendered | src/domain/game/rules/surrender.py:21-103 | The whole of `resolve_surrender`, step by step. |
| Elimination.AdvanceTurnOffPlayer | src/domain/game/rules/bankruptcy.py:111-145 | The cyclic scan of `advance_turn_off_player`. |
| Rotation.SameSuccessor | src/domain/game/engine.py:546-597 | `_handle_end_turn` (a filtered list and an index) and `advance_turn_off_player` (a cyclic scan) give the same turn record for an active current player. |
| Rotation.SuccessorActive | src/domain/game/rules/bankruptcy.py:111-145 | With anybody active the turn goes to an active player. |
| Rotation.FreshTurn | src/domain/game/rules/bankruptcy.py:111-145 | The turn handed on asks a prisoner for the jail decision and anybody else to roll, and keeps nothing of the old turn. |
| Rotation.Lap | src/domain/game/engine.py:563-597 | As many turns as there are active players visit each of them exactly once, end where they began and raise the round number by exactly 1. |
| LeavingLaws.EndLaw | src/domain/game/engine.py:546-597 | Ending the turn is accepted if and only if it is after the roll with nothing on offer and no debt; the first active seat round the table plays, in a new round if it is not further on, and nothing else changes. |
| LeavingLaws.TimeoutLaw | src/domain/game/engine.py:686-708 | A turn that lasts to its deadline costs a strike and is handed on to the first active seat; the third strike is a surrender. |
| LeavingLaws.NotDue | src/domain/game/engine.py:711-728 | A timed command before its time changes nothing but stamps, and the card on display. |
| StepRoll.RollCases | src/domain/game/engine.py:194-311 | A roll that is accepted either leaves the player in jail (one attempt fewer, or three doubles) or moves a player who has left jail, with the fine on the third failed attempt. |
| StepRoll.RollTells | src/domain/game/engine.py:314-407 | The story of a roll: one connected walk through any card chain to the final square, or jail; at most 4 draws; money and jail cards change by exactly what the events say, less a forced fine. |
| StepRoll.RollShape | src/domain/game/engine.py:370-407 | What a roll may change, and the shapes it leaves phase, debt and purchase in. |
| RollLaws.RollRecord | src/domain/game/engine.py:194-407 | A roll is accepted if and only if it is before the roll of a free player or in the jail decision.  It records the dice, doubles being equal dice; a held roll leaves a prisoner one attempt less or jails for three doubles; any other begins with the walk by the sum of the dice, the salary if and only if that passes the last square, and the doubles; the streak grows by one if they earn another roll, and is over otherwise. |
| CommandLaws.FineLaw | src/domain/game/engine.py:410-431 | The fine is accepted if and only if a prisoner in the jail decision has it; it is paid, frees, and changes nothing else. |
| CommandLaws.JailCardLaw | src/domain/game/engine.py:434-461 | A jail card is accepted if and only if a prisoner in the jail decision has one; it goes to the bottom of the chance deck, frees, and nothing else changes. |
| Foresight.LandingForetold | src/domain/game/rules/movement.py:49-181 | Where a landing comes to rest, what falls due there, and every balance, phase, debt and purchase after it, told before it from the square, the two decks and the balances alone, for every card chain. |
| Foresight.EffectForetold | src/domain/game/rules/cards.py:114-300 | The same for one card effect. |
| Foresight.RollForetold | src/domain/game/engine.py:194-407 | The same for a roll that moves the player: every player's balance, the place, jail, debt, purchase and phase after it. |
| Foresight.PhaseKept | src/domain/game/engine.py:370-407 | An accepted roll leaves the phase as it was if and only if it lingers: the roller moves, is not jailed and can pay, and either doubles earn the ordinary extra roll with nothing for sale, or the move ends with a card that moves nobody or a go-back card too deep to be resolved. |
| Timeline.BuildTimeline | src/domain/game/animation.py:67-125 | The loop of `build_timeline`. |
| Timeline.FollowIsReplay | src/domain/game/animation.py:94-108 | Replaying the animation of a player who was not jailed is replaying that player's moves. |
| TimelineLaws.EventByEvent | src/domain/game/animation.py:67-125 | The animation of any command, event by event: which instruction stands where, that a card move is fast and a dice move is not, that players sent to jail are not walked, who is shown which card, and that there is nothing else. |
| Timeline.RollTimeline | src/domain/game/animation.py:67-125 | The animation of an accepted roll starts with the dice and walks from the roller's old square to the square in the new state, unless the roller was jailed: then nobody walks and the roller stands on the jail square. At most 4 cards are shown, each followed by the pause of this turn and this card. |
| Timeline.OtherTimelines | src/domain/game/animation.py:67-125 | No other command shows anything. |
| Timeline.CardOnDisplay | src/domain/game/engine.py:184-191 | The card on display after a roll is the first of the cards drawn in it; if one was on display before the roll, none is, whatever the roll drew. |
| CommandLaws.CardCleared | src/domain/game/engine.py:184-191 | After any accepted command but a roll the card on display is gone, except that answers to trades, bids and the ends of auctions and trades leave it. |
| Timeline.JailEndsRoll | src/domain/game/engine.py:370-382 | Whatever sends the roller to jail ends the roll: no extra roll, nothing to buy, no debt, and a full term on the jail square. |
| Engine.Apply | src/domain/game/engine.py:84-123 | Whatever the command, an accepted step keeps states well-formed: references resolve, everyone is on the board, the decks hold their ordinary cards. |
| StepTable.AfterElimination | src/domain/game/rules/bankruptcy.py:79-108 | An elimination keeps the record of the players and hands the turn on, or ends the game with its winner. |
| Steps.SettleInv | src/domain/game/rules/payments.py:37-52 | Settling an affordable debt after any command keeps every invariant. |
| Steps.StepInvariant | src/domain/game/engine.py:84-123 | Every accepted orderly command keeps every invariant: the two ownership views, the street laws, the building supply, net worths recomputed from scratch, sub-protocols exactly in their phases with an active current player, auctions, trades, and the record of eliminations and strikes. |
| Setup.SeatPlayers | src/domain/game/setup.py:43-57 | The loop of `new_game` that seats the members. |
| Setup.NewGameTable | src/domain/game/setup.py:26-87 | How a game begins, in full: seats, cash, bank, decks, turn. |
| Setup.NewGameInvariant | src/domain/game/setup.py:26-87 | A new game with at least two players satisfies every invariant. |
| Setup.RunInvariant | src/domain/game/engine.py:84-123 | Every state of every orderly run satisfies every invariant. |
| Setup.Reachable | src/domain/game/setup.py:26-87 | From `new_game` on, every run whatsoever stays well-formed, and orderly runs of two or more players keep every invariant. |
| Accounts.StepAccounts | src/domain/game/engine.py:84-123 | The books: an accepted orderly command changes the money in players' hands by exactly its bank flow, the buildings in play only in a bankruptcy to the bank, and the jail cards only by what an eliminated player returned to both decks. |
| Accounts.QuittersCashStays | src/domain/game/rules/surrender.py:61-70 | A surrender or an elimination by the clock of a player who is not overdrawn conserves money. |
| Accounts.RollTotals | src/domain/game/engine.py:194-311 | The accounts of a roll. |
| Accounts.EstateTotals | src/domain/game/rules/bankruptcy.py:16-108 | The accounts of a bankruptcy. |
| Accounts.SettleTotals | src/domain/game/rules/payments.py:37-52 | Settling a debt to a player conserves money; a debt to the bank leaves the players' hands. |
| Solvency.StepSolvent | src/domain/game/engine.py:84-123 | Which accepted commands leave nobody overdrawn: a roll if and only if the roller can afford it, by a condition on dice, squares, deck heads and balances before the roll; a bankruptcy if and only if the heir can pay the interest; every other command always. |
| Solvency.RunSolvent | src/domain/game/engine.py:84-123 | Nobody is overdrawn in any state of an orderly run if and only if every command of the run is affordable in this sense. |
| Solvency.RollSolvent | src/domain/game/engine.py:194-407 | A roll overdraws somebody exactly if the balance less the forced fine, with the salaries on the way and the card the way ends with, is negative; rent, taxes and repairs never do, nor is anybody else overdrawn. |
| Solvency.CommonFates | src/domain/game/engine.py:253-407 | The condition spelled out: on a square without cards the fine less the salary must not exceed the balance; where the next card pays everyone, what is left must cover that. |
| Solvency.EstateSolvent | src/domain/game/rules/bankruptcy.py:45-52 | A bankruptcy leaves nobody overdrawn if and only if the heir can pay the interest on the inherited mortgages. |
| Offers.RollAndEnd | src/domain/game/rules/actions.py:41-74 | Rolling and ending the turn are offered exactly when the engine accepts them. |
| Offers.WaysOutOfJail | src/domain/game/rules/actions.py:41-49 | Fine and jail card are accepted exactly when offered to a prisoner, if the server uses the fine the offer is computed with. |
| Offers.Buying | src/domain/game/rules/actions.py:59-71 | Buying is accepted exactly when it is offered and affordable. |
| Offers.BiddingOffer | src/domain/game/rules/actions.py:20-36 | A bid is offered exactly to those who do not lead and some bid of whom would be accepted. |
| Offers.BuildingOffer | src/domain/game/rules/actions.py:50-85 | Building is offered exactly when building somewhere is accepted. |
| Offers.MortgageOffers | src/domain/game/rules/actions.py:50-85 | So are mortgaging and unmortgaging. |
| Offers.NoDeadEnd | src/domain/game/rules/actions.py:14-85 | Outside an auction the current player of a game in progress always has a command the engine accepts. |
| Offers.TradingAndGivingUp | src/domain/game/rules/actions.py:43-83 | Declaring bankruptcy is offered exactly when accepted; an offered surrender is accepted, and when trading is offered any valid trade with another player may be proposed. |
| Offers.OfferedInTurn | src/domain/game/rules/actions.py:14-85 | Trading is offered if and only if it is the player's turn, before or after the roll, with a proposal left; giving up in the four phases of the turn; and nobody else is offered anything outside an auction. |
| Offers.ActionsFresh | src/domain/game/rules/actions.py:88-92 | After every accepted command the stored action set is the one computed from the new state, and the turn clock starts anew. |
| Offers.WayOutWorks | src/domain/game/engine.py:410-461 | Both ways out of jail, once accepted, leave the player free, on the same square, in the phase before the roll and offered to roll. |
| Timers.NoSoftlock | src/domain/game/rules/turn_timer.py:41-47 | A game in progress without an open bankruptcy has a timer, due exactly from a known time on; a debtor can always declare bankruptcy. |
| Timers.ActingClearsStrikes | src/domain/game/engine.py:126-133 | Whoever acts has no strikes afterwards. |
| Timers.TickProgress | src/application/services/game_scheduler.py:85-93 | A due timer uses up an open auction or trade, or a strike. |
| Timers.AbandonedGameEnds | src/application/services/game_scheduler.py:85-93 | Outside a bankruptcy, as many due timer steps as strikes are left (and one for an open auction or trade) finish an abandoned game. |
| Timers.FinishingSchedule | src/application/services/game_scheduler.py:76-93 | Such a schedule of timer steps exists from every such state. |
| Timers.AbandonedDebtorStays | src/domain/game/rules/turn_timer.py:41-47 | A game abandoned in a bankruptcy never changes again: no timer is ever due for it. |
| Finishing.StepRecords | src/domain/game/rules/bankruptcy.py:79-94 | Nobody comes back, no elimination record changes, and whoever leaves is recorded with the number of the turn. |
| Finishing.RunRecords | src/domain/game/rules/bankruptcy.py:79-94 | Over a whole orderly run: once out of the game a player stays out, with the same record. |
| Finishing.OrderOfElimination | src/domain/game/rules/bankruptcy.py:79-94 | On every run, whoever leaves later has the later record. |
| Finishing.PlacementBijection | src/application/services/rating_service.py:68-78 | `_placements` gives every player exactly one place from 1 to n. |
| Finishing.RankingOrder | src/application/services/rating_service.py:68-78 | The ranking of any table whatever: those still playing by seat, then whoever left later, and of two who left in the same turn the one in the earlier seat. |
| Finishing.FinalRanking | src/application/services/rating_service.py:68-78 | At the end the winner is first and the others follow in strictly descending order of elimination. |
| Finishing.FinishingOrder | src/application/services/rating_service.py:68-78 | On a run that ends the game, whoever was playing when another was out is placed before that player: the ranking is the exact reverse order of elimination. |
| Rating.ComputeRatingChanges | src/domain/rating/elo.py:50-79 | The loop that fills the result: one entry per user, that of the user's last participant, and none besides. |
| Rating.ChangeBounds | src/domain/rating/elo.py:63-77 | No rating falls below the floor, and a change stays within the cap if and only if the player is not further below the floor than the cap. |
| Rating.FirstAndLast | src/domain/rating/elo.py:55-67 | Winning never costs rating, and coming last gains some if and only if the player was below the floor. |
| Rating.ExpectedScoresBalance | src/domain/rating/elo.py:40-43 | The expected scores of n distinct users add up to n/2. |
| Rating.ActualScoresBalance | src/domain/rating/elo.py:60-61 | The actual scores of a ranked game add up to n/2. |
| Rating.NearZeroSum | src/domain/rating/elo.py:50-79 | With equal factors and neither cap nor floor in play the changes add up to within n/2 of zero. |
| RatingLaws.ExpectedIsMean | src/domain/rating/elo.py:40-43 | The expected score is the mean of the win probabilities of the player's rating against each rating of another user, and one half if there is none. |
| RatingLaws.PlaceIsShare | src/domain/rating/elo.py:60-61 | A place is worth the share of the others who finished behind. |
| RatingLaws.ChangeExact | src/domain/rating/elo.py:60-79 | The whole change: 120 or 48 times the excess of the actual over the expected score, to the nearest whole number, within 75 or 25 either way by whether three games have been played, and down to 100 at most. |
| RatingService.ApplyForFinishedGame | src/application/services/rating_service.py:28-65 | Ratings change only for a finished game nobody has claimed, and then the game is claimed.  Whatever others write before the read and before every single write, and wherever the worker crashes, the accounts are what all the writes give in the order in which they happen, the worker's own being the first of those that give every participant the computed rating. |
| RatingService.UpdateAll | src/application/services/rating_service.py:54-60 | The loop that stores the new ratings, user by user, with other writers before every write and perhaps a crash. |
| RatingService.RatingStands | src/application/services/rating_service.py:37-60 | A player ends up with the computed rating unless somebody else writes that account later; what others wrote after the read and before the worker's write is overwritten. |
| RatingService.ApplyTwice | src/application/services/rating_service.py:31-33 | Applying the ratings of a game twice is applying them once, even if the first application crashed. |
| RatingService.GamesAreRanked | src/application/services/rating_service.py:35-52 | The participants of a game among players with accounts are distinct users with places 1 to n and the rating and number of games of their accounts. |
| Store.Serialisable | src/infra/mongo/games/repository.py:86-126 | Under every interleaving of reads, intents, timer ticks, crashes, claims and writes of ratings, the stored state and generator are what running the committed commands one after the other from the insertion gives, the version counts the commits, and ratings are claimed at most once and written to the first of the claimed accounts, each once. |
| Store.RatingsSettled | src/application/services/rating_service.py:31-60 | What becomes of claimed ratings under every interleaving: the accounts written are the first of those claimed, as many as the writes of the claiming worker before its first crash; all of them if and only if there is a write for each before the crash. |
| Store.StoreLawful | src/application/services/game_scheduler.py:76-121 | Although workers act on reads that may be out of date, every state that reaches the store satisfies every invariant of the rules if and only if the inserted games do and every committed command is orderly in the state its worker had read. |
| Store.CommitsAreFresh | src/application/services/game_service.py:163-200 | A commit goes through if and only if the engine accepts the command and nobody committed since the read; it is then computed from the very state it replaces. |
| StoreLaws.ReadToCommit | src/application/services/game_service.py:155-200 | From a worker's read to its commit, with any actions of others in between: the command is applied to the document as read, and stored with its entry in the history, if and only if the engine accepts it and the version is still the one read; nothing else changes. |
| StoreLaws.ReadToTick | src/application/services/game_scheduler.py:76-121 | The scheduler does the same with the timed command that was due when it read, and nothing if none was. |
| StoreLaws.CrashStops | src/application/services/rating_service.py:31-60 | A crash stores nothing and takes nothing from other workers; the crashed one does nothing more before it reads or claims again. |
| StoreLaws.InsertOnce | src/infra/mongo/games/repository.py:59-69 | In the interleaved system, too, a game is inserted if and only if neither its id nor its session is taken, at version 0 with an empty history. |
| Repository.StepEvolves | src/infra/mongo/games/repository.py:86-126 | What any step of the interleaved system does to the collection is what workers rely on: versions only grow, and without a new version nothing of the game changes. |
| Repository.GameRepository.Insert | src/infra/mongo/games/repository.py:59-69 | Inserting is refused exactly when the game id or the session already has a document. |
| Repository.GameRepository.FindBySessionId | src/infra/mongo/games/repository.py:71-84 | Finds the one game of a session, or none exactly if there is none. |
| Repository.GameRepository.UpdateWithVersion | src/infra/mongo/games/repository.py:86-117 | The compare-and-set on the version. |
| Repository.GameRepository.ClaimForRating | src/infra/mongo/games/repository.py:119-126 | Succeeds exactly for the first claim of a session's game. |
| Repository.Commit | src/application/services/game_service.py:173-197 | The half of both workers behind their reads: applied in full to the state it was computed from, or not at all. |
| Repository.ApplyIntent | src/application/services/game_service.py:155-270 | With any interference between read and commit: an applied intent took one engine step from the state at the moment of the commit, with the very command the client sent but for the seat, which is the first seat of the authenticated user, and hands back the animation of that step; a missing game, a missing seat, a refusal and a conflict are told apart, each exactly. |
| Repository.TickOne | src/application/services/game_scheduler.py:76-121 | The same for the scheduler: it commits and publishes if and only if a timer was due, the engine accepted and nobody had committed since the read. |
| Repository.SeatOfUser | src/application/services/game_service.py:222-226 | `_resolve_player_id` finds the first seat of the user, or none exactly if there is none. |
| Boards.NormalIsValid | src/domain/game/modes.py:35-44 | The classic mode meets everything the laws ask of a mode. |
| Boards.DuelIsValid | src/domain/game/modes.py:46-69 | So does the two-player mode. |
| Boards.NormalSetsMatch | src/domain/game/modes.py:42-43 | The classic sets of railroads and utilities are those of its board. |
| Boards.DuelSetsDiffer | src/domain/game/modes.py:53-54 | The two-player sets are not: the squares at fault. |
| Boards.DuelRailroads | src/domain/game/rules/rent.py:34-37 | The two-player railroads earn by their number if and only if the owner has the street that is counted as a railroad just when the owner has the railroad that is not. |
| Boards.DuelUtilities | src/domain/game/rules/rent.py:38-43 | Of the two-player utilities the first earns by their number if and only if its owner does not have the second, and the second never does. |
| Boards.DuelTaxUnowned | src/domain/game/modes.py:53-54 | The tax square counted as a utility never has an owner on an orderly run. |
| Boards.DuelRailroadRent | src/domain/game/rules/rent.py:34-37 | For one, the owner of only the second two-player railroad collects the rent of four. |
| Boards.ClassicGame | src/domain/game/setup.py:26-87 | Every orderly run of a classic game keeps every invariant. |
| Decisions.RollPhases | src/domain/game/engine.py:194-407 | For the whole engine step: the phase after any accepted roll, that it is the old one if and only if the roll lingers, and that only a lingering roll is followed by a jail decision, which is then asked outside jail. |
| Decisions.StepConfined | src/domain/game/rules/movement.py:111-132 | That the jail decision is asked of a prisoner only is kept by every accepted command except exactly a roll that lingers in the jail decision. |
| Decisions.DecisionOutOfJail | src/domain/game/rules/actions.py:41-49 | What follows such a roll: the fine and the card are still offered and both are refused; the roll is accepted. |
| Decisions.RollAgain | src/domain/game/rules/movement.py:111-132 | Before a jail decision, without doubles: the roller may roll again if and only if the move ends with a card that moves nobody (or an unresolved go-back) and what it charges is paid. |
| CommandLaws.CommandEvents | src/domain/game/engine.py:84-181 | What every command but a roll, the end of a turn and leaving announces: a purchase with its price, a square that is declined, and nothing else. |
| Refusals.FaultsExact | src/domain/game/engine.py:84-181 | Exactly which commands, in any well-formed state, fail for a look-up of a seat, player or square that does not exist; every other refusal is an illegal move. |
| OrderlyLaws.StepExact | src/domain/game/engine.py:84-123 | Which accepted commands keep the invariants: exactly the orderly ones. |
| OrderlyLaws.AdvertisedIsOrderly | src/domain/game/rules/actions.py:14-85 | Every command that is offered to clients, with the amounts the gateway admits, is orderly. |
| OrderlyLaws.ProposalAnywhere | src/domain/game/engine.py:636-646 | A valid proposal of the current player is accepted in any phase and keeps the invariants if and only if the phase is one of the four of the turn itself. |
| OrderlyLaws.SurrenderAnywhere | src/domain/game/engine.py:676-683 | An active current player may surrender in any phase, and keeps the invariants if and only if the game is in progress with no auction, trade or bankruptcy open. |
| Limits.BankBankruptcySupply | src/domain/game/rules/bankruptcy.py:61-77 | A bankruptcy to the bank keeps the supply of buildings if and only if the debtor has none. |
| Limits.SupplyKept | src/domain/game/engine.py:84-123 | Every other accepted orderly command keeps it. |
| Limits.HousesCounter | src/domain/game/rules/building.py:86-168 | The bank's counter of houses after any accepted command: one less or four more for a building, one more or four less for a sale, the leaver's houses back for a surrender or a third timeout, and otherwise unchanged. |
| Limits.BrokenHotel | src/domain/game/rules/building.py:140-145 | The counter falls below zero if and only if a hotel is broken up while fewer than four houses are left, and by no other command. |
| ClassicGames.NormalIsSensible | src/domain/game/cards_data.py:18-182 | The amounts of the classic mode are such that `Solvency.StepSolvent` covers its games. |
| ClassicGames.ClassicOverdraft | src/domain/game/rules/cards.py:255-265 | A classic game whose first roll, accepted, overdraws the roller if and only if the balance is less than 50 for each other player. |
| ClassicGames.ClassicRollAgain | src/domain/game/rules/movement.py:111-132 | A classic game whose first roll, without doubles, may be repeated at once. |
| ClassicGames.ClassicDecision | src/domain/game/rules/movement.py:111-132 | An orderly run of classic commands from `new_game` - three doubles, a timeout, a double six - that ends in a jail decision outside jail. |
| ClassicGames.ClassicFine | src/domain/game/engine.py:253-274 | An orderly run of classic commands whose last roll, the third failed attempt, leaves the prisoner overdrawn if and only if the balance is less than the fine. |
| ClassicDebts.ClassicDebtor | src/domain/game/rules/movement.py:84-109 | A classic game whose first roll leaves a debt open if and only if the balance is less than the tax, and no timer ever changes it again. |
| ClassicDebts.ClassicLoss | src/domain/game/rules/bankruptcy.py:61-77 | A classic position with a debt to the bank, opened by a roll, in which the accepted bankruptcy loses houses and hotels to the game. |
| ClassicDebts.ClassicHotel | src/domain/game/rules/building.py:140-145 | A classic position in which the accepted sale of a hotel leaves the bank with one house less than none. |
| ClassicDebts.ClassicHeir | src/domain/game/rules/bankruptcy.py:45-52 | A classic position with a debt to a player, opened by a roll, in which the accepted bankruptcy overdraws the heir if and only if the heir has less than the interest. |

## Left out

- Display names, tokens, uuids, log entries and event texts: no rule reads them.
- The order in which random numbers are drawn and the generator's algorithm: each engine call takes an arbitrary `Env`.
- Rounding inside the ELO win probability: `p` is exact.
- Websocket gateway, chat, stickers, HTTP routers, sessions and invite codes, authentication, Redis fan-out, Mongo drivers and logging: plumbing without rules; only the atomic store operations are modelled.
- The per-session lock of the intent service: safety is proved without it, from the compare-and-set alone.
- The pauses of the animation on the server side (`authorize_continue`): the timeline and the card on display are modelled, the waiting is not.
- The sudden-death deadline of the two-player mode: stored by `new_game`, read by no rule.
- Rows of the table that name a method state that its loop computes the function of the same operation; what the operation promises is stated by the lemmas about that function.
- Rating.NearZeroSum: needs equal factors and no cap or floor in play, as the balance of the scores does not survive either.
- Offers.BiddingOffer: the leader of an auction is not offered to bid although the engine accepts a higher bid of the leader, so the offer is not equivalent to acceptance alone.
- Timers.AbandonedGameEnds: excludes games abandoned in a bankruptcy, for which `Timers.AbandonedDebtorStays` shows the opposite.
- ClassicDebts.ClassicHotel: like `ClassicDebts.ClassicLoss` and `ClassicDebts.ClassicHeir` it starts from a position that satisfies every invariant, without the run that leads to it.
