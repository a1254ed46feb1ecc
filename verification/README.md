# OZark in Dafny

A verification project for two money-handling parts of OZark: the bonding-curve
market with its desk (`src-tauri/src/market`), and the custodial gateway
(`gateway/src`). `dafny verify dfyconfig.toml` checks all of it.

## What is modelled

**The curve** (`Curve.dfy`, `CurveLaws.dfy`, `CurveStrictness.dfy`, `CurveDisplays.dfy`). Prices are areas under a straight
line, as exact fractions in checked 128-bit arithmetic, rounded up on buys and
down on sells. The search for the largest affordable buy is a loop proved
against an exhaustive reference.

**The market and the desk** (`MarketModel.dfy`, `MarketRuns.dfy`, `MarketMeaning.dfy`,
`MarketTheorems.dfy`, `Desk.dfy`). Every operation is a function on a market
value; the classes in `Desk.dfy` update fields in the order the program does
and are proved against those functions. What a market promises is proved for
every market that a creation and any operations can reach. The invariant behind
it is exact: `reserve * 2 * denom` minus the area under the curve is never
negative and stays below one sat per trade.

**Remote orders** (`Orders.dfy`, `OrderLaws.dfy`, `OrderHistory.dfy`, `Listener.dfy`). A quote, an
invoice, a payment proof: a message machine over the desk, and the listener class
that runs it.

**Authentication** (`Auth.dfy`, `Security.dfy`, `AuthLaws.dfy`, `ReplayRuns.dfy`,
`LimiterLaws.dfy`, `LimiterRuns.dfy`). NIP-98 verification, the token-bucket limiter
and the replay guard with their lazy pruning, compared with guards that never forget:
exactly when the two differ, and runs in which they do.

**The gateway ledger** (`Ledger.dfy`, `LedgerLaws.dfy`, `LedgerMeaning.dfy`, `Registry.dfy`). Each
registry method is one transaction: a function on the tables, and a method of a
class proved against it.

**The gateway as a concurrent protocol** (`GatewayCore.dfy`,
`GatewayCoreLaws.dfy`, `Gateway.dfy`, `GatewayLaws.dfy`, `GatewaySteps.dfy`,
`GatewayShapes.dfy`, `GatewayTheorems.dfy`). Handlers, the reconcilers and
the recovery loop are programs with a program counter whose steps interleave in any
order; lists they read grow stale while they work; any program may vanish, and a
crash loses all of them and keeps the tables. The node is an environment: it may
pay, drop or confirm in its own time, its answers are true, but a failure answer
may come before the payment is decided. Beside the tables the model keeps an
account of what really happened to every debit, key and unit; the invariant ties
the tables to it.

**What requests cost** (`GatewayTally.dfy`, `GatewayHashes.dfy`, `PayCosts.dfy`,
`PayLosses.dfy`, `LostHandlers.dfy`). For every request the model adds up what its
handler's own steps and recovery's steps on its debit have done to its client's
units and sats, and the theorems say what that is once the client has an answer, or
once the handler is lost.

**When the ledger agrees with the node** (`Faithful.dfy`, `FaithfulCosts.dfy`,
`Races.dfy`, `NodeSteps.dfy`, `Audit.dfy`). Two conditions on runs, what holds under them, runs that
show each is needed, and what the audit then finds.

**The code as written** (`Reconcile.dfy`, `Routes.dfy`, `Uninterrupted.dfy`,
`UninterruptedLoops.dfy`). The loops and handlers with nothing interleaved; each handler so
written that calls the node, and each loop, is a run of the machine.

## Where the code and its documentation differ

- `curve.rs:224` calls the cost strictly increasing. Rounding can keep it level
  (`CurveLaws.CostIsNotStrictlyIncreasing`); nondecreasing is enough for the search.
  `CurveStrictness` says exactly when it is strict, and gives guards on the parameters: from
  a supply whose next token is worth a sat it is.
- The solvency promised in `desk.rs:15-18` holds, but the sats being there is not enough
  to be paid out: with a denominator above 2^63 the refund of a large sell can overflow
  (`MarketTheorems.LargeDenominatorCanBlockExit`). `ExitGuarantee` gives the exact
  condition.
- `desk.rs:19-20` says the sum of balances equals the supply; after withdrawals it is the
  balances plus what was withdrawn that does (`MarketRuns.ReachableMarketsAreSound`,
  `MarketTheorems.BalancesAreSupplyExactlyWhen`).
- A paid order is priced again at fill time. On an unmoved market it gets the quoted
  tokens exactly when the fee was not rounded (`OrderLaws.QuotedTokensAreFilled`),
  while later replies still report the quoted amounts
  (`OrderLaws.RepliesReportTheQuote`).
- `security.rs:54-56` says dropping an idle bucket only favours the caller. On a clock at
  least one idle period old it is never noticed exactly when burst is at most 600 times the
  refill rate, or below one token, where every call is refused anyway
  (`LimiterRuns.EvictionIsInvisible`). On a younger clock the cutoff is the present, and with
  any burst of at least one token there is a run that breaks the rate bound
  (`LimiterRuns.YoungClockForgets`).
- `auth.rs:217-218` lets an entry go once its event can no longer be fresh. That is safe as
  long as the clock neither steps back nor stands at its last second: an event is accepted
  again exactly at that second, or when its entry was swept out and the clock then stepped
  back (`ReplayRuns.AcceptedAgainExactlyWhen`, `ReplayRuns.SweptThenFresh`).
- `reconcile.rs:106-110` calls solvency the invariant that must never break. It holds
  in every run in which a failure told to a handler is final and every Lightning
  payment has a hash of its own (`Faithful.FaithfulRunsAreSolvent`), and in general
  exactly while drift is covered (`GatewayTheorems.SolventExactlyWhenDriftIsCovered`).
  Each of the two conditions is needed: `Races.UnfinishedPaymentDrifts` and
  `Races.RetriedInvoiceDrifts` give, from every sound state with the funds, a run that
  ends short by exactly one payment. In the second the node never answers untruly:
  recovery sees the failed first attempt under the hash that a second attempt is using.
- `routes/mod.rs:502-506` says a Lightning payment is refunded unless it succeeds. Recovery
  goes by the payment hash: if the hash was paid by another payment it settles the row, the
  node then refuses to pay twice, and the handler, finding no row to refund, reports a
  failure that cost the amount (`Races.PaidInvoiceFailsUnrefunded`). The promise holds
  exactly for payments started on a free hash (`PayLosses.FailedPaymentIsFreeExactlyWhen`),
  and in every faithful run (`FaithfulCosts.FaithfulFailureCostsNothing`).
- `registry.rs:197-201` says a crash leaves a recoverable row instead of a silent
  debit. There is a row exactly for sends and Lightning payments, never for burns
  (`LostHandlers.OpenDebitsWithRows`, `LostHandlers.BurnIsLostByCrash`), and only a Lightning
  payment is ever recovered by the program (`LostHandlers.LostDebitIsNeverResolved`).
- `registry.rs:649-651` presents the purge as a safety net for invoices the node no longer
  knows. It also drops settled ones that were not reconciled in time, and no later run
  credits them (`Races.PurgeForfeitsSettledInvoice`); exactly the Lightning invoices older
  than the cutoff are lost so (`Races.PurgeForfeitsExactlyTheStale`).
- `routes/mod.rs:844-847` says a failed send loses nothing. For every failure that is
  answered this is proved (`GatewayTally.FailureCostsNothing`); a handler lost after the
  charge and before the fee's return keeps the fee (`LostHandlers.LostHandlerKeepsItsFee`,
  `LostHandlers.LostBeforeFeeReturn`).

## Model

| member | source | states |
|---|---|---|
| `CurveLaws.IntegralMeaning` | src-tauri/src/market/curve.rs:140-162 | the checked fraction is the exact area difference, and of all the intermediate 128-bit products only the last one decides overflow |
| `CurveLaws.CostMeaning` | src-tauri/src/market/curve.rs:164-176 | every outcome of a buy price: which error, or the exact area rounded up |
| `CurveLaws.RefundMeaning` | src-tauri/src/market/curve.rs:178-189 | every outcome of a sell price: overflow, or the exact area rounded down |
| `CurveLaws.ReserveMeaning` | src-tauri/src/market/curve.rs:279-288 | the theoretical reserve is the floored area, and when it overflows |
| `CurveLaws.AffordableDownward` | src-tauri/src/market/curve.rs:239-247 | what the search relies on: nothing affordable lies above something unaffordable, overflow included |
| `CurveLaws.CostMonotone` | src-tauri/src/market/curve.rs:223-226 | the rounded cost never falls as the amount grows |
| `CurveLaws.CostIsNotStrictlyIncreasing` | src-tauri/src/market/curve.rs:223-226 | the comment's "strictly increasing" fails: a curve on which one and two tokens cost the same |
| `CurveStrictness.CostStaysExactlyWhen` | src-tauri/src/market/curve.rs:223-226 | one more token costs the same exactly when the price already rounded up covers its area |
| `CurveStrictness.StrictExactlyWhen` | src-tauri/src/market/curve.rs:223-226 | on every curve, supply and amount: the cost is strictly increasing up to there exactly when the tokens whose own area is below one sat together cost one sat each |
| `CurveStrictness.StrictOnceATokenIsWorthASat` | src-tauri/src/market/curve.rs:223-226 | a guard on the parameters: strict from any supply whose next token is worth a sat, and not strict where 2*denom tokens in a row are not |
| `CurveStrictness.FlatIsStrictExactlyWhen` | src-tauri/src/market/curve.rs:223-226 | on a flat curve with denom tokens left, strict exactly when a token costs at least a sat |
| `CurveLaws.NoFreeTokens` | src-tauri/src/market/curve.rs:126-138 | on a validated curve every positive amount costs at least one sat |
| `Curve.MaxAffordable` | src-tauri/src/market/curve.rs:223-226 | the reference for the search: the greatest affordable amount, by trying every one |
| `CurveLaws.FindTokensForSats` | src-tauri/src/market/curve.rs:227-260 | the binary search loop returns what the exhaustive reference returns, errors included |
| `CurveLaws.TokensForSatsIsMaximal` | src-tauri/src/market/curve.rs:223-260 | the affordable amounts under the cap are exactly those up to the returned one |
| `CurveLaws.TokensForSatsFailsOnlyOnSpot` | src-tauri/src/market/curve.rs:227-260 | the search fails exactly when nothing is affordable and the spot price overflows |
| `CurveLaws.SplittingABuyNeverHelps` | src-tauri/src/market/curve.rs:15-20 | any n-piece buy costs between the whole and the whole plus n-1 sats |
| `CurveLaws.SplittingASellNeverHelps` | src-tauri/src/market/curve.rs:15-20 | any n-piece sell refunds between the whole minus n-1 sats and the whole |
| `CurveLaws.RoundTripLosesAtMostOneSat` | src-tauri/src/market/curve.rs:15-20 | a buy sold straight back loses one sat, or none exactly when the area is whole |
| `CurveLaws.AverageBuyIsAboveSpot` | src-tauri/src/market/curve.rs:191-205 | a buyer's quoted average is at least the spot price before the buy, up to a thousandth of a sat |
| `CurveLaws.AverageSellIsBelowSpot` | src-tauri/src/market/curve.rs:207-221 | a seller's quoted average is at most the spot price before the sell |
| `CurveLaws.FullProgressIsMigratable` | src-tauri/src/market/curve.rs:290-310 | progress shows 10000 exactly when the curve may migrate, on every input |
| `CurveLaws.MigratableUpward` | src-tauri/src/market/curve.rs:301-310 | more supply is never less migratable while the area stays priceable |
| `CurveDisplays.SpotMeaning` | src-tauri/src/market/curve.rs:262-277 | the spot price is the price of the next token in thousandths of a sat, to the nearest and halves up, and exactly when it is refused |
| `CurveDisplays.ProgressMeaning` | src-tauri/src/market/curve.rs:290-299 | progress is nothing without a target or a priceable area, 10000 from the target on, and in between the floored share of it |
| `CurveDisplays.QuoteMeaning` | src-tauri/src/market/curve.rs:191-205 | a buy quote shows the exact price, and its average from both sides, up to the largest 64-bit number |
| `CurveDisplays.SellQuoteMeaning` | src-tauri/src/market/curve.rs:207-221 | the same for a sell quote |
| `CurveDisplays.EmptyAnswerShowsSpot` | src-tauri/src/market/curve.rs:227-260 | a search that finds nothing costs nothing and shows the spot price |
| `MarketModel.FeeWithin` | src-tauri/src/market/desk.rs:169-171 | the truncated fee is the floored product and never exceeds its base |
| `MarketRuns.FeeFitsBudget` | src-tauri/src/market/desk.rs:185-206 | a cost fits the curve budget only if cost and fee fit the whole budget; one above it uses the budget up |
| `MarketRuns.PreviewBuyMeaning` | src-tauri/src/market/desk.rs:183-206 | a buy preview is the largest affordable buy, priced, with its fee, inside the budget |
| `MarketRuns.BudgetIsUsed` | src-tauri/src/market/desk.rs:183-206 | no buy exceeds its budget, and one more priceable token would use the budget up |
| `MarketRuns.BudgetCanBeLeftUnspent` | src-tauri/src/market/desk.rs:183-206 | that bound is not strict: one more token can cost exactly the budget and still be refused |
| `MarketRuns.PreviewSellMeaning` | src-tauri/src/market/desk.rs:208-231 | what a successful sell preview says about balance, refund, fee and supply |
| `MarketRuns.HolderWithinSupply` | src-tauri/src/market/desk.rs:153-158 | no holder has more than the circulating supply |
| `MarketRuns.BuyDust` | src-tauri/src/market/desk.rs:233-253 | a buy raises reserve*2*denom minus the exact area by less than 2*denom and never lowers it |
| `MarketRuns.SellDust` | src-tauri/src/market/desk.rs:255-285 | a sell keeps the same bracket |
| `MarketRuns.BuyKeepsLedger` | src-tauri/src/market/desk.rs:233-253 | sum of balances plus withdrawn stays equal to supply under a buy, below the cap |
| `MarketRuns.SellKeepsLedger` | src-tauri/src/market/desk.rs:255-285 | the same under a sell, with emptied entries removed |
| `MarketRuns.WithdrawKeepsLedger` | src-tauri/src/market/desk.rs:295-313 | the same under a withdrawal, whose counter never saturates |
| `MarketRuns.CreateKeepsInvariant` | src-tauri/src/market/desk.rs:329-362 | a created market, seeded or not, starts sound |
| `MarketRuns.ApplyKeepsInvariant` | src-tauri/src/market/desk.rs:233-319 | every operation keeps ledger, dust bounds, journal and status consistent |
| `MarketRuns.ReachableMarketsAreSound` | src-tauri/src/market/desk.rs:10-20 | those hold after every run from creation |
| `MarketTheorems.ReserveBacksSupply` | src-tauri/src/market/desk.rs:15-18 | the documented solvency: reserve at least the theoretical reserve in every reachable market |
| `MarketTheorems.SellDecidedByArea` | src-tauri/src/market/desk.rs:208-285 | in a sound market a holder's sell fails only by 128-bit overflow of the sold area |
| `MarketTheorems.ExitGuarantee` | src-tauri/src/market/desk.rs:208-285 | in a reachable market that is not paused a holder's sell succeeds if and only if one product fits 128 bits; always when denom is at most 2^63 |
| `MarketTheorems.LargeDenominatorCanBlockExit` | src-tauri/src/market/desk.rs:208-285 | beyond that denominator a reachable market exists whose only holder cannot sell out |
| `MarketTheorems.NoMoneyPump` | src-tauri/src/market/desk.rs:233-285 | between two states of equal supply the reserve never falls and traders pay in at least the fees |
| `MarketTheorems.PaymentsAreHeld` | src-tauri/src/market/desk.rs:233-285 | in every reachable market, sats ever paid in minus sats ever paid out, by the trade log, are the reserve plus the fees |
| `MarketTheorems.BalancesAreSupplyExactlyWhen` | src-tauri/src/market/desk.rs:19-20 | in every reachable market the balances sum to the supply exactly as long as nothing was withdrawn |
| `MarketTheorems.WithdrawalLeavesTheSum` | src-tauri/src/market/desk.rs:295-313 | after any withdrawal the balances stay below the supply in every later state |
| `MarketTheorems.WithdrawalWitness` | src-tauri/src/market/desk.rs:295-313 | a reachable market, one buy and one withdrawal away, whose balances are empty below a positive supply |
| `MarketTheorems.RunKeepsDust` | src-tauri/src/market/desk.rs:233-319 | the reserve's excess over the exact area never falls along any run |
| `MarketTheorems.DustIsBounded` | src-tauri/src/market/desk.rs:233-285 | that excess stays below one sat per trade; an unwound market holds at most trades-1 sats |
| `MarketTheorems.DustBoundIsReached` | src-tauri/src/market/desk.rs:233-285 | for every n a market and n trades that leave exactly n-1 sats |
| `MarketTheorems.ReserveStaysInRange` | src-tauri/src/market/desk.rs:233-238 | the reserve is at most the area under the whole curve plus one sat per trade |
| `MarketTheorems.UnmigratedIsBelowTarget` | src-tauri/src/market/desk.rs:315-319 | in a reachable market Trading or Paused means not migratable and progress below 10000 |
| `MarketTheorems.MigrationIsFinal` | src-tauri/src/market/desk.rs:233-319 | Migrated is absorbing, only sells are logged after it, supply only falls, the log only grows |
| `MarketTheorems.SellMigratesOnlyOutOfOverflow` | src-tauri/src/market/desk.rs:255-285 | a sell can trigger migration only where the area before it was too large to price |
| `MarketTheorems.SellCanMigrate` | src-tauri/src/market/desk.rs:255-285 | a reachable trading market whose sell does migrate it |
| `MarketMeaning.PreviewDecided` | src-tauri/src/market/desk.rs:183-206 | a buy preview is a purchase, dust or an overflow, and exactly when each, by what the amounts cost |
| `MarketMeaning.BuyMeaning` | src-tauri/src/market/desk.rs:233-253 | every field after a buy: the greatest amount the curve share of the budget pays, its rounded-up price, floored fee, both sides of its average, the buyer's balance alone, and migration at the target |
| `MarketMeaning.BuyRefused` | src-tauri/src/market/desk.rs:185-206 | a buy is refused as not trading exactly outside trading, and otherwise as its preview is |
| `MarketMeaning.SellRefused` | src-tauri/src/market/desk.rs:208-262 | the refusals of a sell in the order they are tried, and that there are no others |
| `MarketMeaning.SellMeaning` | src-tauri/src/market/desk.rs:255-285 | every field after a sell: the rounded-down refund out of the reserve, the floored fee, the seller's balance alone with an emptied entry dropped |
| `MarketMeaning.SellPreviewMeaning` | src-tauri/src/market/desk.rs:208-231 | the preview shows what the sell then does, and a payout of refund less fee |
| `MarketMeaning.WithdrawMeaning` | src-tauri/src/market/desk.rs:295-313 | succeeds exactly for a positive amount held, and changes one balance and the withdrawn counter |
| `MarketMeaning.CreateMeaning` | src-tauri/src/market/desk.rs:329-362 | the checks of a creation in their order; then the market has exactly the terms asked for, fresh or after its creator's buy for the seed |
| `MarketMeaning.TradesStayApart` | src-tauri/src/market/desk.rs:364-401 | a desk trade is the trade at its own market, no other market is touched, an unknown id is refused |
| `MarketMeaning.DeskOperationsAreRuns` | src-tauri/src/market/desk.rs:364-401 | each desk operation, carried out or refused, is one step of the run of its own market |
| `MarketMeaning.PauseFailsExactlyWhen` | src-tauri/src/market/commands.rs:302-322 | pausing and resuming fail exactly for an unknown or a migrated market |
| `MarketMeaning.PausedMeansNoTrades` | src-tauri/src/market/commands.rs:302-322 | after a pause every quote, buy and sell of that market is refused as not trading, and all else is as before |
| `MarketMeaning.ResumedMeansTrades` | src-tauri/src/market/commands.rs:302-322 | after a resume quotes are decided by the search again, and buys with them |
| `MarketMeaning.PauseThenResume` | src-tauri/src/market/commands.rs:302-322 | a pause that is lifted leaves a trading market as it was |
| `MarketMeaning.PausedRunsTradeNothing` | src-tauri/src/market/desk.rs:185-262 | until it is resumed no operation moves a paused market's supply, reserve, fees or trades |
| `Desk.Market.QuoteBudget` | src-tauri/src/market/desk.rs:183-206 | the preview method computes the preview function |
| `Desk.Market.MaybeMigrate` | src-tauri/src/market/desk.rs:315-319 | the status changes exactly when a trading market became migratable |
| `Desk.Market.ExecuteBuy` | src-tauri/src/market/desk.rs:233-253 | a buy leaves exactly the specified state, a refused one the old state |
| `Desk.Market.ExecuteSell` | src-tauri/src/market/desk.rs:255-285 | a sell leaves exactly the specified state; the write before the second lookup is never left half done |
| `Desk.Market.ExecuteWithdraw` | src-tauri/src/market/desk.rs:287-313 | a withdrawal moves units out of custody and nothing else |
| `Desk.Desk.CreateMarket` | src-tauri/src/market/desk.rs:329-362 | creation adds one market, seeded by a real buy, or leaves the desk unchanged |
| `Desk.Desk.OpenMarket` | src-tauri/src/market/desk.rs:340-359 | the unlisted market is the specified one, or the seed buy's error is returned |
| `Desk.Desk.List` | src-tauri/src/market/desk.rs:360-360 | listing adds one market under a free id and touches no other |
| `Desk.Desk.BuyTokens` | src-tauri/src/market/desk.rs:368-379 | a buy touches one market only; an unknown id or a refusal touches none |
| `Desk.Desk.SellTokens` | src-tauri/src/market/desk.rs:381-393 | the same for a sell |
| `Desk.Desk.WithdrawTokens` | src-tauri/src/market/desk.rs:395-401 | the same for a withdrawal |
| `Desk.Desk.SetPaused` | src-tauri/src/market/commands.rs:302-322 | true pauses, false resumes, nothing else of any market changes; fails exactly for an unknown or a migrated market |
| `OrderLaws.StepKeepsInvariant` | src-tauri/src/market/desk_listener.rs:195-317 | every handler step keeps orders sound and every fill matched to one filled order whose payment hash is its preimage's hash, character by character |
| `OrderLaws.AtMostOneTradePerOrder` | src-tauri/src/market/desk_listener.rs:260-317 | whatever is duplicated, reordered or interleaved with local trades, an order causes at most one trade, released by a preimage whose hash is the payment hash, within cost plus fee |
| `OrderLaws.FilledOnlyByItsPreimage` | src-tauri/src/market/settle.rs:102-107 | over every run a filled order has a fill whose preimage hashes to its payment hash, letter case aside, and its buyer made that trade |
| `OrderHistory.OrdersComeFromQuotes` | src-tauri/src/market/desk_listener.rs:195-258 | over every run each order was asked for by its own buyer, holds what the market quoted then, and the invoice, hash and time of a later answer of the node |
| `OrderLaws.OrdersAreNeverOverwritten` | src-tauri/src/market/desk_listener.rs:202-206 | an order's terms never change and filled is final |
| `OrderLaws.PaidBudget` | src-tauri/src/market/desk.rs:190-193 | paying cost plus fee leaves the curve the cost, or one sat less exactly when the fee was rounded |
| `OrderLaws.SearchAtCost` | src-tauri/src/market/curve.rs:223-260 | searching with the price of one's own answer gives that answer again |
| `OrderLaws.SearchBelowCost` | src-tauri/src/market/curve.rs:223-260 | one sat less buys strictly fewer tokens |
| `OrderLaws.QuotedTokensAreFilled` | src-tauri/src/market/desk_listener.rs:277-291 | on an unmoved market the quoted tokens are filled exactly when cost*fee_bp is a multiple of 10000; otherwise what cost-1 buys, and the fill fails as dust where that is none |
| `OrderLaws.RepliesReportTheQuote` | src-tauri/src/market/desk_listener.rs:260-272 | a repeated proof or a status request reports the quoted tokens even where fewer were traded |
| `OrderLaws.FillShape` | src-tauri/src/market/desk_listener.rs:277-309 | a fill is one buy of the paid sats for the buyer, and the order becomes filled |
| `Listener.MessageIsARun` | src-tauri/src/market/desk_listener.rs:101-116 | one handled message is a run of the order machine |
| `Listener.RepliesAreTrue` | src-tauri/src/market/desk_listener.rs:101-116 | a reply that an order is filled, waiting or invoiced is true, with the traded amounts for a fresh fill and the order's own otherwise, and an error changed nothing |
| `Listener.StatusMeaning` | src-tauri/src/market/desk_listener.rs:319-332 | every answer to a status request, and that it changes nothing |
| `Listener.ProofMeaning` | src-tauri/src/market/desk_listener.rs:260-317 | every answer to a payment proof and the state after it: refused without a change, or one buy for cost plus fee |
| `Listener.QuoteRequestMeaning` | src-tauri/src/market/desk_listener.rs:195-258 | every answer to a buy quote and the state after it: the old invoice, a refusal, or a new order of the sender with each of its terms |
| `Listener.LocalActionsAreTheDesks` | src-tauri/src/market/desk.rs:364-401 | at any time a local trade or creation does to the desk what the desk does and to orders nothing; a restart loses the waiting quote only |
| `Listener.PollHandlesNewMessages` | src-tauri/src/market/desk_listener.rs:82-99 | a message seen before, in this poll or an earlier one, changes nothing; each other one is handled once, in order, and answered to its sender |
| `Listener.PollKeepsInvariant` | src-tauri/src/market/desk_listener.rs:82-99 | polling any messages keeps the invariant |
| `Listener.DeskListener.HandleBuyQuote` | src-tauri/src/market/desk_listener.rs:195-258 | resends an existing order's invoice, or stores the quoted order, or refuses without a trace |
| `Listener.DeskListener.HandlePaymentProof` | src-tauri/src/market/desk_listener.rs:260-317 | answers InvalidPreimage, changing nothing, exactly for a known unfilled order whose payment hash is not the preimage's; otherwise performs exactly one specified fill or refuses |
| `Listener.DeskListener.FillOrder` | src-tauri/src/market/desk_listener.rs:277-317 | buys, marks the order and replies, or changes nothing |
| `Listener.DeskListener.HandleMessage` | src-tauri/src/market/desk_listener.rs:101-116 | dispatches to the handlers, with the specified state and reply |
| `Listener.DeskListener.PollOnce` | src-tauri/src/market/desk_listener.rs:82-99 | the poll loop handles each new message once, in order, and answers each as specified |
| `Auth.LastTagWins` | gateway/src/auth.rs:104-118 | the scanned tag is the last one of its name with a value, and absent only if there is none |
| `Auth.ScanTags` | gateway/src/auth.rs:104-118 | the scan loop finds the three last tags |
| `Auth.VerifyCall` | gateway/src/auth.rs:72-144 | accepts exactly an event that is validly signed, of kind 27235, fresh, with matching last method and u tags and no mismatched last payload tag; each error exactly when its check is the first to fail |
| `Auth.VerifiedExactlyWhen` | gateway/src/auth.rs:72-144 | what an accepted event is, both ways, in terms of header, kind, time and last tags |
| `Auth.RefusedByFirstFailure` | gateway/src/auth.rs:72-144 | each of the twelve errors is given exactly when its check fails and all before it pass |
| `Auth.Authenticate` | gateway/src/auth.rs:179-227 | lets in only the key of an acceptable event; a verifier's error leaves both guards alone, and only an acceptable event meets them |
| `AuthLaws.AuthenticationMeaning` | gateway/src/auth.rs:179-227 | an acceptable event is rate-limited, then checked for replay, then let in under its own key; anything else changes nothing |
| `AuthLaws.ExpiryOutlastsFreshness` | gateway/src/auth.rs:98-101 | the expiry lies beyond every moment the event is still fresh, by one second or at the clock's last value |
| `AuthLaws.EachEventIsAcceptedOnce` | gateway/src/auth.rs:213-227 | on a nondecreasing clock below its last value no event id is accepted twice, whatever is swept |
| `ReplayRuns.AcceptedAgainExactlyWhen` | gateway/src/security.rs:96-110 | on any clock, an event accepted once is accepted next time exactly when it comes to the guard and the clock stands at its last second or a call in between swept the entry out |
| `ReplayRuns.SweptThenFresh` | gateway/src/auth.rs:98-101 | an entry swept out while the event is later still fresh shows that the clock stepped back |
| `ReplayRuns.ClockStepBackReopensReplay` | gateway/src/auth.rs:213-227 | for every time and skew, a run from empty guards of fresh events in which one backward step of the clock has the same event accepted twice |
| `ReplayRuns.LastSecondReopensReplay` | gateway/src/auth.rs:213-227 | at the clock's last value a fresh event is accepted twice in a row |
| `Security.Guard.AllowRate` | gateway/src/security.rs:67-94 | the in-place limiter computes the specified step |
| `Security.AllowMeaning` | gateway/src/security.rs:67-94 | without a limit every call is let in; with one exactly when the caller's refilled bucket, or a full one, holds a token; and which other buckets are swept |
| `Security.Guard.CheckReplay` | gateway/src/security.rs:96-110 | refuses exactly an id whose entry has not expired, stores the expiry otherwise, and sweeps exactly the expired when there are many |
| `LimiterRuns.SweepShowsExactlyWhen` | gateway/src/security.rs:67-94 | one answer depends on the sweep exactly when it drops the caller's own bucket, that bucket holds less than a token and a full one at least one |
| `LimiterRuns.EvictionIsInvisible` | gateway/src/security.rs:54-56 | over all runs on a clock at least one idle period old, no answer depends on sweeps exactly when burst is at most 600 times the refill rate, or below one |
| `LimiterLaws.PruningNeverChangesAnAnswer` | gateway/src/security.rs:67-94 | on any clock, as long as sweeps drop full buckets only, every call is answered as by a limiter that never sweeps |
| `LimiterLaws.OldClockSweepsHarmlessly` | gateway/src/security.rs:75-78 | that is so on a clock at least one idle period old when an idle period refills a bucket |
| `LimiterLaws.FewCallersSweepNothing` | gateway/src/security.rs:73-74 | and on any clock while no more callers than the threshold have been seen |
| `LimiterRuns.YoungClockForgets` | gateway/src/security.rs:75-78 | on a younger clock a run from the empty map gets an answer it should not, and lets one key in more often than the rate bound, exactly when burst is at least one |
| `LimiterLaws.RateIsBounded` | gateway/src/security.rs:67-94 | as long as sweeps drop full buckets only, one key is let in at most burst plus refill*T times in any window of length T, whatever other keys do |
| `Registry.Registry.TransferBetween` | gateway/src/registry.rs:317-351 | a transfer is one transaction: all four writes or none |
| `Registry.Registry.DebitBalance` | gateway/src/registry.rs:1052-1071 | a debit happens whole or not at all |
| `Registry.Registry.CreditBalance` | gateway/src/registry.rs:1038-1050 | a credit adds exactly the amount |
| `Registry.Registry.AddMintClaim` | gateway/src/registry.rs:358-396 | a batch claim is idempotent for its owner and refused to another |
| `Registry.Registry.AddPendingRow` | gateway/src/registry.rs:494-582 | an address replaces its row, an invoice never does |
| `Registry.Registry.ResolveRow` | gateway/src/registry.rs:436-477 | credit, event, mint record and removal, as one step, or nothing |
| `Registry.Registry.DeletePendingRow` | gateway/src/registry.rs:640-647 | a dropped invoice is removed and credits nothing |
| `Registry.Registry.PurgeStaleLnReceives` | gateway/src/registry.rs:652-659 | purges exactly the Lightning rows older than the cutoff, and counts them |
| `Registry.Registry.DebitAndMarkInFlight` | gateway/src/registry.rs:668-699 | debit and row together, under a fresh id, or neither |
| `Registry.Registry.SettleInFlight` | gateway/src/registry.rs:705-746 | records the row's event and removes it, or does nothing |
| `Registry.Registry.RefundInFlight` | gateway/src/registry.rs:750-767 | credits the row back and removes it, or does nothing |
| `Registry.Registry.ChargeOperatorFee` | gateway/src/registry.rs:828-861 | payer to operator with both events, or nothing |
| `Registry.Registry.RefundOperatorFee` | gateway/src/registry.rs:865-884 | payer credited in full, operator debited at most what it has |
| `LedgerLaws.TransferConserves` | gateway/src/registry.rs:317-351 | a transfer keeps every user explained by history and the liability unchanged |
| `LedgerLaws.MarkConserves` | gateway/src/registry.rs:668-699 | a reservation moves units from balance to row |
| `LedgerLaws.SettleConserves` | gateway/src/registry.rs:705-746 | settling turns a reservation into history |
| `LedgerLaws.RefundConserves` | gateway/src/registry.rs:750-767 | refunding restores the balance and needs no history |
| `LedgerLaws.ResolveConserves` | gateway/src/registry.rs:436-477 | a credit is explained by its own event and raises liability or sats by its amount |
| `LedgerLaws.ChargeConserves` | gateway/src/registry.rs:828-861 | a fee moves sats and creates none |
| `LedgerLaws.RefundFeeMoves` | gateway/src/registry.rs:865-884 | exactly how many sats a saturated fee refund would create |
| `LedgerMeaning.AddsMeaning` | gateway/src/registry.rs:494-582 | however requests repeat, an address keeps its last row, an invoice its first, and every other key and table its own |
| `LedgerMeaning.ResolveMeaning` | gateway/src/registry.rs:436-477 | for each of the four kinds of key the one balance credited, the one event written, the batch noted, the row dropped |
| `LedgerMeaning.ClosingMeaning` | gateway/src/registry.rs:700-767 | a settled row becomes its one event under the reference given or its own, a refunded one its balance; a row that is gone does neither |
| `LedgerMeaning.FeeMeaning` | gateway/src/registry.rs:828-861 | a fee is charged exactly when the payer has it, moves only that, and stands in both histories |
| `GatewayCoreLaws.MarkRowKeeps` | gateway/src/registry.rs:668-699 | a reservation keeps rows, journal, books and sats consistent with what really happened |
| `GatewayCoreLaws.RefundRowKeeps` | gateway/src/registry.rs:750-767 | so does a refund, whether or not the row is still there |
| `GatewayCoreLaws.SettleRowKeeps` | gateway/src/registry.rs:705-746 | so does settling |
| `GatewayCoreLaws.PayClaimKeeps` | gateway/src/registry.rs:436-477 | so does crediting a key the node confirmed, adding exactly its one event |
| `GatewayCoreLaws.PurgeClaimsKeeps` | gateway/src/registry.rs:652-659 | so does purging, which never makes a credited key uncredited |
| `GatewayCoreLaws.ReturnFeeKeeps` | gateway/src/registry.rs:865-884 | so does a fee refund, as long as the operator still has the fee |
| `GatewaySteps.StepKeeps` | gateway/src/routes/mod.rs:502-955 | one step of any handler, loop, node event, loss or crash keeps the whole gateway invariant |
| `GatewaySteps.RunKeeps` | gateway/src/routes/mod.rs:502-955 | so does every run |
| `GatewaySteps.FeeIsThere` | gateway/src/routes/mod.rs:127-145 | a handler about to give a fee back finds all of it with the operator |
| `GatewayTheorems.EveryDebitIsAccountedFor` | gateway/src/registry.rs:197-211 | in every reachable state balance plus open rows plus open burns is what the user's history says |
| `GatewayTheorems.BooksBalance` | gateway/src/reconcile.rs:106-132 | to the unit, what the node holds is balances, kept debits, credits to come and the operator's own, less drift |
| `GatewayTheorems.SolventExactlyWhenDriftIsCovered` | gateway/src/registry.rs:277-280 | liabilities fit the holding exactly when drift is covered by what is still open |
| `GatewayTheorems.SatsAreDeposits` | gateway/src/registry.rs:921-952 | all sats of all users are resolved deposits |
| `GatewayTheorems.FeeRefundNeverSaturates` | gateway/src/registry.rs:863-884 | the saturating refund never saturates in a reachable state and moves the fee exactly |
| `GatewayTheorems.CreditedAtMostOnce` | gateway/src/registry.rs:433-477 | each key is credited at most once, in full, to its owner, after confirmation, and never if dropped |
| `GatewayTheorems.MintStatusIsTrue` | gateway/src/routes/mod.rs:744-784 | a batch is in the mint table, with its asset and owner, exactly when it was credited once |
| `GatewayTheorems.WorthIsTheRequest` | gateway/src/registry.rs:446-460 | a request credits its amount exactly when it fits the signed column, else nothing |
| `GatewayTheorems.ClosedForGood` | gateway/src/registry.rs:700-767 | no run reopens, re-closes or renames a debit, or un-credits or un-drops a key |
| `GatewayTally.StepKeepsTally` | gateway/src/routes/mod.rs:502-955 | every step keeps the tally: each debit belongs to one request, whose client has lost exactly it, or nothing once it was refunded |
| `GatewayTally.EveryDebitIsTallied` | gateway/src/routes/mod.rs:502-955 | in every reachable state a request's handler and recovery together have moved its client by exactly its debit, or by nothing once it was refunded |
| `GatewayTally.FailureCostsNothing` | gateway/src/routes/mod.rs:868-905 | a send, burn or mint answered with a failure has cost its client no unit, and any failure no sat, whatever ran in between |
| `GatewayTally.FailedPaymentCost` | gateway/src/routes/mod.rs:502-571 | a Lightning payment answered with a failure cost nothing exactly when its debit was refunded, and its amount otherwise |
| `GatewayHashes.OnePaymentPerHash` | gateway/src/reconcile.rs:153-177 | whatever is retried, the node has at most one payment under a hash taken, and its record says whether that one has left |
| `PayCosts.FreeHashFailureCostsNothing` | gateway/src/routes/mod.rs:502-571 | a payment started while its hash is free, alone under it and told final failures only, costs nothing when it fails, over every run |
| `PayLosses.FailedPaymentIsFreeExactlyWhen` | gateway/src/routes/mod.rs:502-506 | the promised refund of an unsuccessful payment holds over all such runs exactly when, at its start, the node is not paying and has not paid its hash and no other handler is about to have it paid |
| `PayLosses.LateRivalEndsUnpaid` | gateway/src/routes/mod.rs:502-571 | that nobody else starts one meanwhile is needed: a second payment started under a free hash can leave the first failed and unrefunded |
| `FaithfulCosts.FaithfulClosingsAreTrue` | gateway/src/routes/mod.rs:548-570 | along every faithful run what is settled has left, and what is refunded has not and will not |
| `FaithfulCosts.FaithfulFailureCostsNothing` | gateway/src/routes/mod.rs:502-955 | along every faithful run any failed request, a Lightning payment included, has cost its client no unit and no sat |
| `LostHandlers.CrashKeepsReservations` | gateway/src/registry.rs:197-211 | after a crash every open send or Lightning payment still has its row |
| `LostHandlers.OpenDebitsWithRows` | gateway/src/registry.rs:197-211 | when a handler is lost, by itself or in a crash, an open debit has a row exactly if it is a reservation, never if it is a burn |
| `LostHandlers.LostDebitIsNeverResolved` | gateway/src/routes/mod.rs:934-954 | a send or burn whose handler is lost after the debit is neither recorded nor refunded by any later run |
| `LostHandlers.BurnIsLostByCrash` | gateway/src/routes/mod.rs:934-954 | every burn can be lost so: a crash right after its debit leaves the units gone and no row |
| `LostHandlers.LostHandlerKeepsItsFee` | gateway/src/routes/mod.rs:868-905 | a lost handler leaves its client short for good, without an answer, of a fee exactly when it stood after the charge and before the fee's return |
| `LostHandlers.LostBeforeFeeReturn` | gateway/src/routes/mod.rs:881-900 | lost between the refund and the fee's return it has given back every unit and keeps exactly the fee |
| `GatewayTheorems.HoldingStaysOverRun` | gateway/src/reconcile.rs:111-132 | holdings fall only when the node pays or the operator spends |
| `Audit.AuditFindsExactly` | gateway/src/reconcile.rs:106-132 | asked at one moment, the audit names an asset exactly when drift exceeds what is kept for debits, credits and the operator |
| `Audit.AuditRaisesNoFalseAlarm` | gateway/src/reconcile.rs:106-132 | without drift the audit is silent unless units leave between its two reads |
| `Audit.AuditFaithful` | gateway/src/reconcile.rs:106-132 | after any faithful run, with nothing leaving between its reads, the audit method returns no asset |
| `Faithful.TrackingIsTrue` | gateway/src/reconcile.rs:153-177 | with one payment per hash, what is tracked for a row is its own payment's fate: failed exactly if dropped, succeeded exactly if left |
| `Faithful.FaithfulRunKeeps` | gateway/src/routes/mod.rs:535-570 | in faithful runs nothing refunded has left or will leave |
| `Faithful.FaithfulRunsAreSolvent` | gateway/src/registry.rs:277-280 | along every faithful run balances plus the operator's own never exceed the node's holding |
| `Races.UnfinishedPaymentDrifts` | gateway/src/routes/mod.rs:551-570 | refunding on an answer that is not final ends short by exactly the payment |
| `Races.RetriedInvoiceDrifts` | gateway/src/reconcile.rs:141-177 | retrying a failed invoice lets recovery refund the live payment, though every answer of the node is true |
| `Races.FailedAttemptInvitesRetry` | gateway/src/routes/mod.rs:551-570 | a failed attempt leaves everything as it was and sets up that retry |
| `Races.PaidInvoiceFailsUnrefunded` | gateway/src/routes/mod.rs:502-571 | paying an invoice already paid can be settled by recovery first, refused by the node, and answered as a failure that cost the amount |
| `Races.PurgeForfeitsSettledInvoice` | gateway/src/registry.rs:649-659 | the purge goes by age alone: a settled invoice it drops is credited by no later run |
| `Races.PurgeForfeitsExactlyTheStale` | gateway/src/registry.rs:649-659 | a settled key waiting for its credit loses it to the purge exactly when it is a Lightning invoice older than the cutoff; any other can be credited by the next reconciliation |
| `NodeSteps.EveryKeyCanBeCredited` | gateway/src/reconcile.rs:33-104 | every stored key that is not cancelled can be confirmed, and the next reconciliation credits it once and in full |
| `NodeSteps.CancelledInvoiceIsDropped` | gateway/src/reconcile.rs:33-104 | an unpaid invoice can be cancelled, and the next reconciliation drops its row and does nothing else |
| `NodeSteps.OwnUnitsMeaning` | gateway/src/routes/mod.rs:1073-1103 | the operator adds units, or spends exactly what is its own and there; ledgers stay |
| `Reconcile.RecoverInFlight` | gateway/src/reconcile.rs:134-191 | one pass leaves exactly the rows whose payment is not known to have succeeded or failed, and counts the others |
| `Reconcile.RecoveryMeaning` | gateway/src/reconcile.rs:134-191 | it gives each failed Lightning payment's amount back to its own user, moves no balance for one that succeeded, touches no other row, and keeps every user explained |
| `Reconcile.RecoveryEvents` | gateway/src/reconcile.rs:134-191 | history grows by exactly one event for each payment that succeeded, oldest row first |
| `Reconcile.RecoveryOfRow` | gateway/src/reconcile.rs:141-177 | what a pass does about any one row, whatever the others are |
| `Reconcile.RecoveryOfOneRow` | gateway/src/reconcile.rs:141-177 | with one row, everything a pass changes: settled without a credit, given back without an event, or nothing |
| `UninterruptedLoops.RecoverIsARun` | gateway/src/reconcile.rs:134-191 | a recovery pass is a run of the concurrent machine with the same tables |
| `Reconcile.ReconcileInvoices` | gateway/src/reconcile.rs:33-66 | one pass over listed invoices, with its count |
| `Reconcile.ReconcileMeaning` | gateway/src/reconcile.rs:33-104 | it drops exactly the settled and cancelled, credits each settled one once, in list order |
| `UninterruptedLoops.ReconcileIsARun` | gateway/src/reconcile.rs:33-104 | a pass over listed invoices is a run of the concurrent machine with the same tables |
| `Reconcile.TotalLiabilitiesByAsset` | gateway/src/registry.rs:280-290 | the per-asset totals of positive balances |
| `Reconcile.SumAnchors` | gateway/src/reconcile.rs:118-122 | anchors of one asset are summed |
| `Reconcile.HeldIsTheWholeSum` | gateway/src/reconcile.rs:118-122 | the holding is the sum over all anchors of the asset, wherever they stand |
| `Reconcile.AuditSolvency` | gateway/src/reconcile.rs:106-132 | the audit names exactly the assets whose balances exceed the reported holding |
| `Routes.MaybeChargeFee` | gateway/src/routes/mod.rs:123-145 | a fee is due exactly when charging is on and the operator is somebody other than the payer; then it moves from payer to operator, or is refused for lack of sats; otherwise nothing changes |
| `Routes.SendUnits` | gateway/src/routes/mod.rs:844-905 | the handler leaves exactly the specified tables and reply on each way out |
| `Routes.SendMeaning` | gateway/src/routes/mod.rs:844-905 | a failed send differs in no balance, sats or row; one that succeeds lowers its own balance, takes the fee where charging is on and the operator is somebody else, and leaves its event; it succeeds exactly when units, fee and node agree |
| `Uninterrupted.SendIsARun` | gateway/src/routes/mod.rs:848-905 | every outcome of the send handler as written is the end of a run of the concurrent machine, same tables, same reply |
| `Uninterrupted.PayIsARun` | gateway/src/routes/mod.rs:502-571 | so is every outcome of the Lightning payment handler, a refused hash included |
| `Uninterrupted.BurnIsARun` | gateway/src/routes/mod.rs:914-955 | and of the burn handler |
| `Uninterrupted.MintIsARun` | gateway/src/routes/mod.rs:666-730 | and of the mint handler, on a batch issued for the first time |
| `Uninterrupted.TransferIsAStep` | gateway/src/routes/mod.rs:969-1004 | a transfer is one step of the machine, possible exactly when the handler makes it, moving one amount and writing two events |
| `Uninterrupted.KeyIsARun` | gateway/src/routes/mod.rs:598-665 | a request for an invoice, and alike for a deposit or an address, is a run that ends with the one row it asks for |
| `Routes.PayInvoice` | gateway/src/routes/mod.rs:502-571 | the handler leaves exactly the specified tables and reply |
| `Routes.PayMeaning` | gateway/src/routes/mod.rs:502-571 | a failed payment leaves no trace, one that succeeds lowers its own balance and leaves its event, and it succeeds exactly when units and node agree |
| `Routes.BurnUnits` | gateway/src/routes/mod.rs:914-955 | the handler leaves exactly the specified tables and reply |
| `Routes.BurnMeaning` | gateway/src/routes/mod.rs:914-955 | the same three statements for a burn |
| `Routes.MintAsset` | gateway/src/routes/mod.rs:666-730 | the handler leaves exactly the specified tables and reply |
| `Routes.MintMeaning` | gateway/src/routes/mod.rs:666-730 | a mint succeeds exactly when the fee due, amount and node allow and nobody else claims the batch; it fails without a trace, except that on a batch of another owner it keeps the fee |
| `Routes.TransferUnits` | gateway/src/routes/mod.rs:969-1004 | refused for nothing and to oneself; otherwise exactly one balance falls and one rises |

## Left out

- `reserve_sats` and `creator_fees_sats` are unbounded in the model, where the program adds
  them unchecked in 64 bits; `MarketTheorems.ReserveStaysInRange` bounds the first.
- ExitGuarantee: assumes that the reserve fits its 64-bit field.
- FaithfulRunsAreSolvent: assumes that a failure told to a handler is final and that no payment
  hash is used twice; without either it is false, as `Races` shows.
- Ledger totals are unbounded, where the tables hold signed 64-bit columns and sums; only the
  cast of a requested amount on its way into a pending row is modelled.
- The wire formats, signatures, sha256, URL comparison and invoice decoding are parameters or
  left out; so are clocks, except that calls carry the time they read.
- SpotMeaning: the last addition of the spot price is unchecked in the program; where a thousand
  prices lie within half a denominator of 2^128 it wraps or panics, and the model says overflow.
- Rates and token counts of the limiter are real numbers, so float rounding is not modelled.
- The remote sell (`desk_listener.rs:123-193`) and the on-chain withdrawal
  (`market_withdraw_asset` in `commands.rs`), which pay first and debit afterwards with other trades in between.
- Order expiry: `is_expired` is not consulted when an order is filled, so it plays no part.
- Failing saves of the desk and order files, and a crash between them: a fill and its order
  mark are one step of the machine.
- Published announcements and trade-tape entries.
- How a mint's batch is matched to its asset through anchor transaction ids
  (`reconcile.rs:217-269`): the node confirms a batch together with its asset id.
- That the node issues each batch, address and invoice once is assumed; the registry's own
  handling of repeats is in `Ledger` and `Registry`.
- Timestamps of history events, and the request fields that only travel through
  (names, memos, peers).
- The hex check on a transfer's recipient, and empty-string checks of requests.
- The fee quote formula: the fee is any number.
- The operator is fixed for a run; claiming the operator role, which reads and then writes
  in two steps (`routes/mod.rs:1033-1042`), is not modelled.
- Operator channel funding spends only the operator's own units in the model.
- History writes and closing steps whose database errors the handlers ignore: every registry
  step commits or has no effect.
- FreeHashFailureCostsNothing: assumes that nobody starts another payment under the hash meanwhile,
  without which it is false (`PayLosses.LateRivalEndsUnpaid`), and that a failure told to the
  handler is final: after one that is not, the payment may still be made and settled.
- FaithfulFailureCostsNothing: assumes the two conditions of a faithful run.
- MintIsARun: assumes that the node issues the batch for the first time, as the machine does.
- Requests refused before anything is reserved or charged take no step of the machine.
- EachEventIsAcceptedOnce: assumes that an event id determines its timestamp, which it does as a
  hash over it.
- RateIsBounded: assumes that sweeps drop full buckets only; where they do not it is false, see
  `LimiterRuns.YoungClockForgets`.
- EvictionIsInvisible: speaks of clocks at least one idle period old; for younger ones see
  `LimiterRuns.YoungClockForgets`.
- MintAsset: on a batch another owner already claims the program keeps the fee, and so does
  the model.
- The screens, storage encryption, backups, Ark and Bitcoin wallets, Tor and relay clients.
