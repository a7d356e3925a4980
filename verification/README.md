# Verification of the order platform

A Dafny 4.11 model of the transactional core of the marketplace backend, with machine-checked proofs.
`dafny verify dfyconfig.toml` checks all of it.

## What is modelled

- **Orders, stock and billing** (`OrderStatus`, `OrderFile`, `OrderStore`, `OrderRuns`, `OrderSafety`, `OrderInvariant`,
  `OrderPlacement`, `OrderEffects`, `OrderHistory`, `Conservation`, `OrderTheorems`, `WrappedRate`, `OrderRepository`,
  `Sweeps`, with `Catalog`, `Money`, `Commission`). The
  database is a record of tables; a transaction is a function from tables to tables or a refusal, so a failing one
  changes nothing. Rows that carry an order's id are grouped in that order's `OrderFile`. `OrderRuns.Run` is any sequence
  of placements, transitions, token spends, offer changes, evidence uploads and sweep steps, any of which may be refused
  or never happen; the theorems hold after all of them. `OrderRepository` and `Sweeps` are the procedures as the code has
  them, statement by statement on an open transaction, proved equal to those functions. What the functions mean is stated
  without them: when each transaction commits (`PlaceCommitsIff`, `ApplyCommitsIff`, `SpendCommitsIff`, `EvidenceCommitsIff`,
  `ReviseCommitsIff`), what it writes (`PlaceStores`, `TransitionWrites`, `LapseWrites`) and what runs of them record
  (`LedgerIsClosings`, `TokenSpendsOnce`, `RunEscalatesOnce`, `RunKeepsHistory`).
- **The outbox** (`Outbox`, `OutboxFaults`, `OutboxLeases`, `OutboxDelays`, `LateWrites`, `Relay`). `Outbox` interleaves the statements of
  any number of dispatchers with a clock, crashes and lost writes; `OutboxFaults` says exactly which steps do damage,
  `OutboxLeases` that none does while leases are kept, `LateWrites` that each can happen when they are not. `Relay` is one dispatcher's pass, with the recursive bisection and the sink.
- **Commission** (`AllowanceLocks`, `Rollup`): the allowance under concurrent closings, and monthly statements.
- **Offers under row locks** (`OfferLocks`), **the circuit breaker** (`Breaker`), **idempotency keys**
  (`Idempotency`), **refresh tokens** (`RefreshTokens`), **keyset lists** (`OrderLists`) and **operator queues** (`ReviewQueue`).

In the step models a step that is not enabled does not happen, so a theorem over `seq<Step>` is over every interleaving.
Fields and functions described as history (`chain`, `origin`, `issued`, `priced`, `lastSaved`, `log`, `positions`, `Closings`)
record the past and influence nothing.

## Where the code and its own description differ

- `saturation.go` (platform/telemetry/otelx, lines 279-281) expects each stock adjustment to happen exactly once. A
  declined order has already released its lines, and both cancel edges out of `buyer_decision_pending` release them again
  (status.go, lines 152-184). `Conservation.RunConservesIff` says exactly which runs are conserved,
  `CancelDeclinedShorts` what the others lose, and `OrderTheorems.DoubleReleaseIsReachable` gives a run. The bounds
  `0 <= reserved <= declared` hold on all runs.
- The comment on `ListUnbilledCommissionPeriods` says a completed month's unbilled set can only shrink. A closing is
  stamped before its transaction begins, so it can commit after the month was listed or invoiced. Statements are exact
  under the comment's assumption (`Rollup.StatementsAreExact`) and under a weaker one (`PromptStatementsAreExact`);
  `Rollup.RowIsAccountedIff` says exactly which rows are safe, and the two lost cases are given as runs.
- `recordFailure` and `markDispatched` both update by id alone, and `Send` asks for no lease. A holder that outlives its
  lease can revive a dead letter, make a dispatched row a dead letter, dispatch a dead letter, or deliver one behind a
  later event (the four runs of `LateWrites`). `OutboxFaults` gives the exact condition of each property over all runs
  (`RunKeepsFateIff`, `RunKeepsSettledIff`, `RunKeepsFirstIff`, `RunDeliversInOrderIff`); keeping to the leases is enough
  for all of them (`OutboxLeases.RunIsOrderly`).
- `effectiveRateBps` multiplies in 64 bits. Beyond about 9.2 * 10^14 tiyin of commission the product wraps; the recorded
  rate is then wrong (`Commission.EffectiveRateIsExactIff`), and a negative one makes the closing fail
  (`WrappedRate.PickupCommitsIff`, `WrappedRate.NegativeRateIsReachable`).
- An adjustment whose guard fails on the committed row waits for nobody, even while an open transaction is about to make
  it match. `OfferLocks.RunIsSerialIff` says exactly when such a miss makes a difference.
- The breaker can admit a probe inside a cooldown when two callers pass the deadline check together
  (`Breaker.ProbeIsEarlyIff`, `Breaker.EarlyProbeIsReachable`).
- A refresh whose conditional revoke succeeded before a revoke-all still stores a live token after it
  (`RefreshTokens.RevokeAllHoldsIff`, `RefreshTokens.RevokeAllMissIsReachable`).
- `Reserve` reads the reservation and the response separately. A request that completes in between can make it answer
  with that request's response (`Idempotency.SplitReserveCanMix`); the main theorems take `Reserve` as one step.
- A saved response whose second Redis write is lost can be replayed to another request
  (`Idempotency.LostProlongIsReachable`).

## Assumptions

- Transactions of the order model (`OrderRuns`) are atomic: this is assumed, not proved. What is proved about their
  interleaving is that of their statements on offers (`OfferLocks`: reservations, releases, consumptions and revisions
  are serial in the order they end, under an exact condition on missed adjustments) and on an owner's ledger
  (`AllowanceLocks`: the count and the insert behave as one step). That whole transactions, which also lock their order's
  row and wait on the index of receipts, have one common serial order does not follow from these two.
- No deadlock is ever reported to the order half of the refund saga. `classifyContention` would turn one into the same
  conflict as a refused transition, and `RefundOverdue` swallows that conflict; the model's refusals are those of the
  transition table, for which the swallowing is proved sound (`OrderInvariant.RefusalMeansLapsed`).
- A statement on an offer that waited and then found its guard false takes no lock in `OfferLocks`, where the database
  keeps one; the model so allows interleavings that the database does not, and its theorems cover both.
- An order's items come back in product order: they are written in the sorted order of the reservation, under
  time-ordered ids, and read by id.
- The schema constraints of the migrations are part of the statements: one offer per (store, product), one live payment
  per order, one ledger row per order, positive line quantities and amounts, reserved at most declared.
- Ids, tokens and fingerprints are values compared for equality; fresh ones are unused, and equal fingerprints mean
  equal requests. A fingerprint is never the legacy value `1`.

## Model

| member | source | states |
|---|---|---|
| OrderStatus.TableByStatus | binno_backend/internal/modules/orders/status.go:134-297 | the table read from the other side: for every status, exactly which triggers leave it and which lead into it |
| OrderStatus.TableByActor | binno_backend/internal/modules/orders/status.go:134-297 | and by actor: whose act each trigger is, the sweeps' by the clock and the token's by SMS |
| OrderFile.MoveAccepts | binno_backend/internal/modules/orders/repository.go:296-357 | one edge on a consistent order succeeds exactly when the table permits the status and its billing request is well-formed: no billing row ever stands in the way |
| OrderFile.MoveKeepsBilling | binno_backend/internal/modules/billing/settlement.go:31-211 | every edge keeps the status-to-billing-rows correspondence (nothing billed before acceptance, one issued invoice awaiting payment, one undecided payment in review, paid rows through closing, voided or returned rows afterwards) |
| OrderFile.MoveKeepsRecord | binno_backend/internal/modules/orders/repository.go:315-356 | the audit rows stay a legal path to the status and the published events stay exactly the ones that path calls for |
| OrderSafety.TransitionCommitsIff | binno_backend/internal/modules/orders/repository.go:257-292 | a trigger with its follow-on commits exactly when the order accepts it; then the order moves, its stock is adjusted once, and it is billed if it closes |
| OrderInvariant.ApplyCommitsIff | binno_backend/internal/modules/orders/repository.go:218-253 | in every reachable state a first attempt commits exactly when the order exists and accepts the trigger |
| OrderInvariant.ApplyKeepsInv | binno_backend/internal/modules/orders/repository.go:218-253 | a transition keeps the invariant over all tables: every order's rows fit its status, exactly the closed orders are on the ledger with the allowance applied, stock is within bounds, sweep receipts stand for finished work, spent tokens for accepted orders, and no refund is ahead of its order |
| OrderEffects.TransitionWrites | binno_backend/internal/modules/orders/repository.go:296-357 | the rows an accepted first attempt adds, all at the command's time: audit rows, the invoice of an acceptance due in 72 hours, the payment of a receipt, the refund of a request to be settled in 72 hours; every other order and table entry is untouched |
| OrderEffects.RunKeepsHistory | binno_backend/internal/modules/orders/repository.go:75-481 | from any state to any later one no order, item, amount, deadline, audit row, event or billing row is lost or rewritten; only statuses and due times change |
| OrderInvariant.SpendKeepsInv | binno_backend/internal/modules/orders/repository.go:433-481 | spending a confirmation token keeps that invariant: in particular a spent token belongs to an order that was accepted |
| OrderEffects.SpendCommitsIff | binno_backend/internal/modules/orders/repository.go:433-481 | in every reachable state a first attempt spends a token exactly when it is stored for this order, unused and unexpired and the order accepts; it then does what the transition does and marks that token; an unknown, used or expired token answers Gone |
| OrderEffects.TokenSpendsOnce | binno_backend/internal/modules/orders/store/queries.sql.go:14-20 | in every run a token confirms at most once, only an unconfirmed order, and only before the order's confirmation deadline |
| OrderInvariant.PlaceKeepsInv | binno_backend/internal/modules/orders/repository.go:75-199 | placing an order keeps that invariant |
| OrderPlacement.PlaceCommitsIff | binno_backend/internal/modules/orders/repository.go:75-199 | in every reachable state a first attempt places the order exactly when the store sells, each product is asked for once, each is offered, published, active and free in that quantity at a price that can be stored, a delivery has its tariff, and the new ids are free |
| OrderPlacement.PlaceStores | binno_backend/internal/modules/catalog/lineport.go:35-119 | what is stored: one item for each wanted product at its offer's price and product's rate, to the nearest tiyin, goods within half a tiyin an item of the exact sum, the tariff's fee, the deadline of the slowest product, the token valid to it; exactly the wanted quantities are held and nothing else changes |
| OrderInvariant.MarkKeepsInv | binno_backend/internal/modules/billing/refundsweep.go:86-119 | flipping a refund to overdue keeps that invariant: in particular only after its order was marked |
| OrderEffects.LapseWrites | binno_backend/internal/modules/billing/refundsweep.go:86-119 | a refund not yet decided becomes overdue and its event carries the order's total; otherwise nothing changes |
| OrderEffects.EvidenceCommitsIff | binno_backend/internal/modules/billing/repository.go:43-88 | evidence is accepted exactly for the amount of a refund still merely requested, marks it and changes nothing else |
| OrderInvariant.RefusalMeansLapsed | binno_backend/internal/modules/orders/module.go:65-75 | when the order half of the refund saga is refused, the order is already overdue or refunded, so treating the refusal as done is sound |
| OrderInvariant.RunKeepsInv | binno_backend/internal/modules/orders/repository.go:75-481 | that invariant holds after any run of placements, transitions, token spends, sweeps, evidence uploads and offer changes, whichever of them fail |
| OrderRuns.AccrueAccepts | binno_backend/internal/modules/orders/repository.go:946-982 | accruing a closing order's commission is refused only for an unresolved owner, an unrecordable rate or an order already on the ledger, never for an accrual above its base; the row is charged to the account the sale gate resolved, at the command's time |
| OrderRuns.AccrueGuards | binno_backend/internal/modules/billing/settlement.go:215-270 | whatever an order's rows say, a ledger row has a non-negative rate, an accrual of at most its base and nothing owed beyond the accrual; an accrual above the base is refused |
| OrderHistory.LedgerIsClosings | binno_backend/internal/modules/billing/settlement.go:215-270 | in every run the ledger is the committed closings in order, each charged to the account resolved for it; of each account's closings the first ten are discounted in full and every later one is payable in full |
| OrderRuns.ComputableIsRecordable | binno_backend/internal/modules/orders/repository.go:985-1018 | for any priced order whose goods amount fits in 64 bits: a rate whose computation stays in 64 bits is recordable, so only commissions beyond 9.2 * 10^14 tiyin can be refused for it |
| WrappedRate.PickupCommitsIff | binno_backend/internal/modules/orders/repository.go:985-1018 | from an empty platform, for any two line amounts at rates of 100% and nothing: the paid order can be picked up exactly when its blended rate, computed in 64 bits, is not negative |
| WrappedRate.NegativeRateIsReachable | binno_backend/internal/modules/orders/repository.go:1008-1018 | 10^15 tiyin beside 10^14 makes it negative, and the order cannot be closed |
| OrderTheorems.RunMeetsCapacityInvariants | binno_backend/tests/load/sql/invariants.sql:10-101 | every reachable state passes the post-run checks 2a to 5: one ledger row per closed order and no other, exact accruals, stock bounds, one paid payment per closed order, at most one live payment, no order at rest in a pass-through status |
| OrderTheorems.RunKeepsEachOrder | binno_backend/internal/modules/orders/status.go:134-297 | in every reachable state each order's status fixes its billing rows, its audit trail is a path of the table, and its events are the path's |
| OrderTheorems.NoSecondLivePayment | binno_backend/internal/modules/billing/settlement.go:72-142 | whatever an order's rows say, no edge gives it a second live payment |
| OrderTheorems.RunKeepsRefundSaga | binno_backend/internal/modules/billing/refundsweep.go:52-119 | with a stop at any point between the saga's two transactions, a refund is overdue only if its order is, and its overdue event is written exactly once if it is overdue and never before |
| OrderTheorems.RetryHasNoEffect | binno_backend/internal/platform/database/dedup/receipt.go:41-98 | while its receipt is kept, presenting a committed operation again after any further steps succeeds and changes nothing; a retried placement, whatever new id it drew, answers with the first order's id |
| OrderTheorems.KeyStaysBound | binno_backend/internal/platform/database/dedup/receipt.go:41-60 | a key spent by any step on one order or offer is refused to every transition, token spend, evidence upload and offer revision on another, after any further steps, with the state unchanged |
| OrderTheorems.ChargesAgree | binno_backend/tests/load/sql/invariants.sql:39-48 | the Go rounding of the line charges equals the SQL formula the capacity check uses |
| Conservation.MovedConserves | binno_backend/internal/modules/orders/status.go:134-297 | outside a declined order, every edge keeps each offer's reserved quantity equal to the lines of the orders that hold it |
| Conservation.CancelDeclinedConservesIff | binno_backend/internal/modules/orders/status.go:152-184 | cancelling a declined order keeps that equality exactly when no line finds enough reserved stock to release a second time |
| Conservation.CancelDeclinedShorts | binno_backend/internal/modules/orders/status.go:152-184 | what the second release does to each offer: the line's quantity is taken from other orders' reservations whenever they hold that much |
| Conservation.NextConservesIff | binno_backend/internal/modules/orders/repository.go:296-357 | any step of any kind keeps conservation exactly when it is not such a double release |
| Conservation.RunConservesIff | binno_backend/internal/modules/orders/status.go:134-297 | reserved stock equals the holding orders' lines throughout a run exactly when the run never releases a declined order's stock twice |
| OrderTheorems.DoubleReleaseIsReachable | binno_backend/internal/modules/orders/status.go:152-184 | a run of five operations ends with an offer's reservation short of an order that still holds it |
| OrderRepository.Repository.ApplyTrigger | binno_backend/internal/modules/orders/repository.go:218-253 | commits exactly what Apply says, or changes nothing |
| OrderRepository.Repository.SpendConfirmToken | binno_backend/internal/modules/orders/repository.go:433-481 | spends the token and accepts its order, or does neither |
| OrderRepository.Repository.Create | binno_backend/internal/modules/orders/repository.go:75-199 | reserves, prices, stores and announces the order, or changes nothing; a replay answers with the first order |
| OrderRepository.Repository.ReviseOffer | binno_backend/internal/modules/catalog/repository.go:178-244 | revises price, declared stock and status, refused without effect below the reserved quantity or out of the archive |
| OrderRepository.Repository.MarkRefundOverdue | binno_backend/internal/modules/billing/refundsweep.go:86-119 | flips a refund still in a listed status and writes its event, or changes nothing |
| OrderRepository.Tx.ClaimReceipt | binno_backend/internal/platform/database/dedup/receipt.go:41-98 | first attempt, replay, and conflict on another resource |
| OrderRepository.Tx.AdjustOrderLines | binno_backend/internal/modules/catalog/lineport.go:150-181 | the release and consume loop, equal to the guarded statements in line order |
| OrderRepository.Tx.ReserveLinesInOrder | binno_backend/internal/modules/catalog/lineport.go:35-119 | the reservation loop in product order: held quantities, priced lines, goods amount, fee and deadline, or a refusal |
| OrderRepository.Tx.IssueInvoiceFor | binno_backend/internal/modules/orders/repository.go:912-943 | issues the next invoice version and mirrors its expiry on the order |
| OrderRepository.Tx.RecordPaymentReceipt | binno_backend/internal/modules/billing/settlement.go:72-110 | records an undecided payment, refused when one is live |
| OrderRepository.Tx.SettlePayment | binno_backend/internal/modules/billing/settlement.go:113-142 | decides the undecided payment and pays the invoice, or fails the payment |
| OrderRepository.Tx.CancelSettlement | binno_backend/internal/modules/billing/settlement.go:146-161 | voids the issued invoice and fails the undecided payment |
| OrderRepository.Tx.OpenRefundFor | binno_backend/internal/modules/billing/settlement.go:164-186 | opens a refund of the order's total |
| OrderRepository.Tx.CompleteRefund | binno_backend/internal/modules/billing/settlement.go:189-211 | confirms the open refund, reverses the paid payment, returns the invoice |
| OrderRepository.Tx.AccrueCommission | binno_backend/internal/modules/billing/settlement.go:215-270 | writes the ledger row with the founding allowance, or refuses |
| OrderRepository.Tx.TransitionOrder | binno_backend/internal/modules/orders/repository.go:296-357 | status, audit row, stock, billing and event of one edge, equal to the edge's specification |
| OrderRepository.Tx.RunTransitionOn | binno_backend/internal/modules/orders/repository.go:257-292 | the edge and its follow-on in one transaction |
| Sweeps.RefundSweeper.RefundOverdue | binno_backend/internal/modules/orders/module.go:65-75 | the order half of the saga never blocks the sweep, and afterwards the order is overdue or refunded |
| Sweeps.RefundSweeper.RunOnce | binno_backend/internal/modules/billing/refundsweep.go:52-83 | a pass in which no statement fails leaves every listed refund overdue or confirmed, and every order not listed with all its rows as it was |
| Sweeps.Sweeper.RecordEscalation | binno_backend/internal/modules/orders/repository.go:712-739 | one escalation event per overdue confirmation, none for a replay |
| OrderHistory.RunEscalatesOnce | binno_backend/internal/modules/orders/repository.go:712-739 | in every run an overdue confirmation is announced to the operators exactly once if some pass escalated it, and never otherwise |
| Sweeps.Sweeper.RunOnce | binno_backend/internal/modules/orders/sweeper.go:65-125 | after a pass no listed order beyond its grace is unconfirmed, no listed unpaid order is still payable, and an order still within its grace keeps its status; the state and the three counters are exactly those of the listed rows swept in order |
| Sweeps.SweptCounts | binno_backend/internal/modules/orders/sweeper.go:65-125 | counted as escalated are exactly the confirmations nobody escalated before, as expired exactly those past their grace that were still unconfirmed or expired by the sweep before |
| Sweeps.UnpaidCounts | binno_backend/internal/modules/orders/sweeper.go:65-125 | the same of the unpaid orders |
| OrderRepository.Tx.MoveStock | binno_backend/internal/modules/orders/repository.go:326-335 | releases or consumes the order's lines as the edge says |
| OrderRepository.Tx.UpdateOfferRow | binno_backend/internal/modules/catalog/store/queries.sql.go:496-540 | the two update statements of an offer revision, with the constraint and the archive guard that refuse them |
| OrderRepository.Tx.SettleRows | binno_backend/internal/modules/orders/repository.go:845-909 | the billing rows after a trigger, equal to the settlement specification, or its refusal |
| OrderRepository.Tx.SettleOrder | binno_backend/internal/modules/orders/repository.go:845-909 | billing rows, or the commission when the order closes |
| OrderEffects.PublishCommitsIff | binno_backend/internal/modules/catalog/repository.go:138-175 | an offer is published exactly when the store has none of the product and its values are allowed |
| OrderEffects.ReviseCommitsIff | binno_backend/internal/modules/catalog/repository.go:178-244 | in every reachable state an offer is revised exactly when it exists, the price is positive, the declaration covers what is reserved and it stays in the archive if it is there; nothing else of it changes |
| Catalog.ReserveHoldsQuote | binno_backend/internal/modules/catalog/lineport.go:35-119 | a successful reservation holds, for every offer, exactly the quantity its quote lists |
| Catalog.ReserveKeepsBounds | binno_backend/internal/modules/catalog/store/queries.sql.go:421-428 | reserving keeps 0 <= reserved <= declared on every offer |
| Catalog.AdjustKeepsBounds | binno_backend/internal/modules/catalog/store/queries.sql.go:14-21 | releasing and consuming keep 0 <= reserved <= declared on every offer |
| Catalog.AdjustTakesHeld | binno_backend/internal/modules/catalog/store/queries.sql.go:399-405 | when the offers hold what the lines say, an adjustment takes exactly that |
| Catalog.AdjustIsNoopIff | binno_backend/internal/modules/catalog/lineport.go:150-181 | an adjustment changes nothing exactly when no line finds enough reserved stock |
| OfferLocks.HoldsReserve | binno_backend/internal/modules/catalog/lineport.go:35-119 | a reservation's plan of statements, run alone, is the catalogue's reservation |
| OfferLocks.TakesAdjust | binno_backend/internal/modules/catalog/lineport.go:150-181 | a release or consumption's plan of statements, run alone, is the catalogue's adjustment |
| OfferLocks.ReviseRevises | binno_backend/internal/modules/catalog/repository.go:178-244 | a revision's statement, run alone, changes exactly what the request names of the offer, within the table's constraints |
| OfferLocks.RunIsSerialIff | binno_backend/internal/modules/catalog/lineport.go:45-181 | in any interleaving of reservations, releases, consumptions and offer revisions, the committed offers and every quote and refusal are those of the same transactions run one after another in the order they ended, exactly when none commits with a missed adjustment whose quantity is by then there |
| OfferLocks.RunWithoutAdjustmentsIsSerial | binno_backend/internal/modules/catalog/lineport.go:45-102 | reservations and offer revisions alone are always serial |
| OfferLocks.CommitIsSerialIff | binno_backend/internal/modules/catalog/store/queries.sql.go:399-405 | run whole on the committed offers, a transaction about to commit ends as it does exactly when no adjustment it missed would now match |
| OfferLocks.LateFitIsReachable | binno_backend/internal/modules/catalog/store/queries.sql.go:14-21 | a release that misses beside an open reservation of the same offer is such a case, reached from the start |
| OfferLocks.NoWaitCycle | binno_backend/internal/modules/catalog/lineport.go:45-52 | in a cycle of transactions each waiting for the next, one can go on: there is no deadlock |
| OfferLocks.NeverStuck | binno_backend/internal/modules/catalog/lineport.go:45-181 | while any transaction is open, one of them can step |
| Money.NearestIsUnique | binno_backend/internal/platform/money/money.go:41-55 | rounded half-up determines one integer |
| Money.MultiplyRounds | binno_backend/internal/platform/money/money.go:14-26 | a quantity times a price is the exact product rounded half-up, and fails only for a negative quantity or outside 64 bits |
| Money.RoundHalfUp | binno_backend/internal/platform/money/money.go:41-55 | the nearest integer, ties away from zero, or a failure outside the 64-bit range |
| Money.BasisPointsBound | binno_backend/internal/platform/money/money.go:28-37 | for an amount of at least 0 and a rate of 0 to 10000 the charge lies between 0 and the amount, within half a tiyin of exact |
| Money.IsPositiveDecimal | binno_backend/internal/platform/money/money.go:59-78 | accepts exactly the plain decimals above zero |
| Money.IsNonNegativeDecimal | binno_backend/internal/platform/money/money.go:82-100 | accepts exactly the plain decimals |
| Commission.ChargesBound | binno_backend/internal/modules/orders/repository.go:954-967 | the charges of well-formed lines succeed and sum to between 0 and the goods amount |
| Commission.EffectiveRateIsExactIff | binno_backend/internal/modules/orders/repository.go:1008-1018 | the recorded blended rate reproduces the accrual to within half a unit exactly when accrued * 10000 does not leave 64 bits |
| Commission.EffectiveRateIsClamped | binno_backend/internal/modules/orders/repository.go:1003-1018 | for any amounts the recorded rate is at most 100%, exactly that for an accrual of the base or more, and nothing when there is nothing to charge |
| Commission.RecordedRateBetweenLineRates | binno_backend/internal/modules/orders/repository.go:985-1018 | a recorded rate lies between the smallest and largest line rate up to 1/2 + 5000n/base |
| Commission.SumCharges | binno_backend/internal/modules/orders/repository.go:954-967 | the charging loop, equal to the sum of the rounded charges |
| Commission.RateOf | binno_backend/internal/modules/orders/repository.go:985-1000 | the uniform rate of the lines, or the blended one |
| AllowanceLocks.RunKeepsInv | binno_backend/internal/modules/billing/settlement.go:215-270 | in every interleaving of lock, count, insert, commit and abort, the committed rows obey the allowance and no order has two |
| AllowanceLocks.FirstTenAreFree | binno_backend/internal/modules/billing/settlement.go:233-250 | each owner's committed rows were reported at positions 1 to n; the first ten have discount equal to accrued, the rest none, and accrued is discount plus payable |
| AllowanceLocks.LedgerIsOfRequests | binno_backend/internal/modules/billing/settlement.go:215-270 | in every interleaving each committed row carries the order, owner, amounts and time of a request some transaction began with |
| AllowanceLocks.NeverStuck | binno_backend/internal/modules/billing/store/queries.sql.go:624-626 | waiting for owner locks never deadlocks |
| Rollup.PromptStatementsAreExact | binno_backend/internal/modules/billing/rollup.go:48-110 | if rows are accrued only for months without a statement and on no job's list: one statement per (owner, month) at most, totals equal to the attached rows, and accruals equal to statements plus unbilled rows |
| Rollup.StatementsAreExact | binno_backend/internal/modules/billing/store/queries.sql.go:595-597 | the same when no row is accrued for a month after a listing made in a later one |
| Rollup.RowIsAccountedIff | binno_backend/internal/modules/billing/rollup.go:48-110 | a newly accrued row stays unbilled or priced under every continuation exactly when its (owner, month) has no statement and is on no job's list |
| Rollup.RunAccountsForEverything | binno_backend/internal/modules/billing/rollup.go:75-110 | on every run, accruals are on statements, unbilled, or attached to a statement priced without them |
| Rollup.JoinsOnce | binno_backend/internal/modules/billing/store/queries.sql.go:14-21 | a ledger row that joined a statement stays on it |
| Rollup.LateRowIsNeverPriced | binno_backend/internal/modules/billing/store/queries.sql.go:82-100 | a row accrued for a month that already has its statement is on no statement's totals, ever |
| Rollup.LateAccrualIsChargedToNobody | binno_backend/internal/modules/billing/store/queries.sql.go:82-100 | that case as a run from the start: the late commission joins the statement through the upsert's conflict branch and leaves its amount as it was |
| Rollup.WindowAccrualIsChargedToNobody | binno_backend/internal/modules/billing/rollup.go:48-110 | a commission accrued between a month's listing and its invoicing joins the statement without being in its amount, as a run from the start |
| Rollup.PassClearsTheBacklog | binno_backend/internal/modules/billing/store/queries.sql.go:567-580 | a pass without failures whose listing was not cut off leaves no row of an earlier month unbilled |
| Rollup.RollupJob.CreateInvoice | binno_backend/internal/modules/billing/store/queries.sql.go:82-100 | the upsert: a new statement, or the existing one unchanged |
| Rollup.RollupJob.InvoicePeriod | binno_backend/internal/modules/billing/rollup.go:75-110 | upsert and attach of one month, or nothing |
| Rollup.RollupJob.RunOnce | binno_backend/internal/modules/billing/rollup.go:48-72 | every listed month that does not fail ends with its statement and nothing unbilled; a failure stops only its own month |
| Outbox.RunKeepsSink | binno_backend/internal/platform/messaging/outbox/dispatcher.go:222-415 | under any interleaving, crashes between send and mark and overrun leases included, the sink holds each event at most once and every row marked dispatched |
| OutboxFaults.RunIsSound | binno_backend/internal/platform/messaging/outbox/dispatcher.go:277-415 | in every interleaving, leases overrun at will: attempts stay within the limit, a row is a dead letter exactly at it, and no dispatcher ever holds two events of an aggregate or one that had no attempts left |
| OutboxFaults.RunKeepsFateIff | binno_backend/internal/platform/messaging/outbox/dispatcher.go:369-415 | no row is ever both dispatched and a dead letter exactly when the run never marks a dead letter and never records the last failure of a dispatched row |
| OutboxFaults.RunKeepsSettledIff | binno_backend/internal/platform/messaging/outbox/dispatcher.go:382-415 | between any two states of a run a dispatched or dead row stays so exactly when no failure with attempts left is recorded on a dead letter |
| OutboxFaults.RunKeepsFirstIff | binno_backend/internal/platform/messaging/outbox/dispatcher.go:277-330 | throughout a run whatever is held or delivered has every earlier event of its aggregate dispatched or dead exactly when nothing is committed or revived behind an event held or delivered |
| OutboxFaults.RunSendsInOrder | binno_backend/internal/platform/messaging/outbox/dispatcher.go:277-330 | with ids in commit order and no dead letter revived, whatever may be sent, lease over or not, has every earlier event of its aggregate dispatched or dead-lettered |
| OutboxFaults.RunDeliversInOrderIff | binno_backend/internal/platform/messaging/outbox/dispatcher.go:240-244 | each aggregate's events first reach the sink in id order exactly when no send lands one behind a later one |
| OutboxFaults.RunDeliversInOrderUnlessLate | binno_backend/internal/platform/messaging/outbox/dispatcher.go:240-244 | as long as nothing is committed or revived behind an event held or delivered, that is exactly when no send lands a dead letter behind a later event |
| OutboxLeases.RunIsOrderly | binno_backend/internal/platform/messaging/outbox/dispatcher.go:277-415 | while nobody acts after its lease ends and ids come in commit order none of this happens: live leases are disjoint and hold pending rows, no row is both dispatched and dead, settled rows stay settled, whatever is held is first of its aggregate and first deliveries follow id order |
| LateWrites.LateFailureRevives | binno_backend/internal/platform/messaging/outbox/dispatcher.go:382-415 | from the start, for any settings: a failure recorded after its lease ended makes a dead letter pending again exactly when more than one attempt is allowed |
| LateWrites.LateFailureKills | binno_backend/internal/platform/messaging/outbox/dispatcher.go:382-415 | from the start, for any settings: it makes a dispatched row a dead letter too |
| LateWrites.LateMarkDoubles | binno_backend/internal/platform/messaging/outbox/dispatcher.go:369-380 | from the start, for any settings and with no failure recorded late: a late mark dispatches a dead letter |
| LateWrites.LateSendOvertaken | binno_backend/internal/platform/messaging/outbox/dispatcher.go:240-244 | from the start, for any settings: a late send of a dead letter lands behind the aggregate's next event |
| OutboxDelays.RetryDelayIsWait | binno_backend/internal/platform/messaging/outbox/dispatcher.go:417-427 | the delay is the base after the first failure, doubles after each of the next ten, and is never above an hour |
| OutboxDelays.FailedRowWaits | binno_backend/internal/platform/messaging/outbox/dispatcher.go:382-415 | after a failure with attempts left a row first of its aggregate can be claimed exactly from the end of that delay on, and after the last one never |
| OutboxDelays.RunWaits | binno_backend/internal/platform/messaging/outbox/dispatcher.go:277-330 | in every interleaving, leases overrun or not, at least the delay passes from a recorded failure to the next claim of the row unless another failure of it was recorded between |
| Outbox.RetryDelayGrows | binno_backend/internal/platform/messaging/outbox/dispatcher.go:417-427 | delays never shrink, start at the base and stop at an hour |
| Relay.EachRecordHasOneFate | binno_backend/internal/platform/messaging/outbox/dispatcher.go:240-274 | for any sink behaviour and any failing writes each record of a relay is marked, has one failure recorded, or has its one write lost |
| Relay.RelayedRows | binno_backend/internal/platform/messaging/outbox/dispatcher.go:369-415 | the rows after a relay: marked records dispatched, failed ones with exactly one failure recorded, each at a clock reading of its own write; every other row untouched |
| Relay.GoodRecordsGetThrough | binno_backend/internal/platform/messaging/outbox/dispatcher.go:240-264 | against a sink that refuses exactly the bad records for good, exactly the good ones are delivered and marked, and exactly the bad ones have a failure recorded |
| Relay.IsolationIsCheap | binno_backend/internal/platform/messaging/outbox/dispatcher.go:240-264 | isolating k >= 1 bad records out of n takes at most 1 + 2k ceil(log2 n) sends, a good batch one |
| Relay.CeilLog2IsLeast | binno_backend/internal/platform/messaging/outbox/dispatcher.go:260-263 | the number of halvings that bound uses is the least d with 2^d >= n |
| Relay.Dispatcher.Claim | binno_backend/internal/platform/messaging/outbox/dispatcher.go:277-330 | leases the earliest claimable unlocked rows up to the batch size, none skipped, at most one of each aggregate |
| Relay.Dispatcher.Relay | binno_backend/internal/platform/messaging/outbox/dispatcher.go:240-264 | the recursive relay does what its specification says and returns the number of records marked |
| Relay.Dispatcher.MarkDispatched | binno_backend/internal/platform/messaging/outbox/dispatcher.go:369-380 | one write marks the whole part, or nothing |
| Relay.Dispatcher.RecordBatchFailure | binno_backend/internal/platform/messaging/outbox/dispatcher.go:266-274 | one failure per record, going on after a failed write |
| Relay.Dispatcher.RecordFailure | binno_backend/internal/platform/messaging/outbox/dispatcher.go:382-415 | the update by id from the record's own attempt count |
| Relay.Dispatcher.RunOnce | binno_backend/internal/platform/messaging/outbox/dispatcher.go:222-237 | one pass: every claimed row meets its record's one fate and the rest of the table is untouched |
| Relay.AnalyticsSink.Send | binno_backend/internal/platform/database/analytics/postgres/sink.go:25-57 | all of the batch or none of it, refused for good at its first bad record |
| Breaker.RunKeepsInv | binno_backend/internal/platform/cache/redisx/breaker.go:56-90 | at the granularity of single atomic operations, with any number of callers: while half-open, the caller whose swap made it so has not finished recording, and every probe directly follows a store of the open state |
| Breaker.ProbeEndsHalfOpen | binno_backend/internal/platform/cache/redisx/breaker.go:56-90 | once the probing call has returned, a half-open state belongs to another caller's probe |
| Breaker.ProberEndsIt | binno_backend/internal/platform/cache/redisx/breaker.go:71-90 | whatever Redis answers, five operations of the prober alone end the half-open state |
| Breaker.OneProbePerOpen | binno_backend/internal/platform/cache/redisx/breaker.go:61-65 | each store of the open state admits at most one probe before the next store of open or closed |
| Breaker.ProbeIsEarlyIff | binno_backend/internal/platform/cache/redisx/breaker.go:61-65 | on every run, a caller about to swap is inside a cooldown exactly when some caller stored a deadline after it loaded one and the last deadline so stored has not passed |
| Breaker.EarlyProbeIsReachable | binno_backend/internal/platform/cache/redisx/breaker.go:56-90 | for any settings, a run from the start admits a probe inside the cooldown just begun |
| Breaker.StepsAreOperations | binno_backend/internal/platform/cache/redisx/breaker.go:56-90 | run alone, the atomic steps are the sequential operations |
| Breaker.ThresholdTrips | binno_backend/internal/platform/cache/redisx/breaker.go:76-84 | from closed and clean, failures in a row leave the breaker closed below the threshold and trip it at the threshold |
| Breaker.ConsecutiveFailuresTrip | binno_backend/internal/platform/cache/redisx/breaker.go:71-90 | through any mix of successes and failures only failures in a row count, and the breaker trips the first time there are as many as the threshold |
| Breaker.TrippedProbesOnce | binno_backend/internal/platform/cache/redisx/breaker.go:56-90 | a tripped breaker refuses until its cooldown is over, then admits one probe whose outcome alone closes it clean or begins a new cooldown |
| Breaker.CircuitBreaker.Allow | binno_backend/internal/platform/cache/redisx/breaker.go:56-68 | who is admitted, and what admission changes |
| Breaker.CircuitBreaker.Succeed | binno_backend/internal/platform/cache/redisx/breaker.go:71-74 | closes and clears |
| Breaker.CircuitBreaker.Fail | binno_backend/internal/platform/cache/redisx/breaker.go:76-84 | counts, or trips when half-open or at the threshold |
| Breaker.CircuitBreaker.Trip | binno_backend/internal/platform/cache/redisx/breaker.go:86-90 | opens for one cooldown and clears |
| Breaker.CircuitBreaker.Process | binno_backend/internal/platform/cache/redisx/breaker.go:123-163 | refused without a call, or recorded by the call's outcome |
| Idempotency.RunKeepsInv | binno_backend/internal/platform/cache/idempotency/idempotency.go:71-123 | while handlers finish inside the reservation's life and both writes of a saved response land, owners are alone on their keys and every live response belongs to a live reservation with its own fingerprint |
| Idempotency.OneOwnerPerKey | binno_backend/internal/platform/httpx/middleware_mutation.go:198-242 | at most one caller per key is between acquire and save or release at any time |
| Idempotency.ReplayIsTheSavedResponse | binno_backend/internal/platform/httpx/middleware_mutation.go:198-242 | across all expiries, a replay returns the response saved last under the key, for a request with the same fingerprint, and no handler is running under that key |
| Idempotency.OverrunAdmitsAnother | binno_backend/internal/platform/cache/idempotency/idempotency.go:71-76 | in every reachable state a running handler keeps others off its key exactly until its reservation's life is over |
| Idempotency.LostProlongMixesResponses | binno_backend/internal/platform/cache/idempotency/idempotency.go:102-114 | in every reachable state a crash after the response was set always lets a later request replay it while running |
| Idempotency.LostProlongIsReachable | binno_backend/internal/platform/cache/idempotency/idempotency.go:102-114 | the same as a run from the start |
| Idempotency.SplitReserveIsRightIff | binno_backend/internal/platform/cache/idempotency/idempotency.go:71-98 | with anything between the two reads of Reserve, the response found is the last one saved, and answers the caller's own request exactly when the reservation still carries its fingerprint |
| Idempotency.SplitReserveCanMix | binno_backend/internal/platform/cache/idempotency/idempotency.go:79-97 | from the start and with everything in time, a release, an acquire and a save between the two reads make it answer with another request's response |
| Idempotency.AnsweredAtOnce | binno_backend/internal/platform/cache/idempotency/idempotency.go:71-98 | with every command answered at one time Reserve is the one step of the theorems above |
| Idempotency.ReserveMeans | binno_backend/internal/platform/cache/idempotency/idempotency.go:71-98 | whatever fails and whenever the commands arrive: acquired exactly when the key was free, mismatch exactly when the reservation read carries another body's fingerprint, a replay only of the live stored response and only under the caller's or the legacy fingerprint |
| Idempotency.ServedAnswers | binno_backend/internal/platform/httpx/middleware_mutation.go:198-242 | on every run kept in time: 503, 409, 422, the status of the response saved last for the same body, or the own handler's, and only the last runs it |
| Idempotency.ServingIsARun | binno_backend/internal/platform/httpx/middleware_mutation.go:198-242 | whatever commands fail or lose their answers, a whole request leaves in Redis what a run of the step system leaves, lost commands and answers being crashes; its handler runs exactly when the key was free and the answer arrived |
| Idempotency.ServingMeansReplay | binno_backend/internal/platform/httpx/middleware_mutation.go:198-242 | with every command answered: a failed handler frees the key, a successful one makes every retry a replay or a mismatch until the response expires |
| Idempotency.Store.Reserve | binno_backend/internal/platform/cache/idempotency/idempotency.go:71-98 | three commands, each at its own time and each able to fail: the outcome or unavailability, and what is stored |
| Idempotency.Store.SaveResponse | binno_backend/internal/platform/cache/idempotency/idempotency.go:102-114 | sets the response, then prolongs a live reservation unless the first write went wrong |
| Idempotency.Store.Release | binno_backend/internal/platform/cache/idempotency/idempotency.go:118-123 | drops the reservation |
| Idempotency.Store.Serve | binno_backend/internal/platform/httpx/middleware_mutation.go:198-242 | reserve, run, then save or release: the status, 503 included, whether the handler ran, and what is stored; failed bookkeeping changes no answer |
| RefreshTokens.RotationIsLinear | binno_backend/internal/modules/identity/service.go:170-206 | in every interleaving of find, revoke, store and the janitor's deletes no two tokens were exchanged for the same one, kept or deleted, and each login has at most one live token |
| RefreshTokens.ChainsAreLogins | binno_backend/internal/modules/identity/service.go:224-252 | the column names the token a successor was exchanged for exactly while that token is kept; it then has the same user and login and is revoked; tokens that no rotation made belong to different logins |
| RefreshTokens.RunKeepsUnexpired | binno_backend/internal/modules/identity/store/queries.sql.go:14-22 | a token is kept at least until it has expired, however often the janitor passes |
| RefreshTokens.RevokeAllHoldsIff | binno_backend/internal/modules/identity/store/queries.sql.go:157-161 | after a revoke-all the user stays without a live token until the next login exactly when no request was about to store one that the schema would accept |
| RefreshTokens.RevokeAllMissIsReachable | binno_backend/internal/modules/identity/service.go:170-206 | from the start: a replay's revoke-all leaves the user without a live token while another refresh is about to store, and the store then leaves a live one |
| RefreshTokens.StatementsAreRefresh | binno_backend/internal/modules/identity/service.go:170-206 | a refresh run without interruption is the sequential function |
| RefreshTokens.RefreshIsSafe | binno_backend/internal/modules/identity/service.go:170-206 | that function: a replayed token or a blocked user leaves no live token of the user and touches no other user's, only a live token of a blocked user is answered as blocked, a live one is exchanged for exactly one new one good for thirty days, anything else changes nothing |
| RefreshTokens.IdentityService.Issue | binno_backend/internal/modules/identity/service.go:224-252 | stores one new live token, unless the token it would refer to is gone |
| RefreshTokens.IdentityService.Login | binno_backend/internal/modules/identity/service.go:140-167 | a new login's first token, or a refusal of a blocked user |
| RefreshTokens.IdentityService.Refresh | binno_backend/internal/modules/identity/service.go:170-206 | equal to the sequential function |
| RefreshTokens.IdentityService.Logout | binno_backend/internal/modules/identity/service.go:209-221 | revokes the one session |
| OrderLists.RowsAreTheMatchingOrders | binno_backend/internal/modules/orders/store/queries.sql.go:423-433 | a list's rows are exactly the matching orders beyond the cursor, strictly newest first |
| OrderLists.FollowYieldsTheRest | binno_backend/internal/modules/orders/repository.go:515-600 | over a fixed snapshot following cursors ends, in full pages and one last page without a cursor, and yields exactly the rows ahead |
| OrderLists.FollowListsEverything | binno_backend/internal/modules/orders/repository.go:515-600 | from the empty cursor: every matching order, newest first, none repeated or skipped |
| OrderLists.OpenOrdersHoldStock | binno_backend/internal/modules/orders/store/queries.sql.go:423-433 | a store's open list shows exactly the accepted orders that still hold its stock |
| OrderLists.OrderReader.OrderPage | binno_backend/internal/modules/orders/repository.go:589-600 | the page loop and its cursor |
| OrderLists.OrderReader.ListOrders | binno_backend/internal/modules/orders/repository.go:515-533 | decode, query one row more than the page, cut the page; a bad cursor is refused |
| ReviewQueue.ProjectionsAgreeIff | binno_backend/internal/modules/operator/repository_clickhouse.go:207-240 | the newest-closing form keeps exactly the items with no later closing event, except a never-closed item that is not after the epoch |
| ReviewQueue.QueueFollowsStatus | binno_backend/internal/modules/orders/status.go:174-212 | in every legal history the payment-review queue holds exactly the newest review of an order in payment review and nothing of it otherwise, through any number of rejections |
| ReviewQueue.NewestQueueFollowsStatus | binno_backend/internal/modules/operator/repository_clickhouse.go:163-240 | the same of the newest-closing form |
| ReviewQueue.LeavingClosesIffLater | binno_backend/internal/modules/operator/repository_clickhouse.go:163-187 | the edge that leaves a review takes its item out exactly when it is strictly later than the opening |
| ReviewQueue.EscalationFollowsStatus | binno_backend/internal/modules/operator/repository_clickhouse.go:163-187 | an escalated order stands in its queue exactly as long as it is unconfirmed |
| ReviewQueue.OverdueFollowsStatus | binno_backend/internal/modules/operator/repository_clickhouse.go:163-187 | an overdue refund stands in its queue exactly until it is confirmed |
| ReviewQueue.RequestsAndChases | binno_backend/internal/modules/operator/repository_clickhouse.go:163-187 | a catalogue request leaves its queue when it is resolved, a chase only by an operator |

## Left out

- Sums of line amounts, goods plus fee and statement totals are unbounded integers; only the range check of one rounded amount and the product in `effectiveRateBps` are modelled at 64 bits.
- Relay.AnalyticsSink.Send: the field checks that make a record bad (`EventFromRecord`) are abstracted to a set of bad event ids, because each is true by reading one branch.
- Relay.Dispatcher.Claim: returns the batch in id order, where the statement leaves the order of returned rows open; at most one row of each aggregate is in a batch, so no claim depends on it.
- Relay.Dispatcher.RunOnce: takes one clock reading for the claim's two time parameters; every later write reads the clock anew.
- Outbox.RunKeepsSink: here and in `OutboxFaults`, retention deletes of dispatched rows, receipts and sink events are not modelled, so "while the row is kept" is understood.
- Catalog.SortByProduct: the sort is a stable insertion sort on numeric ids; product ids are taken to be canonical text.
- Sweeps.RefundSweeper.RunOnce: the listing is a parameter and no statement fails with an infrastructure error; `OrderRuns` allows a stop between any two transactions.
- Sweeps.Sweeper.RecordEscalation: refuses an order that is not stored, for which the code would write an event; its only caller passes listed orders.
- RefreshTokens.ChainsAreLogins: the janitor is a step that deletes any set of expired tokens; its loop and the choice of a batch are not modelled.
- Sweeps.Sweeper.RunOnce: the two listings are parameters and no statement fails with an infrastructure error; its two loops are the methods SweepUnconfirmed and SweepUnpaid.
- OrderRepository.Repository.MarkRefundOverdue: the receipt key carries the order instead of the refund's id; every reachable order has at most one refund, which is proved.
- OrderRepository.Repository.Create: buyer type, drop-off, district and audit payload columns are not modelled.
- OrderRepository.Repository.ReviseOffer: the freshness timestamp and the catalog's own outbox event are not modelled.
- Rollup.RollupJob.RunOnce: the listing is a parameter; the step model allows any choice of months, and `PassClearsTheBacklog` takes the query's own.
- Idempotency.ReplayIsTheSavedResponse: `Reserve` is one step here; what can run between its reads is the subject of `SplitReserveIsRightIff`. A stored response that does not decode is not modelled.
- OrderLists.FollowListsEverything: assumes no order was created at the zero time, which the cursor decoder refuses; base64 and JSON of the cursor are an injective constructor.
- Breaker.RunKeepsInv: the consecutive-failure counter under concurrency is modelled but nothing is claimed of it beyond the sequential `ThresholdTrips`.
- Breaker.CircuitBreaker.Process: which errors count as unavailability is a parameter, and commands issued inside an admitted call, which bypass the breaker, are not modelled.
- ReviewQueue.QueueFollowsStatus: assumes no operator resolution of the order's reviews; scanning, paging and the payload's due date are not modelled.
- Money.RoundHalfUp: quantities are exact decimals held as reals; parsing of decimal text is covered by the two recognisers only.
- Payment-provider calls, the provider payment rail and invoice documents.
- HTTP handlers, authorization, validation, rate limits, tracing, metrics, SMS, one-time codes, configuration and health probes.
- Search ranking, geography, catalogue requests, the mobile app and deployment.
