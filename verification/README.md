# Verification of the marketplace transaction authority

A Dafny 4.11 model of the parts of the service where several actors drive shared state, and proofs
of what every run of them keeps. A SQL transaction is one atomic step on an explicit state; the
actors are nondeterministic: any interleaving, any order, any point of cancellation. Where the
service changes things in place, a class or a loop does the same and is proved equal to the
specification the theorems are about.

| component | files |
|---|---|
| Bitcoin seller confirmation, manual review, late money, reservation sweep | `StateMachines`, `Ledger`, `BitcoinReview`, `ReviewAccounting`, `ReviewInvariant`, `ReviewSteps`, `ReviewLate`, `ReviewTheorems`, `ReviewBooks`, `ReviewLeaks`, `ReviewSales`, `ReviewTransactions` |
| Address search: circuit breaker, client token buckets, answer cache, single flight | `Breaker`, `Limiter`, `AnswerCache`, `Flights` |
| Idempotent command executor | `Json`, `Executor` |
| Key rotation of sealed rows under concurrent writers | `Reseal` |
| Webhook enqueueing, seller listing export | `Webhooks`, `Paging` |
| Single-use sign-in tokens | `Sessions` |
| Exchange-rate decimals, reference rate, satoshi quotes | `Decimals`, `ReferenceRate`, `Quotes` |
| z-base-32 public keys (five-bit groups as in section 6 of RFC 4648, without padding) | `Pubky` |

`dafny verify dfyconfig.toml` checks everything.

## How the proofs are built

**Bitcoin review.** `BitcoinReview` has one function per transaction and a step function over ten
actions: entering the seller window, confirm, route after 24 hours, resolve, the lookup of an earlier
resolution, the seller's alert after two business days, abandon after seven days, late money, the
payment-window sweep and the reservation sweep.
Each committed transaction is proved to be a `Moves`: it touches one order, its payment and its
reservation, moves both along declared edges, appends at most one decision row with its resolve row,
and keeps the row invariants (`ReviewSteps`, `ReviewLate`). `Core` is then an invariant of every run,
and the theorems of `ReviewTheorems` and `ReviewSales` follow by induction over runs. The order row a
confirmation uses is read before its transaction, so its state, hold flag and observation are arbitrary
parameters.

**Hold and drop accounting.** Every listing and every drop is a book with a gap: what its columns say
is held, less what stock-held orders and active reservations hold of it. `ReviewBooks` gives each
transaction a leak, a function of the tables before it, and proves that a committed transaction moves
each gap by exactly its leak, so that over any run the gap is what it was plus the leaks. `ReviewLeaks`
turns this into two equivalences over whole runs, one for listings and one for drops, whose condition
is on the guards of each event and the tables before it. Nothing is assumed about how many
reservations a buyer has on a listing.

**Address search.** Each protocol is a step function over events, its invariant is kept by every
event, and the theorems quantify over whole runs with tickets, entrants and buckets coming and going
at any time. The bounded client table is compared with a table that never evicts.

**Executor.** Interleaved submissions are simulated by an atomic idempotent store: every event either
settles a submission with the store's own answer or is invisible to it.

**Key rotation.** The pass is executable, with a schedule of other writers' commits consumed before
every read and every write. A ghost copy is written by the others alone; equal plaintexts at the end
say that the pass undid none of their writes.

## Findings

- Late money goes on in the same transaction after `reacquire_hold` fails, so what it had taken stays
  taken. `ReviewLeaks.HoldAccounting` and `ReviewLeaks.DropAccounting` give the exact conditions under
  which the books break, for late money and for every other transaction:
  - a two-line order whose second listing sold out leaves the first listing's unit reserved for nobody
    (`ReviewLeaks.LateMoneyCanStrandStock`);
  - an auction buyer with two lapsed reservations of the listing gets both reactivated over no reserved
    unit (`ReviewLeaks.LateMoneyCanReviveTwoRows`);
  - a drop order whose listing is gone loses its drop unit, which no order holds, nobody paid for and
    the drop no longer has (`ReviewLeaks.LateMoneyCanLoseDropUnit`).
- Decisions address an auction's reservations by listing and buyer, so a buyer with two active ones has
  both converted or released for one order's line; the second one's units stay reserved for nobody
  (`ReviewLeaks.ConfirmationCanStrandStock`).
- With one reservation per auction order and late money only for one-line orders outside auctions the
  hold accounting is plain (`ReviewLeaks.PlainRunsAccount`).
- `complete_late_order` lists `manual_review` among the states it completes, but it does not clear the
  entry instant, so the table's check refuses that write. The model follows the table: late money
  never confirms a payment under review (`ReviewSales.ReviewIsNeverCompletedLate`). All callers of the
  fork test the payment's state first, so a payment under review does not reach it at all.
- `reacquire_hold` counts a drop order's units against its buyer again. If the buyer has used up the limit
  meanwhile, the table's check refuses the count and the late money's transaction fails as a whole each
  time, recording neither a sale nor a refund to make (`ReviewSales.OverLimitLateMoneyChangesNothing`).
- A refund is recorded with the amount observed, which the table caps at the larger of the order's total
  and its Paykit total: an order paid above it cannot be resolved as refunded
  (`ReviewSales.ResolutionMatrix`).
- The payment-window sweep is one transaction, so a single order that cannot be expired keeps all due
  orders held; with the books right this cannot happen outside drops
  (`ReviewLeaks.AccountedBatchCommits`).
- The service's own documentation (its top-level readme, lines 313-314 and 665-668) sends late money to
  `manual_review`; the code (bitcoin_review.rs:1376-1467) completes the order when its stock is free and
  asks for a refund when it is not. The model follows the code.
- A webhook endpoint gets each event exactly once unless an event appears at or below a cursor that
  should have had it; `Webhooks.StepCatches` is the exact condition for every step. It happens in two
  ways. The pass reads `MAX(sequence)` in a second statement, so an event that commits between the two
  reads of a short page is passed over (`Webhooks.LateEventIsLost`). And sequences are drawn at insertion
  without a common lock, so a lower sequence can commit after a pass has moved beyond it
  (`Webhooks.EventOutOfOrderIsLost`), even when each pass reads one snapshot.
- The listing walk is complete exactly when each page ends on an id the cursor decoder takes back:
  at most 256 bytes, no control characters (`Paging.WalkIsComplete`).
- Token uses must be retained for twice the reach of the window checks: twice the smaller of the
  service's window and the library's 180 seconds where the service's clock shows the system's time, twice
  the service's window where it may not (`Sessions.SingleUseExactly`). The code retains twice the larger,
  which is always enough. It is a margin at the default of 120 seconds, and the least that will do for
  windows of 180 seconds or more with clocks that may differ (`Sessions.TokensAreSingleUse`).
- Whole values of 39 digits print but do not read back (`Decimals.ParsePrint`).

## Model

| member | source | states |
|---|---|---|
| StateMachines.ConfirmedHasNoWayOut | crates/domain/src/state_machines.rs:541-627 | in the payment table no walk of declared edges leaves `confirmed` |
| StateMachines.PathsJoin | crates/domain/src/state_machines.rs:701-709 | reachability by declared edges is transitive |
| Ledger.ReserveLinesMoves | crates/service/src/bitcoin_review.rs:1323-1354 | the reserve loop moves exactly the units of the lines before the first failing guard from available to reserved, keeps every quantity non-negative, and succeeds iff no guard fails |
| Ledger.ReleaseLinesMoves | crates/service/src/handlers/holds.rs:81-128 | the release loop moves exactly the units of the lines before the first failing guard from reserved to available, and succeeds iff no guard fails |
| Ledger.SellLinesMoves | crates/service/src/handlers/payment.rs:253-519 | a successful sale moves exactly the lines' units from reserved to sold |
| Ledger.HeldLinesRelease | crates/service/src/handlers/holds.rs:81-128 | stock that is really reserved can always be released, repeated listings included |
| Ledger.UpdateHeld | crates/service/src/bitcoin_review.rs:1304-1321 | an update by listing and buyer changes what reservations hold by exactly the units of the rows it makes active or inactive, however many match |
| Ledger.ReactivatedClaims | crates/service/src/bitcoin_review.rs:1308-1310 | after a reactivation the buyer's active rows claim what they did plus what the lapsed and released rows claimed |
| Ledger.SoleReservationCounts | crates/service/src/bitcoin_review.rs:1224-1242 | for a buyer with a single reservation of the listing, the count and the claimed units by listing and buyer are those of that row |
| ReviewAccounting.AccountedByGaps | crates/service/migrations/0001_init.sql:7-29 | with the tables' checks, available + reserved + sold = total and reserved = held by orders and active reservations iff no listing has a gap; likewise remaining + held + paid = total for drops |
| ReviewAccounting.HeldAfter | crates/service/src/bitcoin_review.rs:1787-1860 | a transaction that reassigns an order's reservations changes what is held by the order's flag and by the rows moved, and nothing else |
| ReviewAccounting.SaleColumns | crates/service/src/handlers/payment.rs:253-519 | confirmation takes exactly the order's units out of the held columns of its listings and its drop, whatever stale order row it saw, and keeps the tables' checks |
| ReviewAccounting.ReleaseColumns | crates/service/src/handlers/cancellation.rs:500-566 | releasing a present hold takes exactly the order's units out of the held columns of its listings and its drop |
| ReviewAccounting.EndedHold | crates/service/src/bitcoin_review.rs:1787-1860 | a hold that ends moves each gap by the units of the reservations given up less the order's line |
| ReviewAccounting.TakeSucceeds | crates/service/src/bitcoin_review.rs:1249-1365 | a reacquisition succeeds iff the drop has the unit, exactly one lapsed or released reservation matches an auction order, and every line fits |
| ReviewAccounting.TakenHold | crates/service/src/bitcoin_review.rs:1249-1365 | a successful reacquisition opens no gap outside auctions, and for an auction order one of its line less the row it reactivated |
| ReviewAccounting.FailedTake | crates/service/src/bitcoin_review.rs:1249-1365 | a failed reacquisition leaves the drop's unit and the lines before the first that did not fit taken, or the reservations it reactivated active: exactly that much of a gap |
| ReviewAccounting.HeldOrderReleases | crates/service/src/bitcoin_review.rs:1787-1860 | with the books balanced, releasing a held order's lines cannot fail |
| ReviewAccounting.ExpiredHold | crates/service/src/expiry.rs:53-97 | expiring one reservation moves no gap of any listing or drop |
| ReviewAccounting.ActiveReservationReleases | crates/service/src/expiry.rs:53-97 | with the books balanced, the sweep's release of an active reservation cannot fail |
| ReviewInvariant.MovesKeepCore | crates/service/src/bitcoin_review.rs:952-1140 | one order's move keeps the invariant of all orders, payments and rows |
| ReviewSteps.EnterCommits | crates/service/src/workers.rs:2248-2398 | entering the seller window is a declared move that keeps the hold and decides nothing |
| ReviewSteps.ConfirmCommits | crates/service/src/bitcoin_review.rs:268-577 | a committed confirmation is the order's first decision, with one confirmation row and one resolve row, along declared edges |
| ReviewSteps.RouteCommits | crates/service/src/bitcoin_review.rs:1904-1982 | routing to manual review is a declared move that keeps the hold and decides nothing |
| ReviewSteps.AlertCommits | crates/service/src/bitcoin_review.rs:2015-2049 | alerting the seller moves no state, keeps the hold and decides nothing |
| ReviewSteps.SaleMoves | crates/service/src/handlers/payment.rs:253-519 | confirmation effects touch only this order and its reservations and leave the order paid or delivered without a hold |
| ReviewSteps.TakeMoves | crates/service/src/bitcoin_review.rs:1249-1365 | a reacquisition, finished or not, touches only this order and its reservations and changes no column of the order but its hold flag |
| ReviewSteps.CancelMoves | crates/service/src/bitcoin_review.rs:1787-1860 | cancelling a held order touches only this order and its reservations and clears its hold |
| ReviewSteps.PaidEffectsMove | crates/service/src/bitcoin_review.rs:1163-1220 | the paid outcome touches only this order and moves it along declared edges |
| ReviewSteps.RefundedEffectsMove | crates/service/src/bitcoin_review.rs:1689-1760 | the refunded outcome touches only this order and moves it along declared edges |
| ReviewSteps.AbandonedEffectsMove | crates/service/src/bitcoin_review.rs:1765-1781 | the abandoned outcome touches only this order and cancels it |
| ReviewSteps.ResolutionCommits | crates/service/src/bitcoin_review.rs:952-1140 | a committed resolution is the order's first decision, with one resolution row and one resolve row, and records the outcome on the payment |
| ReviewSteps.SweepWindowCommits | crates/service/src/workers.rs:2834-2955 | expiring one order's payment window is a declared move that releases only a lapsed hold |
| ReviewLate.RequireRefundMoves | crates/service/src/bitcoin_review.rs:1474-1555 | the refund-required shape moves payment and order along declared edges and touches nothing else's |
| ReviewLate.CompleteLateMoves | crates/service/src/bitcoin_review.rs:1557-1636 | completing a late order moves payment and order along declared edges and touches nothing else's |
| ReviewLate.LateCommits | crates/service/src/bitcoin_review.rs:1382-1467 | late money is one declared move that writes no decision row |
| ReviewTheorems.StepCommits | crates/service/src/bitcoin_review.rs:1004-1026 | every committed transaction about an order is one declared move of it |
| ReviewTheorems.SweepKeepsCore | crates/service/src/expiry.rs:34-97 | the reservation sweep, over any due rows in any order, keeps the invariant |
| ReviewTheorems.StepKeepsCore | crates/service/src/bitcoin_review.rs:1004-1026 | every action of every actor keeps the invariant and moves each order and payment along declared edges |
| ReviewTheorems.EvolvesAlways | crates/domain/src/state_machines.rs:208-627 | between any two points of any run each order and payment moved along a path of declared edges |
| ReviewTheorems.ConfirmedForGood | crates/service/src/bitcoin_review.rs:1557-1582 | in every run a confirmed payment stays confirmed and no paid order is un-paid |
| ReviewTheorems.ExactlyOneOutcome | crates/service/src/bitcoin_review.rs:399-439 | under every interleaving an order has at most one confirmation or resolution row, and exactly as many resolve rows |
| ReviewTheorems.ResolvedForGood | crates/service/src/bitcoin_review.rs:1647-1666 | once a resolution outcome is recorded no later step changes the payment |
| ReviewTheorems.AnswerIsRecorded | crates/service/src/bitcoin_review.rs:808-856 | an OK resolve answer is the resolution the payment then records, fresh or replayed |
| ReviewTheorems.AnswersAgree | crates/service/src/bitcoin_review.rs:808-856 | all OK resolve answers about an order in a run carry the same resolution |
| ReviewTheorems.AlertedOnce | crates/service/src/bitcoin_review.rs:2013-2027 | in every run a recorded seller alert never changes and its payment never enters review again |
| ReviewTheorems.ConfirmationStays | crates/service/src/bitcoin_review.rs:304-334 | in every run a recorded confirmation is found unchanged by every later confirm request of its order |
| ReviewBooks.OutcomeShifts | crates/service/src/bitcoin_review.rs:1163-1220 | each resolution outcome moves the gap of every listing and drop by exactly its leak |
| ReviewBooks.ConfirmShifts | crates/service/src/bitcoin_review.rs:268-577 | a confirmation moves the gap of every listing and drop by exactly its leak |
| ReviewBooks.LateShifts | crates/service/src/bitcoin_review.rs:1382-1467 | late money, completed, stamped or refunded, moves the gap of every listing and drop by exactly its leak |
| ReviewBooks.WindowShifts | crates/service/src/workers.rs:2834-2955 | expiring a payment window moves every gap by exactly what a legacy hold could not release |
| ReviewBooks.SweepShifts | crates/service/src/expiry.rs:53-97 | the reservation sweep moves no gap |
| ReviewBooks.StepShifts | crates/service/src/bitcoin_review.rs:1163-1365 | every committed transaction moves the gap of every listing and drop by its leak, a function of the tables before; a refused one by nothing |
| ReviewBooks.GapLedger | crates/service/src/bitcoin_review.rs:1163-1365 | over every run the gap of every listing and drop is what it was plus the sum of the leaks |
| ReviewLeaks.LeaksExactly | crates/service/src/bitcoin_review.rs:952-1140 | a transaction commits with a leak iff its guards admit it and its leak is not zero, both read off the tables before |
| ReviewLeaks.StepAccounts | crates/service/src/bitcoin_review.rs:1382-1467 | one step keeps available + reserved + sold = total and reserved = held for every listing iff it strands nothing |
| ReviewLeaks.StepAccountsDrops | crates/service/src/bitcoin_review.rs:1268-1303 | one step keeps remaining + held + paid = total for every drop iff it strands none of its units |
| ReviewLeaks.HoldAccounting | crates/service/src/bitcoin_review.rs:1163-1365 | in every run every listing is accounted for throughout iff no event strands stock |
| ReviewLeaks.AccountedBatchCommits | crates/service/src/workers.rs:2752-2795 | with every listing accounted for, a batch of payment-window expiries outside drops always commits and leaves every listing accounted for |
| ReviewLeaks.DropAccounting | crates/service/src/handlers/drops.rs:792-907 | in every run every drop is accounted for throughout iff no event strands a unit |
| ReviewLeaks.PlainRunsAccount | crates/service/src/bitcoin_review.rs:1382-1467 | with one reservation per auction order, runs whose late money is for one-line orders outside auctions keep the hold accounting throughout |
| ReviewLeaks.PlainRunsAccountDrops | crates/service/src/bitcoin_review.rs:1268-1303 | without drop-stamped auction reservations, runs whose late money is for orders without a drop keep the drop accounting throughout |
| ReviewLeaks.LateMoneyCanStrandStock | crates/service/src/bitcoin_review.rs:1448-1464 | concrete tables, a two-line order, on which late money commits and leaves a unit reserved for nobody |
| ReviewLeaks.LateMoneyCanReviveTwoRows | crates/service/src/bitcoin_review.rs:1304-1321 | concrete tables, two lapsed reservations of one buyer, on which late money commits two active ones over no reserved unit |
| ReviewLeaks.ConfirmationCanStrandStock | crates/service/src/handlers/payment.rs:253-519 | concrete tables, two active reservations of one buyer, on which a confirmation converts both and sells one |
| ReviewLeaks.LateMoneyCanLoseDropUnit | crates/service/src/bitcoin_review.rs:1268-1303 | concrete tables, a drop order whose listing is gone, on which late money commits, keeps every listing accounted for and loses the drop's unit |
| ReviewTheorems.EngagedBlocksDrain | crates/service/src/bitcoin_review.rs:154-165 | while an order awaits its seller or its review, condition seven is false for its stack |
| ReviewTheorems.SweepLeavesHold | crates/service/src/expiry.rs:34-46 | the reservation sweep cannot release the reservation of an order that awaits a decision |
| ReviewTheorems.HeldForOneStep | crates/service/src/bitcoin_review.rs:1904-1982 | any one action of any actor leaves an awaiting order held or decides it |
| ReviewTheorems.HeldUntilResolved | crates/service/src/bitcoin_review.rs:582-620 | in every run, from entry until a decision commits, the order's hold stays and its stack cannot drain |
| ReviewTheorems.StepRows | crates/service/src/bitcoin_review.rs:582-620 | a resolve row appears only from a state in which the order still blocked its stack |
| ReviewSales.ResolutionMatrix | crates/service/src/bitcoin_review.rs:952-1140 | what each outcome does to order, payment, sold stock and rows; a refund only for an observed amount within the cap |
| ReviewSales.ConfirmSells | crates/service/src/bitcoin_review.rs:268-577 | a confirmation pays the order, sells its units and writes its resolve row |
| ReviewSales.SalesConserved | crates/service/src/handlers/payment.rs:253-519 | in every run each listing's sold count grows by exactly the units of the orders that became paid |
| ReviewSales.ReviewIsNeverCompletedLate | crates/service/migrations/0023_shared_manual_resolution.sql:88-90 | whoever calls it, the late-money fork never confirms a payment in manual review |
| ReviewSales.OverLimitLateMoneyChangesNothing | crates/service/migrations/0010_drops.sql:70-77 | late money for a lapsed drop order whose buyer is at the limit changes nothing |
| ReviewTransactions.ReserveOrderLines | crates/service/src/bitcoin_review.rs:1323-1354 | the loop computes the specified reservation, stopping at the first failing line |
| ReviewTransactions.ReleaseOrderLines | crates/service/src/handlers/holds.rs:81-128 | the loop computes the specified release |
| ReviewTransactions.SellOrderLines | crates/service/src/handlers/payment.rs:253-519 | the loop computes the specified sale |
| ReviewTransactions.Store.ConfirmEffects | crates/service/src/handlers/payment.rs:253-519 | the confirmation effects, statement by statement |
| ReviewTransactions.Store.ReacquireHold | crates/service/src/bitcoin_review.rs:1249-1365 | drop, reservation, then lines, keeping what was taken when stock is gone and failing as a whole at the drop's limit per buyer |
| ReviewTransactions.RoutesMove | crates/service/src/bitcoin_review.rs:1904-1982 | routing a list of orders puts exactly those still awaiting with an unsettled payment in manual review and leaves every other order and payment as it was |
| ReviewTransactions.EarlyWindowsStay | crates/service/src/bitcoin_review.rs:1877-1886 | a routing pass leaves every order alone whose deadline has not come |
| ReviewTransactions.ConfirmedIsRecorded | crates/service/src/bitcoin_review.rs:304-334 | an OK confirm answer, fresh or replayed, is the confirmation recorded for the order |
| ReviewTransactions.Store.CommitConfirmation | crates/service/src/bitcoin_review.rs:370-577 | commits the specified confirmation or leaves the store unchanged with its refusal |
| ReviewTransactions.Store.ConfirmBitcoinPayment | crates/service/src/bitcoin_review.rs:268-577 | refuses others than the seller first, answers a stored confirmation as it stands, refuses a transaction or amount other than observed, and otherwise commits the specified confirmation or gives its refusal |
| ReviewTransactions.Store.RouteDueSellerConfirmationWindows | crates/service/src/bitcoin_review.rs:1872-1902 | the batch is the run of the routings of the first hundred listed orders whose deadline has passed, and counts those that committed |
| ReviewTransactions.Store.ResolveBitcoinPayment | crates/service/src/bitcoin_review.rs:686-915 | the answer is decided in order: scope, then a known key's row or conflict, then an existing resolution, then the committed resolution or its refusal; only a committed one changes the store |
| ReviewTransactions.Store.WatchManualReviews | crates/service/src/bitcoin_review.rs:1992-2098 | the pass is the run of the alerts and abandonments that are due, and counts those that committed of each |
| ReviewTransactions.SweepBatchIsRun | crates/service/src/workers.rs:2752-2795 | a batch of payment-window expiries that commits is the run of its orders' expiries |
| ReviewTransactions.Store.ExpireDuePaymentWindows | crates/service/src/workers.rs:2752-2795 | the batch expires all its due orders, passing over those no longer due, or changes nothing |
| ReviewTransactions.Store.ExpireDueReservations | crates/service/src/expiry.rs:26-121 | one sweep expires all its rows or none |
| ReviewTransactions.Store.ApplyLatePayment | crates/service/src/workers.rs:1818-1930 | refuses an awaiting order and a payment neither expired nor, on the Paykit rail, awaiting entitlement; otherwise commits the specified late-money step or leaves the store unchanged |
| BusinessDays.AddBusinessDays | crates/service/src/bitcoin_review.rs:135-145 | the deadline is the earliest day by which that many business days have passed |
| BusinessDays.PastDeadline | crates/service/src/bitcoin_review.rs:2015-2017 | the instant moved on by business days has come iff that many business days have passed whole |
| Breaker.StepKeeps | crates/service/src/address_search.rs:804-913 | admissions, successes, failures and dropped tickets keep the breaker invariant |
| Breaker.RunKeeps | crates/service/src/address_search.rs:531-613 | every run with a nondecreasing clock satisfies the invariant |
| Breaker.SingleProbe | crates/service/src/address_search.rs:586-613 | `probing` iff a live probe of this generation exists, never two; a current non-probe ticket means closed; half-open without a probe admits |
| Breaker.CooldownSchedule | crates/service/src/address_search.rs:531-577 | after n reopenings the next cooldown is min(10 * 2^n, 60), closed means fewer than 3 failures, the 429 clamp's bounds are ordered |
| Breaker.NoEarlyClose | crates/service/src/address_search.rs:852-913 | a cooldown in force is never shortened and only a probe admitted after it ended closes the breaker |
| Breaker.ClosesOnlyByProbe | crates/service/src/address_search.rs:852-869 | in every run whatever closes the breaker is the success of a probe admitted after the cooldown ended |
| Breaker.CooldownHolds | crates/service/src/address_search.rs:804-829 | from opening until the cooldown's end, over any run, no lookup is admitted |
| Breaker.CircuitBreaker.OpenUntilAtLeast | crates/service/src/address_search.rs:558-576 | opens or extends as specified and returns the seconds left |
| Breaker.CircuitBreaker.AdmitLookup | crates/service/src/address_search.rs:804-829 | a ticket iff the specification admits; a refusal changes nothing and gives the seconds left of the cooldown, at least one, or the probe's retry |
| Breaker.CircuitBreaker.SettleTicket | crates/service/src/address_search.rs:597-601 | frees the probe only if the breaker has not moved on |
| Breaker.CircuitBreaker.RecordSuccess | crates/service/src/address_search.rs:852-869 | the specified transition |
| Breaker.CircuitBreaker.RecordFailure | crates/service/src/address_search.rs:875-913 | the specified transition and Retry-After seconds |
| Limiter.RefillComposes | crates/service/src/address_search.rs:493-497 | refilling twice is refilling once |
| Limiter.TableStaysBounded | crates/service/src/address_search.rs:772-795 | the client table never exceeds 20000 entries |
| Limiter.RoomKeepsLevels | crates/service/src/address_search.rs:775-784 | evicting full buckets changes nobody's level, now or later |
| Limiter.AgreesWithUnbounded | crates/service/src/address_search.rs:772-795 | over every run each token decision is the one a table that never evicts makes |
| Limiter.GrantsArePaidFor | crates/service/src/address_search.rs:500-508 | over every run grants plus what is left are at most what was there plus what was earned |
| Limiter.WindowBound | crates/service/src/address_search.rs:772-795 | a client's grants in a window of length T are at most burst + rate * T across evictions |
| Limiter.WaitingPays | crates/service/src/address_search.rs:500-508 | waiting the returned seconds without a request of one's own gets a token, whatever others do, unless the bucket was evicted full and the table has no room |
| Limiter.ClientTable.Retain | crates/service/src/address_search.rs:777-780 | keeps exactly the buckets that are not full, refilled |
| Limiter.ClientTable.Admit | crates/service/src/address_search.rs:772-795 | the specified admission |
| AnswerCache.StoreKeeps | crates/service/src/address_search.rs:750-770 | the queue lists the map's keys once each, within capacity; other entries stay or the oldest goes |
| AnswerCache.HoldsLatest | crates/service/src/address_search.rs:750-770 | over every run the cache holds only latest entries and drops none before it is full |
| AnswerCache.HitIsLatest | crates/service/src/address_search.rs:741-748 | a hit is the latest stored answer, unexpired; without eviction of the key, exactly then |
| AnswerCache.Answers.Store | crates/service/src/address_search.rs:750-770 | insert, queue and the eviction loop compute the specified cache |
| CommandFlights.StepKeeps | crates/service/src/command_flight.rs:38-76 | enter, acquire, release and leave keep the flight invariant |
| CommandFlights.SingleFlight | crates/service/src/command_flight.rs:38-76 | for every interleaving entrants of a key share a gate, at most one holds it, the count is exact and positive, and no key outlives its entrants |
| CommandFlights.OnlyTheSameKeyBlocks | crates/service/src/command_flight.rs:39-57 | a waiter gets its gate unless an entrant of the same key holds it |
| CommandFlights.FlightTable.Enter | crates/service/src/command_flight.rs:39-57 | takes a place, creating the slot if it is missing |
| CommandFlights.FlightTable.Leave | crates/service/src/command_flight.rs:66-75 | gives the place up and removes an empty slot |
| SearchFlights.StepKeeps | crates/service/src/address_search.rs:634-658 | pointer and map steps keep the flight invariant |
| SearchFlights.SingleFlight | crates/service/src/address_search.rs:917-994 | the same guarantees when emptiness is judged by the reference count |
| Executor.UnsealSeal | crates/service/src/executor.rs:757-808 | opening a sealed prepare result gives it back iff it had no sealed field of its own |
| Executor.RedactOrdersRemoves | crates/service/src/model.rs:1144-1152 | redaction removes the address from every order and nothing else, and is refused iff an order is not an object |
| Executor.RedactIsStable | crates/service/src/model.rs:1144-1152 | redacting twice is redacting once |
| Executor.RedactCommandResult | crates/service/src/model.rs:1144-1152 | the loop computes the specified redaction |
| Executor.AnswersAgree | crates/service/src/executor.rs:278-393 | a stored row answers as the accepted command would: its body, redacted for checkout, or a conflict |
| Executor.StepKeepsExclusive | crates/service/src/executor.rs:98-119 | transactions on one key exclude each other, and one that found no row still has none |
| Executor.RefinesAtomicStore | crates/service/src/executor.rs:62-221 | in every run every event settles a submission with the atomic store's answer or is invisible; refusals change nothing |
| Executor.OneEffect | crates/service/src/executor.rs:122-221 | for any interleaving a key has at most one committed effect, exactly one if it has a row |
| Executor.RowsStay | crates/service/src/executor.rs:258-274 | a stored row never changes |
| Executor.UnlockedLookIsFinal | crates/service/src/executor.rs:62-92 | the unlocked look answers what a locked look at any later moment would |
| Executor.CommandTable.Execute | crates/service/src/executor.rs:24-221 | one submission answers and stores as the atomic store |
| Reseal.Rotation.WriteResealed | crates/service/src/digital.rs:408-437 | writes iff the row is still the one read, keeping its plaintext, and leaves it under the current key either way |
| Reseal.Rotation.ResealRow | crates/service/src/digital.rs:500-526 | one row with writers in between: re-sealed, skipped or counted unopenable |
| Reseal.Rotation.ResealPage | crates/service/src/digital.rs:484-527 | a page of rows read together; with no other writer none is skipped |
| Reseal.Rotation.ResealNextPage | crates/service/src/digital.rs:484-497 | paging by id settles every row up to the page's end, also rows that appeared meanwhile |
| Reseal.Rotation.ResealFamily | crates/service/src/digital.rs:482-528 | terminates and leaves no row of the family under the previous key |
| Reseal.Rotation.ResealFamilies | crates/service/src/digital.rs:482-528 | the three families, with exact counts when nobody else writes |
| Reseal.Rotation.CountFamily | crates/service/src/digital.rs:537-560 | finds at most the stragglers there were, exactly those when nobody else writes |
| Reseal.Rotation.CountRemaining | crates/service/src/digital.rs:537-560 | the measured remainder never exceeds the stragglers at its start |
| Reseal.Rotation.ResealPass | crates/service/src/digital.rs:476-535 | whatever others write, every plaintext stays its latest writer's and no row is left under the previous key; on success all rows are under the current key and the remainder is zero; failure means some row opened under neither key |
| Webhooks.PageIs | crates/service/src/automation.rs:1204-1218 | a page is in order of sequence and holds exactly the seller's retained events past the cursor, up to its last row or all of them, whatever order they appeared in |
| Webhooks.PassKeepsBooks | crates/service/src/automation.rs:1171-1254 | a pass enqueues no key twice, none outside its endpoint's range and none of an event not yet seen |
| Webhooks.CursorsNeverGoBack | crates/service/src/automation.rs:1236-1253 | over every run no cursor goes back |
| Webhooks.PendingStaysCapped | crates/service/src/automation.rs:1184-1203 | over every run a seller's pending deliveries over all endpoints stay within the cap |
| Webhooks.StepCatches | crates/service/src/automation.rs:1167-1256 | any step keeps "everything owed was enqueued once" iff it makes no retained event of a live endpoint's seller visible between the endpoint's start and its cursor after the step |
| Webhooks.LateEventIsLost | crates/service/src/automation.rs:1240-1244 | a concrete run in which an event between the two reads of a pass is never enqueued |
| Webhooks.EventOutOfOrderIsLost | crates/service/src/executor.rs:811-835 | a concrete run in which sequence 6 commits before 5 with a snapshot pass in between, and 5 is never enqueued |
| Webhooks.EnqueuedExactlyOnce | crates/service/src/automation.rs:1156-1258 | at every point of a run each retained event past the start cursor and up to the cursor was enqueued exactly once per live endpoint, iff no action of the run overtakes an event; nothing is ever enqueued twice |
| Webhooks.OrderlyRunsCatchAll | crates/service/src/automation.rs:1156-1258 | snapshot passes over a log that appears in order of sequence enqueue each such event exactly once |
| Webhooks.ShortPageCatchesUp | crates/service/src/automation.rs:1236-1245 | a short page brings the cursor past everything seen by its second read, and overtakes what came in between |
| Webhooks.Outbox.EnqueuePass | crates/service/src/automation.rs:1167-1256 | the transaction's statements and insert loop compute the specified pass |
| Paging.NextPage | crates/service/src/automation.rs:262-285 | what a page's cursor leaves is exactly the rest of the order |
| Paging.WalkFrom | crates/service/src/automation.rs:165-208 | from any position the walk gives the rest of the order iff all its page boundaries are acceptable |
| Paging.WalkIsComplete | crates/service/src/automation.rs:232-285 | for every table and limit the walk terminates and concatenates to the seller's live listings in order, none missing or repeated, iff all page boundaries are acceptable |
| Paging.OrdinaryIdsWalk | crates/service/src/automation.rs:201-208 | ids of at most 256 bytes without control characters never stop a walk |
| Sessions.CreatedOnFirstUse | crates/service/src/auth.rs:241-307 | with enough retention a session is created iff the token is acceptable, the transaction goes through and the token was never accepted before: pruning is invisible |
| Sessions.SingleUseExactly | crates/service/src/auth.rs:149-152 | over all runs tokens are single-use iff the retention is at least twice the reach: the smaller of the two windows where the clocks agree, the service's own where they may differ |
| Sessions.ShortRetentionRepeats | crates/service/src/auth.rs:262-272 | a run that accepts a token twice under any shorter retention, also with agreeing clocks |
| Sessions.TokensAreSingleUse | crates/service/src/auth.rs:265-272 | the service's retention is enough for every configured window, and the least that is iff the window is at least the library's and the clocks may differ, or equals it |
| Sessions.TokenUses.CreateSession | crates/service/src/auth.rs:241-358 | window check, prune, insert and rollback compute the specified step |
| Decimals.CompareIsByValue | crates/service/src/fx.rs:65-70 | a comparison, when both sides widen, is by the numbers written |
| Decimals.InBoundsExactly | crates/service/src/fx.rs:72-86 | in bounds iff between 10000 and 1000000 inclusive, as far as the limits fit at the rate's scale |
| Decimals.ParsePrint | crates/service/src/fx.rs:35-96 | a printed value reads back iff it has at most 8 fraction digits and, if whole, at most 38 digits |
| ReferenceRate.FallbackIsNeverTaken | crates/service/src/fx.rs:57-70 | between values that widen to a common scale the comparison exists and is by value |
| ReferenceRate.SortedIs | crates/service/src/fx.rs:164-176 | the sort is an ascending permutation |
| ReferenceRate.MedianExists | crates/service/src/fx.rs:164-173 | there is a reference iff there are three samples and all widen to the widest scale |
| ReferenceRate.MedianOfPermutation | crates/service/src/fx.rs:164-176 | existence and value of the reference do not depend on the samples' order |
| ReferenceRate.MajorityBoundsMedian | crates/service/src/fx.rs:164-176 | a strict majority of samples in [a, b] puts the reference in [a, b] |
| ReferenceRate.InsertRate | crates/service/src/fx.rs:174 | one stable insertion |
| ReferenceRate.ComputeMedian | crates/service/src/fx.rs:164-176 | the widening check, the sort and the pick compute the specified median |
| Quotes.QuoteCovers | crates/service/src/fx.rs:195-226 | an accepted amount is the least whole number of satoshis covering the total, within the limits |
| Quotes.NoOverflow | crates/service/src/fx.rs:197-226 | for in-bounds rates, nonnegative totals and exponents 0 to 18 nothing overflows and the exact ceiling decides |
| Quotes.AntitoneInRate | crates/service/src/fx.rs:195-226 | a higher rate never takes more satoshis |
| Quotes.MonotoneInTotal | crates/service/src/fx.rs:195-226 | a larger total never takes fewer |
| Quotes.DependsOnValueOnly | crates/service/src/fx.rs:197-226 | the answer depends on the rate's value, not on how it is written |
| Quotes.WithinFivePercent | crates/service/src/fx.rs:178-193 | the gate passes exactly the rates from 0.95 to 1.05 times the reference among those it can compute with |
| Quotes.AcceptedQuote | crates/service/src/fx.rs:232-263 | an accepted dollar quote is the exact ceiling at an in-bounds rate and lies between the ceilings at 1.05 and 0.95 times the reference |
| Quotes.QuoteUsdNeverOverflows | crates/service/src/fx.rs:232-263 | a dollar quote never fails for want of width |
| Quotes.MajorityBoundsQuote | crates/service/src/fx.rs:232-263 | while most samples lie in [lo, hi] an accepted quote lies between the ceilings at 1.05 hi and 0.95 lo |
| Pubky.NextDigit | crates/domain/src/pubky.rs:16-22 | the digit taken from the 64-bit accumulator is right although its high bits fell off |
| Pubky.EncodePubky | crates/domain/src/pubky.rs:10-26 | the loops compute the base-32 numeral of the key times sixteen |
| Pubky.ReadText | crates/service/src/attestor.rs:393-406 | the loop gives all whole bytes of the text, the first 32 being the first 52 digits over sixteen, or nothing if a character is not in the alphabet |
| Pubky.DecodePubky | crates/service/src/attestor.rs:393-409 | the decoder computes the first 52 digits over sixteen as 32 bytes, or nothing |
| Pubky.EncodedIs | crates/domain/src/pubky.rs:5-26 | the text is a valid 52-character pubky and, read in base 32, the 256-bit key times sixteen |
| Pubky.DecodeEncode | crates/service/src/attestor.rs:393-409 | decoding undoes encoding for every 32-byte key |
| Pubky.EncodingIsInjective | crates/domain/src/pubky.rs:10-26 | different keys have different texts |
| Pubky.DecodesExactly | crates/service/src/attestor.rs:393-409 | a text decodes iff it has at least 52 characters, all in the alphabet |
| Pubky.EncodeDecode | crates/service/src/attestor.rs:393-409 | encoding undoes decoding iff the text has 52 characters and the last one's four low bits are zero |

## Left out

- HTTP routing, JSON envelopes, logging, notifications, refusal audit, startup and migrations: input and output without a deep property.
- Photon, homeserver, Paykit and Stripe clients and webhook sending: network calls; their outcomes are parameters.
- Cryptography: sealing is ideal (a seal opens exactly under its key and associated data), request hashes tell inputs apart.
- Command payload validation, postal rules, configuration parsing, contract snapshots: settled branch by branch.
- Checkout, `inventory.reserve`, offers, auctions, buyer and seller cancellation and the pollers are not actions, although some of them write the same rows; the rows they create are arbitrary at the start of a run.
- Money of a wrong amount, which a poller puts in manual review itself, and money on a released Paykit attempt, which first rebinds the order to that attempt (paykit_attempts.rs:396-436): late money keeps the order's pins.
- Revision columns and event rows of the review tables: they do not take part in any hold or decision.
- Drop time transitions: a drop is its total, remaining and paid units and its buyers' counts and limits.
- The reservation table has no edge from expired or released to active, which `reacquire_hold` takes; conformance to the declared machines is claimed for payments and orders only.
- ReviewLeaks.HoldAccounting: it is the exact condition and not the plain law, which is false for late money on multi-line and auction orders and for buyers with several reservations of an auction listing.
- ReviewLeaks.DropAccounting: it is the exact condition and not the plain law, which is false for late money on drop orders; a drop order is for one unit and an auction order is one line of its listing and no drop's, as checkout.rs:75-101 and auction.rs create them.
- The 24-hour and seven-day conditions of routing and abandoning are in the batch methods; the theorems about runs allow both at any time, which is more behaviours, not fewer.
- The reservation sweep may take any due rows in any order: row locks skipped by other transactions are not tracked.
- Breaker generations do not wrap; clocks of the breaker, limiter, tokens and webhooks do not go back.
- Limiter: token counts are reals; 64-bit rounding is not modelled. The shared upstream bucket uses the same refill and is left out, as are the per-seller automation rate limits.
- SearchFlights is on values: the reference counts and the map are one state, since the counts live outside the map's lock.
- The executor's advisory lock is any function of the key, so hash collisions only serialise more; a lost commit confirmation is modelled, a retried one is a new submission.
- Executor.RefinesAtomicStore: prepare handlers are taken to answer without a sealed field of their own, as they do; `Executor.UnsealSeal` says what happens otherwise.
- The boot probe of sealed rows samples both ends of each family; sampling has no for-all claim to prove.
- Webhooks: delivery retries and dead letters appear only as closing a row.
- Paging: the cursor's base-64 and JSON text is any encoding that round-trips; the table does not change during a walk.
- Sessions: seconds and microseconds are unbounded integers; session lookup, revocation and capabilities are left out.
- Fetching the feed and storing samples: the feed is a parameter, the samples are texts.
