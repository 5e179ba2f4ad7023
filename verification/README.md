# A shop server's concurrent state machines

The server keeps its state in table rows that many requests and workers change at the same
time. It protects them with explicit claims: compare-and-set updates, leases, attempt numbers
used as fences, sentinels, unique indexes and ledger guards. This project models those
machines and proves what they keep over every run.

| file | machine |
|---|---|
| `Outbox.dfy` | outbox events: claim, lease renewal, crash, recovery, fenced final writes |
| `Courier.dfy`, `Dispatch.dfy` | courier answers; the consignment handler with its sentinel, run by the outbox workers, with a provider that may act late |
| `Redispatch.dfy` | when an admin's CLEAR_AND_RETRY or CANCEL_DISPATCH makes a second shipment possible |
| `UserCache.dfy` | the user cache with its generation and tombstone guards |
| `Throttle.dfy` | the rate-limit script |
| `Pricing.dfy` | checkout money, in exact reals and integer cents |
| `Locking.dfy` | the row locks of concurrent checkouts |
| `Tables.dfy`, `Shop.dfy`, `OrderRules.dfy`, `RefundRules.dfy` | the order books: checkout, cancellation, payment callbacks, refunds, their outbox events; and when each step applies and what it writes, row by row |
| `StockBooks.dfy`, `PromoBooks.dfy`, `PointBooks.dfy`, `PaymentBooks.dfy`, `KeyBooks.dfy` | what the order books keep over every run |
| `ReturnRows.dfy`, `Reopening.dfy`, `Returns.dfy` | stock returns: their ledger rows, what a late rejection reopens, and when an order gives its stock back only once |
| `Gateway.dfy`, `RefundDesk.dfy`, `RefundCalls.dfy`, `RefundProof.dfy` | refunds: how the gateway's replies are read, one active refund per order, how often the gateway is asked, and what proof an online settlement rests on |
| `Witnesses.dfy` | runs showing that no condition of those results can be dropped |
| `ShopDb.dfy` | the order books updated in place, each transaction proved to have its step's effect |

A run is any sequence of steps of any number of requests. A transaction that locks the rows it
decides on is one step. Each read made outside a transaction is a step of its own, whose
result the request carries along, and each call to an outside service has its own steps with
an arbitrary answer. Row locks, unique indexes, foreign keys and rollback are taken as given.
Clocks, random values and answers of outside services are parameters. Fields of rows marked
"history" record what has happened and are read by no statement.

Classes hold the same rows as mutable fields; their methods follow the source's statements and
loops, and are proved equal to the step functions that the run theorems speak of.

## Where the code falls short of its own promises

- `createConsignment` lists HTTP 429 among its ambiguous answers
  (server/src/modules/courier/courier.service.ts:117-118), but treats a parsed 429 as a
  rejection, which releases the dispatch claim. `Courier.RejectionIsDefinitive` states what the
  code does; the shipment claim takes a rejection at its word.
- CLEAR_AND_RETRY and CANCEL_DISPATCH give the dispatch claim back without looking at workers: they
  test neither the event's lease nor whether a worker stands between its claim and its release
  (server/src/modules/courier/courier.service.ts:772-819, 849-866). Even with evidence that is
  true, when the provider has nothing and no call is in flight, a stalled worker and the worker of
  the re-queued event then both call the provider (`Redispatch.StalledClaimWitness`).
  `Redispatch.RedispatchIff` gives the exact condition, `Redispatch.ClosedRedispatchIff` the one
  for an order that stays cancelled or refunded.
- A stale worker's final write changes nothing, except for an event type without a handler:
  there `markFailed` is called without an attempt number.
  `Outbox.StaleWriteChangesNothing` gives the exact condition.
- `createConsignment` and `getConsignmentByInvoice` look for the tracking code in different
  fields (server/src/modules/courier/courier.service.ts:139-171, 226-250), so one reply can be
  accepted by the first and have no code for the second. `Courier.IdsAgreeIff` says when they
  agree.
- Stock can come back twice in two ways. A success callback for an uncompleted online payment
  of an order already refunded sets the order to `processing` again
  (server/src/modules/payments/payments.service.ts:661-668), and a cancellation then returns its
  stock a second time. A `rejected` written over the refund the goods came back with, by an
  inquiry or a gateway answer sent before the settlement, or by an admin after such an inquiry
  put the refund back in process, frees the order for another refund
  (server/src/modules/refunds/refunds.service.ts:609-614); that refund returns the stock again
  if and only if a request in flight still registers one, or another refund of the order has a
  reference to reconcile or an answer on the way. `Returns.OnceIffNeverHarmful` shows that these
  two steps are the only obstacle: stock comes back at most once on every continuation if and
  only if no continuation takes one of them.
- The first of these also uncounts a promo twice when the order had been cancelled before
  (`PromoBooks.RevivalUncountsIff`). A run miscounts if and only if it cancels an order a second
  time while its promo has a use left (`PromoBooks.CountedIffNeverRecancels`).
- A success callback sets every order that is not cancelled to `processing`, shipped and delivered
  ones too (server/src/modules/payments/payments.service.ts:661-668), after which it can be
  cancelled and its goods return to saleable stock. `OrderRules.CancelAfterSuccessIff` says exactly
  when.
- An approval that commits after a refund was claimed for the gateway
  (server/src/modules/refunds/refunds.service.ts:188-229) lets the gateway be asked a second time
  if and only if the refund and the approval have no reference, or a request in flight saw none
  (`RefundCalls.LateApprovalAsksAgainIff`).
- An approval that commits after the gateway's own reference was recorded takes the refund out of
  `processing`, which is what the settlement's guard tests
  (server/src/modules/refunds/refunds.service.ts:188-229, 397-405). A plain payout request then
  settles the online refund, though no inquiry said "refunded" and no admin gave a reference.
- A payout counts as online only if its unlocked read sees the payment `completed`
  (server/src/modules/refunds/refunds.service.ts:231-258). An online payment that is pending,
  failed or refunded then takes the branch for cash and is settled on the admin's notes alone. A
  refund can name such a payment: when the success of an abandoned attempt pays an order whose
  retry is pending, cancellation fails the retry, and the refund is registered for the latest
  payment (server/src/modules/orders/outbox.processor.ts:593-602). Order and retry end `refunded`,
  the attempt that took the money stays `completed`, and the gateway is never asked.
  `RefundProof.UnprovenSettlementIff` shows that this read and that approval are exactly the steps
  that make a settlement without proof possible; `RefundProof.UninterruptedPayoutIff` gives the
  condition a caller can check before the payout.

`Witnesses` reaches each of these states of the order books from an empty shop.

## Model

| member | source | states |
|---|---|---|
| Outbox.InvStep | server/src/modules/orders/outbox.processor.ts:57-267 | every statement keeps: attempts at most three, a pending row has attempts left, no two jobs share event and attempt number, only the last claimant completes |
| Outbox.AtMostThreeEntries | server/src/modules/orders/outbox.processor.ts:99-115 | over every run, at most one worker enters an event's handler per attempt number, and at most three entries happen |
| Outbox.StaleWriteChangesNothing | server/src/modules/orders/outbox.processor.ts:199-267 | once a newer claim exists, an older worker's final write -- completed, failed, retried, or after an error of the renewal or of the write itself -- leaves the row's status and attempts alone if and only if it is not the unfenced write for a missing handler, or the event has failed already; a fenced write leaves the whole row |
| Outbox.EndingDecides | server/src/modules/orders/outbox.processor.ts:199-267 | a job that owns its event completes it on success, fails it at once on a non-retryable error or without a handler, and on an ordinary error leaves it pending and claimable, attempts unchanged, if and only if attempts are left |
| Outbox.ExpiredEndingDecides | server/src/modules/orders/outbox.processor.ts:199-267 | after its lease was taken but not claimed anew, success and final failure still count, an ordinary error changes nothing |
| Outbox.RecoveryDecides | server/src/modules/orders/outbox.processor.ts:57-79 | exactly events in process for more than five minutes are recovered, to pending while fewer than three attempts were made, else to failed |
| Outbox.RenewalDecides | server/src/modules/orders/outbox.processor.ts:162-179 | a worker enters the handler if and only if the event is in process under its own attempt number |
| Outbox.ThreeTriesBeforeFailed | server/src/modules/orders/outbox.processor.ts:249-264 | over every run in which an event's workers end in ordinary errors, none crashing or stranded, it stays pending and claimable until its handler has been entered three times, and has failed exactly then |
| Outbox.UnfencedWriteWitness | server/src/modules/orders/outbox.processor.ts:203-207 | a run in which the unfenced write of an older worker fails the event under its newer owner |
| Outbox.PendingIsClaimable | server/src/modules/orders/outbox.processor.ts:99-115 | in every reachable state a pending event can be claimed again |
| Outbox.StepLowersPotential | server/src/modules/orders/outbox.processor.ts:57-79 | every change of status lowers (attempts left, status rank), without one attempts stay, and completed is never left |
| Outbox.BoundedStatusChanges | server/src/modules/orders/outbox.processor.ts:209-265 | over every run an event changes status at most seven times, and completed is absorbing |
| Outbox.SevenIsAttained | server/src/modules/orders/outbox.processor.ts:57-79 | for every kind of event with a handler, a run from its insertion has seven changes: three claims, three expiries and a late success |
| Outbox.OutboxTable.RecoverStrandedEvents | server/src/modules/orders/outbox.processor.ts:57-79 | exactly the expired leases go back to pending or to failed, and the result counts them |
| Outbox.OutboxTable.ClaimBatch | server/src/modules/orders/outbox.processor.ts:99-115 | the batch is the oldest claimable rows nobody has locked, at most ten, and a short batch leaves none |
| Outbox.OutboxTable.RenewLease | server/src/modules/orders/outbox.processor.ts:162-179 | succeeds exactly when row and attempt still belong to the worker |
| Outbox.OutboxTable.MarkFailed | server/src/modules/orders/outbox.processor.ts:462-479 | fails the row unless a newer attempt exists; without an attempt number, always |
| Outbox.OutboxTable.ProcessEvent | server/src/modules/orders/outbox.processor.ts:152-268 | uninterrupted, an owned row ends completed, pending or failed as outcome and attempts left say, attempts unchanged; one not owned, and every other row, stays |
| Outbox.OutboxTable.ProcessClaimed | server/src/modules/orders/outbox.processor.ts:124-147 | every claimed event ends as its handler decided, the counters add up to the claim |
| Outbox.OutboxTable.ProcessOutbox | server/src/modules/orders/outbox.processor.ts:82-150 | one whole tick: recovery, claim and endings, with exact counts, all other rows untouched |
| Courier.RejectionIsDefinitive | server/src/modules/courier/courier.service.ts:117-176 | exactly which replies to a create call count as a rejection: a body of JSON `null` does not, a parsed 429 does |
| Courier.CreationDecides | server/src/modules/courier/courier.service.ts:117-176 | exactly which replies are accepted, and with which id, and which leave the outcome unknown |
| Courier.InquiryDecides | server/src/modules/courier/courier.service.ts:213-272 | exactly which replies mean not found, found under which id, existing without an id, or nothing at all: an HTTP error other than 404 is never an absence |
| Courier.ExistenceIsNeverAbsence | server/src/modules/courier/courier.service.ts:193-272 | a reply that reports success is never a rejection to the create call, and not "not found" to the inquiry exactly when it names a delivery status or data |
| Courier.IdsAgreeIff | server/src/modules/courier/courier.service.ts:139-171 | exactly when the two calls read the same id from one reply; a reply of the documented create form is accepted by one and has no id for the other |
| Dispatch.AtMostOneShipment | server/src/modules/orders/outbox.processor.ts:270-460 | over every run of events, workers, crashes, expiries, ambiguous answers, late provider actions and admin steps in which no admin gives the sentinel back while a call that may have succeeded or a claim holder is there, at most one call per order has created or can still create a shipment |
| Dispatch.CallsFollowClaims | server/src/modules/orders/outbox.processor.ts:351-436 | a create call is made only by the winner of the compare-and-set with no other live call, and only a definitive rejection, CLEAR_AND_RETRY or CANCEL_DISPATCH gives the sentinel back |
| Dispatch.InvStep | server/src/modules/courier/courier.service.ts:706-895 | every step, admin steps included unless they are unsafe, keeps one live call and one claim holder per order |
| Dispatch.RefinesOutbox | server/src/modules/orders/outbox.processor.ts:152-268 | without admin steps the dispatch runs are runs of the lease protocol |
| Dispatch.DispatchIsFenced | server/src/modules/orders/outbox.processor.ts:162-179 | so consignment events have at most three handler entries and are always claimable while pending |
| Dispatch.UninterruptedHandler | server/src/modules/orders/outbox.processor.ts:270-460 | the handler's steps taken in a row give the sentinel, number of calls and outcome of one decision table |
| Dispatch.HandlerDecides | server/src/modules/orders/outbox.processor.ts:270-460 | the decision table in the provider's replies: when nothing is done, when a retry waits, links or gives up, when the one call is made, and what each answer leaves |
| Dispatch.AdminDecides | server/src/modules/courier/courier.service.ts:659-895 | when ADOPT_CONSIGNMENT, CLEAR_AND_RETRY and CANCEL_DISPATCH act, and what they write |
| Dispatch.OrderRows.ClaimDispatchSlot | server/src/modules/orders/outbox.processor.ts:351-377 | the compare-and-set succeeds exactly on a null sentinel |
| Dispatch.OrderRows.HandleCreateConsignment | server/src/modules/orders/outbox.processor.ts:270-460 | the handler's code has the effect of that decision table; a retry whose inquiry got no answer or an HTTP error other than 404 defers with no call and the sentinel as it was |
| Redispatch.RedispatchIff | server/src/modules/courier/courier.service.ts:772-866 | after CLEAR_AND_RETRY or CANCEL_DISPATCH a second live call for the order is reachable if and only if the order had no id and a live call or a worker that holds the claim |
| Redispatch.ClosedRedispatchIff | server/src/modules/courier/courier.service.ts:772-866 | on a cancelled or refunded order that stays so, if and only if besides that two calls are live or left to workers past their read of the order |
| Redispatch.StalledClaimWitness | server/src/modules/courier/courier.service.ts:772-819 | a run to a stalled claim holder, with no call ever made, after which CLEAR_AND_RETRY leads to two live calls |
| UserCache.CacheRoundTrip | server/src/modules/users/users.store.ts:62-96 | a cached user equals its row if and only if the row has none of the dropped fields; the kept fields always survive |
| UserCache.PopulateDecides | server/src/modules/users/users.store.ts:125-203 | a reader fills the cache if and only if the generation it read still stands, or, without one, it took at most ten seconds and no tombstone is as late as its start |
| UserCache.CacheReflectsFinishedWrites | server/src/modules/users/users.store.ts:205-250 | a cached user is never older than a write whose invalidation has ended |
| UserCache.CacheEqualsRow | server/src/modules/users/users.store.ts:125-303 | over every run, with no write in progress the cached user, if present, is the current row, under either guard |
| UserCache.InvStep | server/src/modules/users/users.store.ts:16-33 | what each reader in flight knows stays true under every step |
| UserCache.UsersStore.SafeSetUserCache | server/src/modules/users/users.store.ts:125-203 | stores exactly when the generation matches or the fetch is recent and newer than the tombstone |
| UserCache.UsersStore.InvalidateUserCache | server/src/modules/users/users.store.ts:205-250 | generation one higher, tombstone now, cached value gone |
| UserCache.UsersStore.FindById | server/src/modules/users/users.store.ts:256-303 | answers with the row, or on a hit with what the cache keeps of it, and fills the cache unless a guard refuses |
| UserCache.UsersStore.Update | server/src/modules/users/users.store.ts:337-348 | writes the row if it exists and leaves no cached value |
| UserCache.UsersStore.Delete | server/src/modules/users/users.store.ts:350-353 | removes the row and the cached value |
| Throttle.UnblockedAnswersAreSpaced | server/src/cache/throttler-storage-redis.service.ts:56-92 | of any 2 * limit consecutive unblocked answers the first and last are a ttl apart |
| Throttle.FewerThanTwiceTheLimit | server/src/cache/throttler-storage-redis.service.ts:56-92 | any stretch of one ttl holds at most 2 * limit - 1 unblocked answers, for every request sequence |
| Throttle.TheBoundIsTight | server/src/cache/throttler-storage-redis.service.ts:56-92 | some request sequence has that many unblocked answers in one ttl if and only if the ttl is at least three milliseconds or the limit is one |
| Throttle.HitDecides | server/src/cache/throttler-storage-redis.service.ts:56-92 | when a request is blocked, and the window and block it leaves |
| Throttle.LimitIsExact | server/src/cache/throttler-storage-redis.service.ts:56-92 | within one ttl of the first request the first `limit` answers pass and the next is blocked |
| Throttle.BlockLastsExactly | server/src/cache/throttler-storage-redis.service.ts:70-92 | after a fresh block every answer before its full duration is blocked, and a first request at its very end passes |
| Throttle.BlockHolds | server/src/cache/throttler-storage-redis.service.ts:70-92 | after a blocked answer all answers before the block's expiry are blocked and the expiry does not move |
| Throttle.BlockedLeavesBlock | server/src/cache/throttler-storage-redis.service.ts:70-92 | an answer is blocked if and only if a block with the announced expiry, later than now, is left |
| Throttle.ThrottleKey.RunScript | server/src/cache/throttler-storage-redis.service.ts:56-92 | the script's commands have the effect of the case analysis the bounds are proved for |
| Throttle.ThrottleKey.Increment | server/src/cache/throttler-storage-redis.service.ts:108-182 | the same answer with times rounded up to seconds, never below one where the window counts |
| Pricing.DiscountWithinSubtotal | server/src/modules/promos/promos.service.ts:171-184 | a promo discount lies between zero and the subtotal, and is all of it from 100 percent |
| Pricing.DiscountIs | server/src/modules/promos/promos.service.ts:171-184 | the discount is the percentage of the subtotal, or the fixed amount, to the nearest cent and up to the subtotal |
| Pricing.ValidationDecides | server/src/modules/promos/promos.service.ts:140-184 | for which reason, the first that applies, a promo is refused |
| Pricing.SubtotalIs | server/src/modules/orders/orders.service.ts:163-169 | each line adds its variant's price, or else its product's, times its quantity, wherever it stands |
| Pricing.QuoteIs | server/src/modules/orders/orders.service.ts:163-209 | total and discount are what is due and what is taken off, each to the nearest cent |
| Pricing.PointsAreFair | server/src/modules/orders/orders.service.ts:184-205 | points charged never exceed the balance, are worth the discount they buy and less than one point more, and the discount never exceeds the amount due |
| Pricing.TotalsAddUp | server/src/modules/orders/orders.service.ts:163-209 | the total is never negative, and total plus discount is the subtotal, or one cent more exactly when the points pay an odd half cent |
| Pricing.RoundOpposite | server/src/modules/orders/orders.service.ts:208-209 | rounding a number and its negative cancels unless it ends in a half |
| Pricing.SumCart | server/src/modules/orders/orders.service.ts:163-169 | the running sum is the subtotal |
| Pricing.UsePoints | server/src/modules/orders/orders.service.ts:184-205 | the points block computes the fair points |
| Pricing.PriceCart | server/src/modules/orders/orders.service.ts:163-209 | the running totals end in the quote the laws are about, with the promo's error passed on |
| Locking.PlansAreInOrder | server/src/modules/orders/orders.service.ts:156-161 | every checkout's locks come in one global order |
| Locking.PlanLocks | server/src/modules/orders/orders.service.ts:276-358 | a checkout locks its user, its lines' stock rows, its promo and, spending points, its user's row, and nothing else |
| Locking.SortAscends | server/src/modules/orders/orders.service.ts:156-161 | the sort of the cart lines puts their stock rows in ascending order |
| Locking.NoDeadlock | server/src/modules/orders/orders.service.ts:276-298 | in every reachable state with an unfinished checkout, one can take its next lock or commit |
| Locking.AllCanCommit | server/src/modules/orders/orders.service.ts:276-358 | from every reachable state all checkouts can commit, with no rollback |
| Locking.UnsortedPlansDeadlock | server/src/modules/orders/orders.service.ts:156-161 | without the sort any two users with the same two lines in opposite orders come, by a run of checkouts, to a state in which neither can move |
| StockBooks.BooksBalance | server/src/modules/orders/orders.service.ts:276-335 | over every run, per product: stock plus quarantined returns is opening stock minus ledger `out` plus ledger `in`, and no row is negative |
| StockBooks.DeductEffect | server/src/modules/orders/orders.store.ts:264-308 | a successful deduction takes exactly the ordered quantities and leaves nothing negative |
| StockBooks.RestoreEffect | server/src/modules/orders/orders.store.ts:548-576 | restoring gives exactly the ordered quantities back |
| StockBooks.DeductIff | server/src/modules/orders/orders.store.ts:264-308 | deductions succeed if and only if every stock row has what all lines together ask of it, and take exactly that from each row |
| StockBooks.RestoreRows | server/src/modules/orders/orders.store.ts:548-576 | restoring gives each row exactly what the lines took |
| StockBooks.SoldEffect | server/src/modules/orders/orders.service.ts:318-335 | a sale's ledger rows take out exactly the quantities its lines order |
| StockBooks.BackEffect | server/src/modules/orders/orders.service.ts:671-680 | a cancellation's ledger rows bring exactly those quantities back |
| StockBooks.ReturnEffect | server/src/modules/refunds/refunds.service.ts:437-515 | a settlement's ledger rows change saleable stock by the order, or by nothing when damaged |
| StockBooks.SortContents | server/src/modules/orders/orders.service.ts:156-161 | sorting keeps the cart's lines |
| Returns.ReturnedAtMostOnce | server/src/modules/refunds/refunds.service.ts:423-515 | over every run without a harmful step the ledger has taken back from an order nothing, or each of its lines exactly once; harmful are only a callback that revives a refunded order whose goods are back, and a rejection that commits over the refund they came back with while another can open |
| ReturnRows.RestockedMeansReturns | server/src/modules/refunds/refunds.store.ts:298-324 | the guards answer yes exactly when the source has `in` rows |
| Returns.RevivingReturnsTwice | server/src/modules/payments/payments.service.ts:661-668 | from every state, a success callback that revives a refunded order whose goods are back, and a cancellation, return its stock exactly twice |
| Returns.RevivalReturnsAgainIff | server/src/modules/payments/payments.service.ts:604-668 | after a success callback and a cancellation more than the order has come back if and only if it was refunded with its goods back, the payment online and not completed |
| Returns.RejectionReturnsAgainIff | server/src/modules/refunds/refunds.service.ts:609-614 | once a refund whose goods are back is overwritten as rejected, some continuation without a revival returns the goods again if and only if a request or notice handler in flight registers another refund of the order, or another refund of it has a reference or awaits an answer |
| Returns.OnceIffNeverHarmful | server/src/modules/refunds/refunds.service.ts:423-515 | from every state the invariant holds in, stock comes back at most once on all continuations if and only if none takes a harmful step |
| PromoBooks.UsesAreLiveOrders | server/src/modules/orders/orders.store.ts:328-350 | a promo's uses are its orders never cancelled, over every run in which no success callback revives an order with a promo that was cancelled and then refunded |
| PromoBooks.RevivalUncountsTwice | server/src/modules/orders/orders.store.ts:578-592 | from every state, that callback and a cancellation take one use too many off |
| PromoBooks.RevivalUncountsIff | server/src/modules/payments/payments.service.ts:604-668 | after a success callback and a cancellation the uses are off if and only if the callback revived an order cancelled and then refunded, with a promo still in use |
| PromoBooks.CountedIffNeverRecancels | server/src/modules/orders/orders.store.ts:578-592 | over every run, all uses are right in each of its states if and only if no step cancels an order a second time while its promo has a use left |
| PromoBooks.CalmRunsNeverRecancel | server/src/modules/payments/payments.service.ts:661-668 | only a success callback that revives a cancelled and refunded order makes that second cancellation possible |
| PromoBooks.NeverOverTheMaximum | server/src/modules/orders/orders.store.ts:342-346 | uses never exceed the maximum, over every run |
| PointBooks.PointsAreSound | server/src/modules/loyalty/loyalty.service.ts:71-138 | over every run a user's rows sum to at least zero, the available balance lies between zero and that sum, a cancelled or settled order's rows sum to zero, and nothing comes back beyond what was spent |
| PointBooks.AvailableIsBetween | server/src/modules/loyalty/loyalty.store.ts:54-88 | the balance formula never leaves that range, expiry or not |
| PointBooks.AvailableIs | server/src/modules/loyalty/loyalty.store.ts:54-88 | the available balance is the user's unexpired positive points or all their points, whichever is less; points can be spent if and only if both cover them |
| PointBooks.ExpiredNeverCounts | server/src/modules/loyalty/loyalty.store.ts:67-83 | an expired row never raises the unexpired sum, nor does another user's |
| PointBooks.CheckoutCharges | server/src/modules/loyalty/loyalty.service.ts:71-108 | a placed order charges its points to its buyer alone, and only when unexpired points cover them |
| PointBooks.PointsComeBack | server/src/modules/orders/orders.service.ts:690-707 | an order's points go back to its user, once, never to expire |
| PointBooks.RewardAdds | server/src/modules/loyalty/loyalty.service.ts:13-69 | a review's first reward adds its points until they expire, a second none |
| PointBooks.OneRewardPerReview | server/src/database/schema/loyalty.ts:29-33 | over every run no review is rewarded twice |
| PointBooks.GivingBack | server/src/modules/orders/orders.service.ts:690-707 | the guarded refund levels the order and disturbs no other order or user |
| PaymentBooks.PaidIffCompleted | server/src/modules/payments/payments.service.ts:576-674 | over every run, an order no settlement has named is paid if and only if one of its payments is completed |
| PaymentBooks.CompletedIffConfirmed | server/src/modules/payments/payments.service.ts:689-751 | a payment ends completed if and only if it was, or a success callback for it is among the callbacks |
| PaymentBooks.OrderInsensitive | server/src/modules/payments/payments.service.ts:780-895 | any two runs of the same callbacks, in any order and multiplicity, agree on completed payments and paid orders, and which those are |
| OrderRules.PlacedIff | server/src/modules/orders/orders.service.ts:78-423 | a checkout places an order if and only if key, cart, stock rows, promo and unexpired points allow it, each written out; else it changes nothing |
| OrderRules.ReplayedIff | server/src/modules/orders/orders.service.ts:94-116 | it answers with an earlier order if and only if its key row is completed for the same request |
| OrderRules.PlacedWrites | server/src/modules/orders/orders.service.ts:276-420 | what a placed order writes to rows, ledger, promo, points, key and cart, for the very lines of the cart |
| OrderRules.CancellingUndoesBuying | server/src/modules/orders/orders.service.ts:606-750 | cancelling at once leaves every stock row, promo and user's points as before the checkout |
| OrderRules.CancellationDecides | server/src/modules/orders/orders.service.ts:638-656 | which orders a cancellation or an expiry cancels, and what happens to their payments and notices |
| OrderRules.CancellationGivesBack | server/src/modules/orders/orders.service.ts:658-707 | each line goes back to its row and the ledger, one use to the promo, the points to the user |
| OrderRules.OnlyOpenOrdersAreCancelled | server/src/modules/orders/orders.service.ts:638-646 | over every step an order becomes cancelled if and only if the step cancels it while it is pending or processing, by expiry only pending and not paid |
| OrderRules.OnlyCancellationsReturnOrders | server/src/modules/orders/orders.service.ts:658-684 | over every step an order's own return rows appear only with such a cancellation, line by line |
| OrderRules.StatusMoves | server/src/modules/orders/orders.service.ts:17-28 | status changes happen exactly along the table, always forward, and change nothing else |
| OrderRules.SuccessDecides | server/src/modules/payments/payments.service.ts:576-674 | which success callbacks count, and what each writes |
| OrderRules.CancelAfterSuccessIff | server/src/modules/payments/payments.service.ts:661-668 | exactly when an order can be cancelled right after a success callback, shipped and delivered ones among them |
| OrderRules.FailureDecides | server/src/modules/payments/payments.service.ts:689-751 | which failure callbacks count, and that they fail the payment and demote only unpaid orders that are not cancelled |
| OrderRules.FallbackDecides | server/src/modules/payments/payments.service.ts:780-895 | the same for callbacks without a transaction id |
| OrderRules.InitiationDecides | server/src/modules/payments/payments.service.ts:294-352 | when a payment is created, and which stale one it replaces |
| KeyBooks.OneOrderPerKey | server/src/modules/orders/orders.service.ts:82-132 | over every run two orders of one user with one key are the same order |
| KeyBooks.CommittedKeysAreCompleted | server/src/modules/orders/orders.service.ts:403-420 | no committed key row is started or failed |
| KeyBooks.RepeatAnswersTheSame | server/src/modules/orders/orders.service.ts:94-116 | after anything else has happened, a repeat answers with the first order, or is refused on another hash, and changes nothing |
| KeyBooks.KeyTakenMeansRecorded | server/src/database/schema/orders.ts:61-64 | the unique index over user and key refuses exactly what a key row already records |
| KeyBooks.KeyRowStays | server/src/modules/orders/orders.store.ts:131-174 | a committed key row never changes |
| Gateway.SettledOnlyWhenRefunded | server/src/modules/payments/payments.service.ts:1104-1217 | an inquiry settles if and only if it is authenticated, every identity it returns matches, and its status is "refunded" |
| Gateway.CancelledOnlyWhenCancelled | server/src/modules/payments/payments.service.ts:1104-1217 | an inquiry cancels if and only if it is authenticated, matches every identity and says "cancelled"; every other reply but "refunded" leaves the refund unsettled |
| Gateway.InitiationFailsIff | server/src/modules/payments/payments.service.ts:955-1064 | an initiation fails if and only if its answer is unauthenticated, mismatched, a success without reference, or neither success nor processing |
| Gateway.LostAnswersStayOpen | server/src/modules/payments/payments.service.ts:908-1064 | losing an initiation's answer never fails it |
| RefundRules.RequestDecides | server/src/modules/refunds/refunds.service.ts:77-84 | customers can ask for refunds of delivered orders alone |
| RefundRules.InsertionsWrite | server/src/database/schema/refunds.ts:37-66 | the row a new refund starts with, and when it is refused |
| RefundRules.DecisionWrites | server/src/modules/refunds/refunds.service.ts:188-229 | what an approval or rejection writes, and that it leaves processed and rejected refunds alone |
| RefundRules.ClaimsIff | server/src/modules/refunds/refunds.service.ts:264-300 | exactly when a payout claims a refund for the gateway |
| RefundRules.SettlesIff | server/src/modules/refunds/refunds.service.ts:363-405 | exactly when a payout settles |
| RefundRules.RestocksIff | server/src/modules/refunds/refunds.service.ts:423-437 | exactly when a settlement returns the goods |
| RefundRules.SettlementWrites | server/src/modules/refunds/refunds.service.ts:407-551 | what a settlement writes to refund, order, payment and points |
| RefundRules.SettlementRestocks | server/src/modules/refunds/refunds.service.ts:437-515 | what it writes to stock rows and the ledger, line by line |
| RefundDesk.NoSilentCancellation | server/src/modules/orders/orders.service.ts:727-741 | over every run a cancelled and paid order has a refund or reconciliation event, and a completed event has its refund row |
| RefundDesk.OneActiveRefund | server/src/database/schema/refunds.ts:64-66 | over every run an order never has two refunds that are not rejected |
| RefundCalls.GatewayAskedAtMostOnce | server/src/modules/refunds/refunds.service.ts:162-359 | over every run in which no approval commits on a claimed refund that is still open, the gateway is asked to initiate a refund at most once |
| RefundCalls.LateApprovalAsksAgainIff | server/src/modules/refunds/refunds.service.ts:188-229 | after such an approval on a claimed refund paid online, whatever the payment's status, the number of initiations can reach two if and only if neither the refund nor the approval has a reference, or a payout request in flight saw none |
| RefundProof.OnlineSettlementHasProof | server/src/modules/refunds/refunds.service.ts:231-405 | over every run without the two unproven steps, each settlement of a refund whose payment row is online, whatever that payment's status, first or repeated, has a reference an admin gave, or an inquiry in the run about this refund with an authenticated, matching "refunded" reply; a confirmed request made that inquiry itself about the reference it settles with |
| RefundProof.ConfirmedByInquiry | server/src/modules/refunds/refunds.service.ts:584-601 | a request that carries a confirmed reference made, earlier in the run, an inquiry about that refund and reference whose reply was authenticated, matching and "refunded" |
| RefundProof.UnprovenSettlementIff | server/src/modules/refunds/refunds.service.ts:188-258 | after any step, a settlement without proof of a refund paid online is possible if and only if the step was a payout's read of its uncompleted payment, with notes and no reference, for an open refund without proof; or an approval without reference that commits on such a refund while it has a reference or a payout on notes waits |
| RefundProof.UninterruptedPayoutIff | server/src/modules/refunds/refunds.service.ts:231-258 | a payout without a reference that reads refund and payment in a row may settle without proof if and only if it has notes, the refund is open, not in process and without proof, and the payment is not completed |
| RefundProof.UnprovenSettles | server/src/modules/refunds/refunds.service.ts:363-551 | from every state, such a settlement refunds the order and that one payment with no further call to the gateway |
| Shop.DeskFrame | server/src/modules/refunds/refunds.service.ts:302-359 | whatever the gateway answers, orders, payments, stock and points stay as they are |
| Witnesses.LateSuccessWitness | server/src/modules/payments/payments.service.ts:661-668 | a run from an empty shop that breaks no condition, after which a late success and a cancellation return one line twice and uncount a promo twice |
| Witnesses.LateRejectionWitness | server/src/modules/refunds/refunds.service.ts:609-614 | such a run after which a late "cancelled" inquiry lets one line be returned twice |
| Witnesses.LateApprovalWitness | server/src/modules/refunds/refunds.service.ts:188-229 | such a run after which a late approval lets the gateway be asked twice |
| Witnesses.UnprovenSettlementWitness | server/src/modules/refunds/refunds.service.ts:188-229 | such a run after which a late approval and a plain payout refund an online order with neither inquiry nor admin reference |
| Witnesses.CashReadWitness | server/src/modules/refunds/refunds.service.ts:239-258 | such a run after which a payout on notes refunds an online order through its failed payment, while the completed one stays and the gateway was never asked |
| ShopDb.ShopStore.DeductStock | server/src/modules/orders/orders.store.ts:264-308 | the conditional update takes the quantity exactly when the row has it |
| ShopDb.ShopStore.IncrementPromoUsage | server/src/modules/orders/orders.store.ts:328-350 | counts a use exactly when the promo is live and below its maximum |
| ShopDb.ShopStore.DecrementPromoUsage | server/src/modules/orders/orders.store.ts:578-592 | takes one use off, never below zero |
| ShopDb.ShopStore.SpendPoints | server/src/modules/loyalty/loyalty.service.ts:71-108 | spends if and only if the user's unexpired positive points and all their points cover the amount |
| ShopDb.ShopStore.RefundSpentPoints | server/src/modules/orders/orders.service.ts:690-707 | the guarded refund of an order's points |
| ShopDb.ShopStore.AwardPoints | server/src/modules/loyalty/loyalty.service.ts:13-69 | awards points of either review kind once per review |
| ShopDb.ShopStore.DeductLines | server/src/modules/orders/orders.service.ts:276-298 | the loop succeeds exactly when every deduction in turn finds its stock |
| ShopDb.ShopStore.OpenKey | server/src/modules/orders/orders.service.ts:82-132 | answers a replay or a refusal at once, otherwise starts the key and nothing else |
| ShopDb.ShopStore.CreateOrderFromCart | server/src/modules/orders/orders.service.ts:78-423 | the whole transaction has the effect and the answer of one checkout step, succeeds exactly under the written-out conditions, and spends only unexpired points; failing anywhere leaves every table as it was |
| ShopDb.OpeningIsOverwritten | server/src/modules/orders/orders.service.ts:117-131 | the started key row inserted first leaves no trace once the order is placed |
| ShopDb.ShopStore.RestockCancelled | server/src/modules/orders/orders.service.ts:658-684 | every line back to its row and into the ledger |
| ShopDb.ShopStore.FailPendingPayments | server/src/modules/orders/orders.store.ts:676-690 | exactly the order's pending payments fail |
| ShopDb.ShopStore.CancelOrderInternal | server/src/modules/orders/orders.service.ts:606-750 | cancellation and expiry have the effect of their step, and succeed if and only if the order is pending or processing, for an expiry pending and not paid |
| ShopDb.ShopStore.UpdateOrderStatus | server/src/modules/orders/orders.service.ts:521-593 | only the table's transitions happen; cancelling is the cancellation transaction |
| ShopDb.ShopStore.HandleSuccessfulPayment | server/src/modules/payments/payments.service.ts:576-674 | completes the payment once, pays the order, revives no cancelled one and raises the reconciliation event |
| ShopDb.ShopStore.HandleFailedPayment | server/src/modules/payments/payments.service.ts:689-751 | fails a payment that is not terminal and demotes only unpaid, uncancelled orders |
| ShopDb.ShopStore.CreatePayment | server/src/modules/payments/payments.service.ts:294-352 | one new pending payment and an initiated order, or nothing at all |
| ShopDb.ShopStore.UpdateRefundRow | server/src/modules/refunds/refunds.store.ts:90-102 | writes the row unless the unique index refuses it |
| ShopDb.ShopStore.RestockReturned | server/src/modules/refunds/refunds.service.ts:437-515 | saleable lines go back to their rows, damaged and orphaned ones only into the ledger |
| ShopDb.ShopStore.SettlementTransaction | server/src/modules/refunds/refunds.service.ts:363-551 | the settlement has the effect of its step, or none |
| ShopDb.ShopStore.ProcessRefund | server/src/modules/refunds/refunds.service.ts:162-552 | an uninterrupted request approves, rejects, asks the gateway once, settles or does nothing, exactly as status, references, notes and the gateway's answer say |
| ShopDb.ShopStore.ReconcileRefund | server/src/modules/refunds/refunds.service.ts:560-629 | an uninterrupted reconciliation rejects on an authenticated, matching "cancelled" alone, settles on such a "refunded" alone, and on every other reply leaves the refund in process with its reference, unless the unique index refuses |
| ShopDb.OutcomeIsARun | server/src/modules/refunds/refunds.service.ts:162-552 | what `ProcessRefund` does is one of the machine's runs, so every run theorem covers it |
| ShopDb.ShopStore.HandleRefundRequired | server/src/modules/orders/outbox.processor.ts:562-681 | afterwards the order has a refund row, a second one is never added, and the event completes exactly when the order exists and it has a refund row already or the payment named exists |

## Left out

- HTTP, payment-gateway, courier, mail, SMS, storage and PDF calls: only their outcome classes are kept.
- Signatures, tokens, passwords, OAuth, one-time codes and role guards: cryptography and plumbing.
- The web client, catalogue edits, addresses, delivery charges, wishlists, analytics, settings and review moderation; products, variants and promos are fixed during a run, so a settlement's missing-variant branch is kept but never reached through checkout.
- Notification events and error texts, and low-stock alerts: they change none of the books.
- Floating point: amounts are exact reals and integer cents, and rounding is half-up.
- A database statement that takes effect although the worker is told it failed.
- Dispatch.AtMostOneShipment: holds on runs in which CLEAR_AND_RETRY and CANCEL_DISPATCH happen only while no call that may have succeeded and no worker between its claim and its release is there, which the code does not test; `Redispatch.RedispatchIff` shows that exactly these are harmless. It takes an inquiry that returns an id as sound, and the admin's evidence is not modelled.
- Dispatch.RefinesOutbox: excludes admin steps, since CLEAR_AND_RETRY resets attempts to zero and a late `markFailed` can overwrite an admin's completion.
- Outbox.OutboxTable.ClaimBatch: the order by creation time is proved for the method; the runs allow any batch of claimable rows.
- UserCache.CacheEqualsRow: assumes one clock, Redis commands that succeed, no expiry of a generation or tombstone during a fetch, and an invalidation's clock read and tombstone write as one step; one user id is modelled.
- Throttle.FewerThanTwiceTheLimit: assumes ttl > 0, limit >= 1 and blockDuration >= ttl; the in-memory fallback is left out.
- Throttle.ThrottleKey.RunScript: requires positive durations, which Redis demands.
- Locking.NoDeadlock: covers checkouts only; cancellation and settlement restock in unsorted order, and share locks of foreign keys are not modelled.
- Returns.ReturnedAtMostOnce: holds on runs without the two steps named above; `Returns.OnceIffNeverHarmful` proves that exactly those steps must be absent.
- PaymentBooks.PaidIffCompleted: leaves out the stale-payment write `initiatePayment` makes before its transaction and its cleanup writes (server/src/modules/payments/payments.service.ts:245-256, 398-418, 426-446), and the amount and currency checks that precede a success.
- PaymentBooks.OrderInsensitive: covers callbacks, fallbacks, cancellations, expiries and status changes, before any refund and without new payments.
- RefundCalls.GatewayAskedAtMostOnce: takes decisions from approved, rejected and processed; the value `processing` would fall through to settlement.
- RefundProof.OnlineSettlementHasProof: holds on runs without the payment read and the approval described above, whose exact effect `RefundProof.UnprovenSettlementIff` states; amounts, notes and reasons other than damage are not modelled.
- PointBooks.PointsAreSound: says nothing about expired points never being spent, which the balance formula does not give; `PointBooks.AvailableIs` states the cap it does give.
- ShopDb.ShopStore.AwardPoints: the two kinds reviews earn, the only ones the server awards; the expiry date is a parameter.
- ShopDb.ShopStore.CreateOrderFromCart: price, promo code and point amount are parameters here; `Pricing` computes them.
- ShopDb.ShopStore.HandleRefundRequired: the payment it names is a parameter; the runs let the handler's read, insert and completion interleave with everything else.
- Carts: only adding a line is modelled, and checkout empties the cart.
- Reporting queries, reconciliation listings and shipment tracking.
