# Order lifecycle, refunds and payment rules of opay: model and proofs

This project models the parts of opay where money and state can go wrong, and proves what they promise.

**The order lifecycle** (`Orders`, `Protocol`, `Steps`, `World`).  Gateway notifications, user and admin
cancellation, the timeout sweep, retries, refund requests and refunds act on one order at the same time.  Every
operation of the order service is a program of steps, where a step is one database statement, one audit append or one
call to a third party.  A worker carries the program counter and the local variables, among them rows read earlier that
may be stale.  Any worker may vanish between two steps, which is also how an operation ends that returns early on a
database error.  A commit inside a refund may also fail on its own, which sends the refund to its error path.  Third
parties answer with success, failure, or success reported as failure.  `World.Apply` is the transition function and a
run is any sequence of events, so every interleaving of any number of orders, users and workers is some run.

**The proof** (`Facts`, `Settle`, `Sums`, `Quiet`, `Invariant`).  One counting law per order covers the RECHARGING lock,
audit entries and units of money or days: what the row and the platform show equals what the log says plus what workers
still owe.  Every step moves both sides alike (`Settle`), the law is lifted to sums over all workers (`Sums`,
`Invariant`), and it holds on every run.  `Holds`, `Locks` and `Claims` add what needs certain commits not to fail: the
REFUNDING lock and the gateway's book.  `Guarantees`, `Conservation`, `Caps` and `Attempts` read the promises off these.
`Continuations` continues runs without hindrance; with it `Harm` shows that the conditions of the refund guarantees are
exact, and `Scenarios` where the keys of the platform fall short, that the states in question exist, and that a stuck
order can always be completed.

**What each operation does** (`Transitions`, `Origins`, `Journeys`, `TableJourneys`).  `Transitions` is the state machine
as one table: who may change an order, from what into what.  `Origins` traces credits, entries and requests to the
answers that allowed them.  `Journeys` says of every operation, undisturbed, what it leaves on the row, in the log, on
the account and at the gateway, and what it answers, for each way third parties may answer.

**The code as written** (`Repository`, `Service`, `Desk`).  The orders table with its guarded statements, and the
operations of the service with their local variables, early returns and loops.  Before every statement of
`OrderService` everything shared may change; after it a ghost worker takes the step the protocol prescribes and the
method records whether it did the same.  So each method is proved to run its protocol program under arbitrary
interference and to return what that program ends with.

**Payment rules** (`Fees`, `Payment`), **the configuration cache** (`SystemConfig`, `ConfigRuns`), **EasyPay signing**
(`EasyPay`, `SecureEquality`), **subscription validity** (`Validity`) and **the order-status token** (`StatusToken`)
are modelled apart from the lifecycle, which takes only its quotes from `Fees` and the days of a renewal from
`Validity`.

Money is integer cents, rates are integer basis points, times are integers.  Hashes, the decimal reader and the UTF-8
encoding are function parameters.

What the proofs say about the code that its intent does not:

- The limits shown for a payment method can hide amounts that would be accepted, depending on the order of its
  instances, and an instance that can take exactly its own minimum counts as blocked (`MaximumSoundExactly`,
  `MaximumUnsound`, `CapacitySoundExactly`, `CapacityUnsound`, `BlockedMeansNothingAccepted`).
- The error path of a refund releases the lock by a statement that any REFUNDING row meets.  The gateway can come to
  pay twice exactly after one of three events: its answer is lost although it paid; the mark after it paid fails; the log
  entry after an order was restored fails while the order can be refunded anew, or is being refunded by
  another attempt that has paid, may still pay or is about to release the lock.  The last is harmless on an order
  already refunded and on one whose refund vanished without paying (`GatewayRefundsOnce`, `GatewayRefundsOnceExactly`, `HarmIsReal`).
- The branch of a refund for orders without a trade number is dead (`RefundsHaveTradeNumbers`).
- The idempotency keys of a deduction and of its rollback carry only the second.  An attempt takes what it reports
  exactly when its keys allow it (`SuccessTakesPlanExactly`, `UndoneIsNeutralExactly`, `ErrorTookExactly`,
  `UndoingErrorTookExactly`): two attempts in one second can refund without deducting, or give back what was not taken
  (`SameSecondRefundTakesNothing`, `LaterRollbackGivesAway`).
- The days shown for a month plan exceed the days granted when the target month lacks the start day
  (`BackendAgreesExactly`).

## Model

| member | source | states |
|---|---|---|
| `Guarantees.AckSafety` | src/order/service.rs:726-837 | On every reachable state, whatever commits failed, an acknowledged successful notification of a positive amount is for an existing order; the last status the worker saw was fulfilled, refunded, CANCELLED, or EXPIRED outside the grace window, never PENDING, PAID, RECHARGING or FAILED; the order is still at least that far along, and credited if fulfilled |
| `Guarantees.AckGivenWhenDue` | src/order/service.rs:726-837 | Conversely, on every run: a notification without success is acknowledged, so is every one whose order was last seen COMPLETED, REFUNDED, EXPIRED for good or CANCELLED; one that found no order or the wrong amount is not |
| `Guarantees.OutcomesHold` | src/order/service.rs:450-531 | A retry that reports success leaves a fulfilled and credited order, a cancellation reported as done one that is not pending, one reported as too late a paid one |
| `Guarantees.EntriesAreTrue` | src/order/service.rs:310-362 | What an audit entry says holds of its order for good: the amounts of ORDER_PAID, of a mismatch, of a refund request within a balance order's amount, of a refund with its partial flag and the gateway's payment behind it |
| `Guarantees.FulfillmentReadsPaidOrder` | src/order/service.rs:754-765 | Whenever a fulfillment is about to read its order, the order is neither PENDING, EXPIRED nor CANCELLED: the catch-all acknowledgement is never taken |
| `Guarantees.CompletedMeansCredited` | src/order/service.rs:839-1053 | A fulfilled or refunded order was credited on the platform to its user, a balance order for its face value and a subscription for a positive number of days; only a paid order is ever credited |
| `Guarantees.CreditedOnce` | src/platform.rs:582-625 | Over any stretch of any run the credit under a recharge code, once made, never changes, and no two orders share a code: retries after a lost answer credit nothing more |
| `Guarantees.LocksExclusive` | src/order/repository.rs:367-382 | RECHARGING is a lock on every run: the workers between winning and releasing it, vanished ones included, are exactly one while the row has the status and none otherwise |
| `Guarantees.RefundLockExclusive` | src/order/repository.rs:437-452 | REFUNDING is one on every run in which no commit fails right after an order, still to be refunded, was restored; a refund whose error could not be put on the row holds it for good |
| `Harm.RefundLockExclusiveExactly` | src/order/service.rs:1201-1215 | That condition is exact: a run is free of such failing commits if and only if at no point of it an unhindered continuation (no failing commit, no lost answer, nobody vanishes, no time passes) breaks the lock |
| `Guarantees.RefundHolderFindsRefunding` | src/order/service.rs:683-724 | On such a run a refund in possession of the lock finds its order REFUNDING |
| `Guarantees.VanishedFulfillmentBlocks` | src/order/service.rs:767-779 | An order whose fulfillment vanished with the lock stays RECHARGING for the rest of the run |
| `Guarantees.VanishedRefundBlocks` | src/order/service.rs:691-722 | On such a run an order whose refund vanished with the lock, or could not release it, stays REFUNDING for the rest of the run |
| `Guarantees.CompletionStartsFromRecharging` | src/order/repository.rs:541-594 | A worker about to complete or fail a fulfillment finds the order RECHARGING, although the statement would accept PAID and FAILED |
| `Guarantees.PhasesOnlyAdvance` | src/order/repository.rs:317-594 | Between any two moments of any run: phases never go back, CANCELLED is final and never paid, refunded statuses are terminal, `paid_at` and the amount to pay change at most once and together, and the amount stays within a cent of the quote |
| `Guarantees.RunEvolves` | src/order/service.rs:297-371 | From any moment of a run to its end an order keeps its identity, its log and gateway history only grow, its credit and its expiry marker are final once set (the latter also once paid) |
| `Guarantees.DerivedStateIsStatus` | src/order/status.rs:47-109 | On every reachable order the derived state is a function of the status alone (Closed exactly for EXPIRED and CANCELLED, Success for every refund status), and an order is retryable exactly when it is FAILED |
| `Guarantees.AuditCounts` | src/order/service.rs:258-275 | Per order the ORDER_PAID, ORDER_CANCELLED, ORDER_EXPIRED and success entries occur at most once, and entries plus appends still owed by workers, vanished ones included, equal 1 exactly when the row (or, for expiry, the expiry marker) says so |
| `Guarantees.AuditExclusions` | src/order/service.rs:420-476 | An order logged as cancelled has no paid, expired or success entry and no credit; a success entry means the credit exists |
| `Guarantees.GatewayRefundsOnce` | src/order/service.rs:1169-1262 | At most one gateway refund goes through per order, and an order with one is being refunded or was, on every run free of three kinds of events: the answer of a paying gateway is lost; the mark after the gateway paid fails; the log entry after an order was restored fails while the order can be refunded anew, or is being refunded by an attempt that has paid, may still pay or is about to release the lock.  Every other failing commit, lost answer or vanished worker is allowed |
| `Harm.GatewayRefundsOnceExactly` | src/order/service.rs:1169-1262 | That condition is exact: a run is free of these events if and only if at no point of it an unhindered continuation has the gateway pay twice for one order |
| `Harm.HarmIsReal` | src/order/service.rs:703-724 | After every event of the three kinds, on a book kept until then, an unhindered continuation has the gateway pay at least twice |
| `Guarantees.RefundsHaveTradeNumbers` | src/order/service.rs:1169-1246 | On every run an attempt under way read a row with a trade number, so the branch that skips the gateway is never taken; and an attempt about to mark the row finds the gateway's payment made |
| `Guarantees.GatewayAmountsBounded` | src/order/service.rs:626-640 | On every run each gateway refund is positive, is of a fulfilled order, exceeds the payment by at most a cent, and not at all when the quote carries a fee |
| `Guarantees.RefundedStatusIsAmount` | src/order/service.rs:1247-1262 | On every run a refunded order holds an amount between one cent and the whole, and is REFUNDED exactly if that is the whole |
| `Guarantees.FinishedRefundIsOnRow` | src/order/service.rs:1247-1299 | On every run that keeps the lock, a refund that reports success left its amount on the row, REFUNDED if that is all of it and PARTIALLY_REFUNDED if less, and the gateway sent what it was to send |
| `Transitions.EveryChangeIsJustified` | src/order/repository.rs:317-627 | The whole state machine in one table, for every interleaving: an order changes only by a step of a worker about it; for each new status which statement wrote it, from which statuses, under what conditions (an expired order revived within 300 seconds, a user cancelling only an order of his, a refund request within the amount of a balance order, a final status that fits the amount) and with which columns; and when exactly the credit, the gateway's payments, the units taken and the log change, and by what |
| `Origins.CreditIsGrant` | src/order/service.rs:839-1053 | Every credit on every run is traced to its fulfillment: what the platform's answer to its planning grants (nothing but the face value for a balance order, the days sold for a new subscription, what the plan's validity yields for a renewal) is what its redeem credited |
| `Origins.SuccessEntryIsGrant` | src/order/service.rs:1002-1046 | The days a success entry names are the grant of a redeem that the platform confirmed |
| `Origins.RequestIsCovered` | src/order/service.rs:554-563 | Every refund request on record was made by the user of the order, with a balance read that covered it |
| `Origins.EntryWasWritten` | src/order/service.rs:258-275 | Every entry of every log was written by a step at the point of a program where such entries are written, with that worker's values |
| `Conservation.BalanceConserved` | src/order/service.rs:1153-1418 | On every run an account, a user's money or a user's days with a subscription group, holds the base plus what its orders were credited, minus the deductions of finished refunds, of refunds in flight, of recorded rollback failures and of refunds whose own commit failed, minus the drift of platform answers: an equality, so the books balance without the drift exactly when it is nil |
| `Conservation.BalanceConservedTruthfully` | src/order/service.rs:839-891 | With no lost deduction or rollback and no reused key the drift is nil and every account holds exactly what ledger, log and workers say |
| `Conservation.OrderBooks` | src/order/service.rs:1301-1418 | Per order the net units taken by the platform equal the logged deductions, plus those in flight, plus those of refunds whose own commit failed, plus the drift |
| `Attempts.RefundAtomic` | src/order/service.rs:610-724 | On every run in which one attempt got the platform's answers to its own calls under new keys, whatever happens to all others: success took the whole plan; success=false took nothing and left its entry; an error took nothing, or the whole plan, the latter only with a REFUND_ROLLBACK_FAILED entry for it or after a failing commit of its own |
| `Attempts.ErrorIsAtomic` | src/order/service.rs:1153-1234 | The error clause needs no new keys: an attempt that got the platform's answers to its own calls and errs without a failing commit took nothing, or the whole plan, the latter only with a REFUND_ROLLBACK_FAILED entry for it |
| `Attempts.ErrorTookExactly` | src/order/service.rs:1301-1335 | What an attempt took that errs before its rollback, on every run: nothing if the deduction was refused, unless its answer was lost and its key new; the plan exactly if its key was new when a commit failed later |
| `Attempts.UndoingErrorTookExactly` | src/order/service.rs:1337-1418 | What an attempt took that errs past its rollback, on every run: the plan if the deduction's key was new, minus the plan if the rollback's was and, where the rollback was refused, its answer was lost; so nothing, the plan, or less than nothing by the plan |
| `Attempts.SuccessTakesPlanExactly` | src/order/service.rs:1301-1335 | An attempt that succeeds took exactly the plan if and only if there was nothing to take or the key of its deduction, the order and the current second, was new at that moment; otherwise it took nothing |
| `Attempts.UndoneIsNeutralExactly` | src/order/service.rs:1184-1227 | An attempt that returns success=false left the account alone if and only if there was nothing to take, or the keys of its deduction and its rollback were both new or both used; and by how much otherwise |
| `Attempts.DeductionWasAsked` | src/order/service.rs:1166-1167 | Every attempt past its deduction, however it ends, asked the platform for it at one position of the run |
| `Attempts.BooksSinceDeduction` | src/order/service.rs:1166-1182 | From there until it asks for its rollback, at every moment of every run, it has taken what that call took: the plan if the platform set to work and the key was new, otherwise nothing |
| `Attempts.RollbackWasAsked` | src/order/service.rs:1185-1195 | Every attempt past its rollback, however it ends, asked for it after its deduction |
| `Attempts.BooksSinceRollback` | src/order/service.rs:1183-1227 | From there on, at every moment, it has taken the difference of what the two calls did |
| `Conservation.NothingTakenWithoutLock` | src/order/service.rs:656-689 | Nothing is taken before the refund lock is won, nor by a refund that is refused or asks for force |
| `Conservation.DeductionWithinPlan` | src/order/service.rs:1055-1151 | The planned deduction never exceeds the refund (balance) or the days sold (subscription), and the gateway amount is the refund amount or, for a full refund, what was paid |
| `Conservation.TakenIsApplied` | src/order/service.rs:1301-1418 | All that the platform took through an order is the sum of what the refund attempts on it took and did not give back |
| `Invariant.ApplyKeeps` | src/order/service.rs:128-1492 | The invariant over orders, workers, ledger and balances is kept by every event: a step of any worker, a new operation, a vanished worker, time, outside changes of accounts, new limits, and commits that fail alone inside a locked refund |
| `Invariant.RunKeeps` | src/order/service.rs:128-1492 | Hence it holds after every run from an empty system, for every interleaving |
| `Locks.ApplyLocks` | src/order/service.rs:1153-1299 | Every event but a commit that fails right after an order, still to be refunded, was restored keeps the REFUNDING lock exclusive |
| `Claims.ApplyClaims` | src/order/service.rs:1153-1299 | Every event but those of the three harmful kinds keeps at most one claim on the gateway per order, and the gateway's book |
| `Settle.LocalStepSettles` | src/order/service.rs:297-1462 | Every step of every program, failing commits included, keeps the facts about its order and its worker, moves both sides of every counting law alike, and changes the order only forward |
| `Caps.PendingCap` | src/order/service.rs:185-220 | With at most k creators of a user past the check at once and a fixed limit max, pending orders plus creators in flight never exceed max - 1 + k, although check and insert are separate steps |
| `Caps.PendingCapSequential` | src/order/service.rs:185-220 | With one creator at a time the user never has more than max pending orders |
| `Caps.SweepCountsItsOwn` | src/order/service.rs:252-278 | Under any interference the count a sweep returns is the number of orders this sweep moved from PENDING to EXPIRED |
| `Caps.PaidNeverExpires` | src/order/repository.rs:317-331 | An order paid at any moment, such as after a sweep listed it, is expired by nobody from then on |
| `Scenarios.FaultRefundsTwice` | src/order/service.rs:1247-1262 | From every state with a refundable order, a run whose only failing commit is the mark after a successful gateway refund sends the full amount twice |
| `Scenarios.LostAnswerRefundsTwice` | src/order/service.rs:1170-1230 | So does a run whose only mishap is one lost answer of a gateway that paid: the order is restored and refunded again |
| `Scenarios.RogueFailureRefundsTwice` | src/order/service.rs:1201-1215 | From every state in which one attempt restored the order and another holds the lock and is about to call the gateway, one failing commit of the first one's log entry lets two gateway refunds go out: its error path releases the other's lock |
| `Scenarios.OverlappingRefundsExist` | src/order/service.rs:683-724 | From every state with a refundable order two overlapping refunds lead there without any failing commit |
| `Scenarios.SameSecondRefundTakesNothing` | src/order/service.rs:1301-1333 | From every state with a refundable balance order covered by the balance and no deduction key of this second, a refused attempt followed in the same second by a successful one sends the money back and takes nothing, because the key repeats |
| `Scenarios.LaterRollbackGivesAway` | src/order/service.rs:1337-1345 | From every state with a refundable balance order covered by the balance and fresh keys, a run without a lost answer ends in success=false with the user richer by the whole plan: the deduction repeated a key, the rollback came a second later |
| `Scenarios.RefundableOrdersExist` | src/order/service.rs:128-245 | For every user and amount some run from an empty system creates, attaches, pays and fulfills an order to such a refundable state |
| `Journeys.JourneysAreRuns` | src/order/service.rs:128-1492 | What a journey of one operation does to its order happens in the system from every reachable state, by a run in which only this operation moves; the account of the order changes by what the order's books do |
| `Journeys.NotificationCompletes` | src/order/service.rs:726-891 | Undisturbed, a notification within a cent of the quote for an order that is PENDING, or EXPIRED for at most 300 seconds: the order is paid, COMPLETED and credited with what was granted, ORDER_PAID and the success entry are logged, and it is acknowledged; every column is stated |
| `Journeys.NotificationFails` | src/order/service.rs:726-891 | If the platform refuses the redeem the order is paid and FAILED with its entry, uncredited unless the answer was lost, and the notification is not acknowledged |
| `Journeys.FulfillmentUnplanned` | src/order/service.rs:776-837 | If nothing can be granted the fulfillment ends alike without a redeem |
| `Journeys.RepeatedNotificationCompletes` | src/order/service.rs:357-371 | One for a PAID or FAILED order completes it and is acknowledged |
| `Journeys.NotificationFindsNothingToDo` | src/order/service.rs:357-371 | One for an order that is fulfilled, refunded, CANCELLED or EXPIRED too long changes nothing and is acknowledged; one for a RECHARGING order is not |
| `Journeys.NotificationIsNoPayment` | src/order/service.rs:302-331 | A wrong amount is logged and refused; no success, or no positive amount, is acknowledged; nothing else changes |
| `Journeys.CancelExactly` | src/order/service.rs:411-489 | Undisturbed, an order is cancelled exactly if it is PENDING and the caller is its user or an administrator; otherwise it is refused and nothing changes |
| `Journeys.FulfillmentFindsNothingToDo` | src/order/service.rs:754-765 | A fulfillment that finds its order not to be fulfilled changes nothing and succeeds, unless the order is RECHARGING |
| `Journeys.FulfillmentLosesLock` | src/order/service.rs:767-777 | One that loses the lock changes nothing and succeeds exactly if the order is COMPLETED or REFUNDED by then |
| `Journeys.CancelLooksAgain` | src/order/service.rs:466-489 | After a lost race a user's cancellation goes on to fulfill every paid order it finds, an administrator's only PAID and FAILED ones |
| `Journeys.GuardRefuses` | src/order/service.rs:491-689 | A retry, a refund request and a refund whose guarded statement finds another status end refused, and nothing changes |
| `Journeys.CancelLostToPayment` | src/order/service.rs:466-489 | A cancellation that lost to a payment fulfills the order and reports that it came too late |
| `Journeys.CancelLostOtherwise` | src/order/service.rs:466-489 | One that lost otherwise changes nothing and reports too late exactly for a RECHARGING, COMPLETED or REFUNDED order |
| `Journeys.RetryResets` | src/order/service.rs:491-519 | Undisturbed, a retry resets exactly a paid order that is PAID or FAILED, and is refused for any other |
| `Journeys.RetryCompletes` | src/order/service.rs:491-531 | A retry completes such an order, credits it if it was not, and reports success |
| `Journeys.RetryFails` | src/order/service.rs:491-531 | One that the platform refuses leaves the order FAILED and reports no success |
| `Journeys.AttachCompletes` | src/order/service.rs:373-404 | A created order gets its trade number and both entries |
| `Journeys.RequestExactly` | src/order/service.rs:533-608 | Undisturbed, a refund request is recorded exactly for a COMPLETED balance order of the user, within its amount and a balance that was read; otherwise it is refused and nothing changes |
| `Journeys.RefundSucceeds` | src/order/service.rs:610-724 | Undisturbed, a refund that nobody refuses: the planned units taken under a new key, the amount asked for or all that was paid sent back, REFUNDED or PARTIALLY_REFUNDED with the amount, one entry with all four values |
| `Journeys.RefundUndone` | src/order/service.rs:1184-1227 | One that the gateway refuses: units given back, success=false, the status as before except that REFUND_FAILED becomes COMPLETED |
| `Journeys.RefundNotDeducted` | src/order/service.rs:1301-1335 | One whose deduction is refused: REFUND_FAILED with its entry, nothing sent or taken |
| `Journeys.RefundNotRolledBack` | src/order/service.rs:1337-1418 | One whose deduction cannot be given back: REFUND_FAILED, both entries, the units stay taken |
| `Journeys.RefundRefused` | src/order/service.rs:610-681 | A refund in a wrong status, of a wrong amount, or that cannot be planned changes nothing; it asks for force exactly when the platform did not answer, a deduction was wanted and force was off |
| `Journeys.PaidOrdersAreCompleted` | src/order/service.rs:726-891 | From every reachable state such a notification completes the order and is acknowledged; the account rises by the face value or the days granted |
| `Journeys.StuckOrdersCanBeCompleted` | src/order/service.rs:491-531 | From every reachable state a FAILED order, or a PAID one whose worker is gone, whose grant can be planned is completed by one retry, which reports success; the account rises by the face value or the days granted exactly if the order was uncredited, however often and wherever it failed |
| `TableJourneys.CreationExactly` | src/order/service.rs:128-245 | Undisturbed, an order is created exactly if the input is within the limits, the user has fewer pending orders than allowed and the code is new; every column of the new row is stated |
| `TableJourneys.SweepExactly` | src/order/service.rs:252-278 | Undisturbed, from every reachable state a sweep expires exactly the earliest overdue orders up to the limit, logs each and returns their number |
| `Service.OrderService.ConfirmPaymentAt` | src/order/service.rs:297-371 | Under any interference each statement is the prescribed protocol step, and the outcome returned (confirmed, retry later, stop, mismatch, not found) is the point the program reached |
| `Service.OrderService.HandleVerifiedNotification` | src/order/service.rs:726-752 | Runs the notification program to its end under any interference; the boolean returned is the acknowledgement the program ends with |
| `Service.OrderService.ExecutePaidFulfillment` | src/order/service.rs:754-837 | Runs the fulfillment program under any interference; the boolean and the last status seen are those the program returns to its caller |
| `Service.OrderService.RedeemAndComplete` | src/order/service.rs:839-891 | Redeems, completes and logs, or records the failure, step for step as the protocol prescribes |
| `Service.OrderService.PlanGrant` | src/order/service.rs:893-1000 | The grant exists exactly when the answer, the group, the days sold and, for a renewal, the plan's validity allow it; then it is nothing for a balance order, the days sold for a new subscription, what the validity yields from the current expiry for a renewal, and always positive for a subscription |
| `Service.OrderService.RecordFulfillmentFailure` | src/order/service.rs:1440-1462 | Marks FAILED only from RECHARGING, logs the failure and reports false |
| `Service.OrderService.CancelOrder` | src/order/service.rs:450-489 | Runs the cancel program of a user; the result is its outcome, and a lost race goes on to fulfill whatever was paid |
| `Service.OrderService.AdminCancelOrder` | src/order/service.rs:411-448 | The same for an administrator, who fulfills only PAID and FAILED orders |
| `Service.OrderService.RetryRecharge` | src/order/service.rs:491-531 | Runs the retry program; success is reported exactly when it ends with a successful fulfillment, and otherwise the first reason against it, a lost reset explained by one more read |
| `Service.OrderService.RequestRefund` | src/order/service.rs:533-608 | Runs the refund request program; true exactly when the request was recorded |
| `Service.OrderService.PrepareDeduction` | src/order/service.rs:1055-1151 | The plan is the least of the refund and the non-negative balance, or of the days sold and the days left; nothing without a deduction, a group or a subscription; unavailable exactly when the platform did not answer and force is off; only a subscription plan names a subscription |
| `Service.OrderService.ProcessRefund` | src/order/service.rs:610-724 | Runs the refund program from the first read to the end under any interference, failing commits included, also those of its own error path, and an error where the administrator key or the platform is not configured; success, the need to force, the deduction reported and errors are those of the point where the program ended |
| `Service.OrderService.ProcessRefundLocked` | src/order/service.rs:1153-1299 | The part under the lock: deduction, gateway, mark and log, ending in success, in success=false, or at the error path |
| `Service.OrderService.UndoRefund` | src/order/service.rs:1184-1234 | After a gateway failure: rollback, then restore to REFUND_REQUESTED or COMPLETED as the stale read says, or the error path when the rollback failed |
| `Service.OrderService.ExecuteDeduction` | src/order/service.rs:1301-1335 | Takes the planned units, once per key, and goes on to the gateway, or to the error path when the platform refuses |
| `Service.OrderService.RollbackDeduction` | src/order/service.rs:1337-1418 | Gives the units back, once per key, or logs REFUND_ROLLBACK_FAILED |
| `Service.OrderService.AttachPaymentCreation` | src/order/service.rs:373-404 | Writes the payment details without a status guard and logs PAYMENT_CREATED |
| `Desk.OrderDesk.ExpirePendingOrdersAt` | src/order/service.rs:252-278 | Without interference one sweep expires exactly min(batch, n) of the n overdue orders, the earliest first, changes nothing else, logs one entry each, and leaves n minus that many |
| `Desk.OrderDesk.CreatePendingOrderAt` | src/order/service.rs:128-245 | An order is created exactly when the input is within the limits, the user has fewer pending orders than the limit and the recharge code is new; it is one new pending row, every column stated, with the right expiry and the amount plus its least fee to pay; the count rises by one and stays within the limit; otherwise nothing changes |
| `Desk.SweepsDrain` | src/order/timeout.rs:11-33 | Repeated sweeps leave no overdue order after ceil(n / batch) of them, and not sooner |
| `Desk.SweepLeaves` | src/order/service.rs:252-278 | A sweep leaves exactly the overdue orders it did not list |
| `Repository.OrderRepository.GetById` | src/order/repository.rs:121-137 | The row, exactly when it exists |
| `Repository.OrderRepository.CountPendingByUser` | src/order/repository.rs:163-174 | The number of rows that are pending and of this user |
| `Repository.OrderRepository.ListExpiredPending` | src/order/repository.rs:151-161 | The overdue pending orders, earliest expiry first, without repetition, as many as limit and table allow, none left out that expires before one listed |
| `Repository.OrderRepository.InsertPending` | src/order/repository.rs:267-315 | One new row at the end exactly when its recharge code is new; otherwise nothing changes |
| `Repository.OrderRepository.MarkStatusIfPending` | src/order/repository.rs:317-331 | True exactly for a PENDING row, which takes the status; otherwise nothing changes |
| `Repository.OrderRepository.MarkPaidIfPendingOrRecentExpired` | src/order/repository.rs:333-365 | True exactly for a PENDING row or an EXPIRED one updated within the grace window, which becomes PAID with amount, trade number and time |
| `Repository.OrderRepository.MarkRechargingIfPaidOrFailed` | src/order/repository.rs:367-382 | True exactly for a PAID or FAILED row, which becomes RECHARGING |
| `Repository.OrderRepository.ResetToPaidIfRetryable` | src/order/repository.rs:384-402 | True exactly for a FAILED or PAID row with a payment time, which becomes PAID |
| `Repository.OrderRepository.MarkRefundRequested` | src/order/repository.rs:404-435 | True exactly for a COMPLETED balance order of the user, which becomes REFUND_REQUESTED with the amount |
| `Repository.OrderRepository.MarkRefundingIfRefundable` | src/order/repository.rs:437-452 | True exactly for a COMPLETED, REFUND_REQUESTED or REFUND_FAILED row, which becomes REFUNDING |
| `Repository.OrderRepository.RestoreAfterRefundGatewayFailure` | src/order/repository.rs:454-480 | True exactly for a REFUNDING row, which takes the given status |
| `Repository.OrderRepository.MarkRefundFailed` | src/order/repository.rs:482-508 | True exactly for a REFUNDING row, which becomes REFUND_FAILED |
| `Repository.OrderRepository.MarkRefunded` | src/order/repository.rs:510-539 | True exactly for a REFUNDING row, which takes the final status and amount |
| `Repository.OrderRepository.MarkCompletedAfterFulfillment` | src/order/repository.rs:541-566 | True exactly for a RECHARGING, PAID or FAILED row, which becomes COMPLETED |
| `Repository.OrderRepository.MarkFailedIfRecharging` | src/order/repository.rs:568-594 | True exactly for a RECHARGING row, which becomes FAILED |
| `Repository.OrderRepository.SetPaymentDetails` | src/order/repository.rs:596-627 | True exactly for an existing row, whatever its status; the trade number is written |
| `Listing.ListExpiredIsEarliest` | src/order/repository.rs:151-161 | The query's answer is an earliest choice of exactly min(limit, n) overdue orders (all of them for a negative limit) |
| `Listing.CountPendingIsCardinality` | src/order/repository.rs:163-174 | The counting query yields the size of the set of the user's pending rows |
| `Fees.PayAmountIsLeast` | src/payment.rs:328-334 | What is to be paid is the amount plus the least f with 10000 f >= amount * bps, and the bare amount without a positive rate |
| `Fees.FeeIsLeast` | src/payment.rs:328-334 | The fee is the least f with 10000 f >= amount * bps |
| `Fees.FeeMonotone` | src/payment.rs:328-334 | Fee and total are monotone in amount and rate |
| `Fees.FeeSubadditive` | src/payment.rs:328-334 | Splitting an order never lowers the total fee |
| `Fees.OverflowsExactly` | src/payment.rs:328-334 | No intermediate value leaves 64 bits exactly when amount * bps leaves room for rounding up and the total fits |
| `Fees.ProductDecidesOverflow` | src/payment.rs:328-334 | For every rate but one basis point the product alone decides: no overflow exactly when amount * bps leaves room for rounding up |
| `Fees.TotalOverflowsAtOneBasisPoint` | src/payment.rs:328-334 | At one basis point there is an amount whose product fits and whose total does not |
| `Payment.AggregateInstanceLimits` | src/payment.rs:539-647 | One summary per payment type, of the instances that support it |
| `Payment.AggregateSupporting` | src/payment.rs:572-643 | The fold's result in closed form: least minimum, greatest maximum after the last unlimited instance, greatest remaining capacity after the last instance without a daily limit, blocked exactly when all are |
| `Payment.MinimumIsSound` | src/payment.rs:353-391 | Every amount some supporting instance accepts is at least the shown minimum |
| `Payment.MinimumIsTight` | src/payment.rs:597-601 | Some instance has exactly the shown minimum |
| `Payment.MaximumSoundWhenAllLimited` | src/payment.rs:602-608 | With a maximum on every instance no accepted amount exceeds the shown maximum |
| `Payment.MaximumSoundExactly` | src/payment.rs:602-608 | For every list of instances a shown maximum is sound exactly when each instance stays below it: by its own maximum, by what is left of its day, or because its limits leave no amount |
| `Payment.MaximumSoundByOrder` | src/payment.rs:602-608 | Where no daily limits interfere this is so exactly when all instances are limited or the last one is not |
| `Payment.MaximumUnsound` | src/payment.rs:602-608 | A list of two instances with daily limits for which 500 is shown and 501 is accepted |
| `Payment.CapacityIsSound` | src/payment.rs:610-627 | With a daily limit on every instance accepted amounts are within the shown capacity, except an amount equal to an instance's minimum and remaining capacity |
| `Payment.CapacitySoundExactly` | src/payment.rs:610-627 | For every list of instances a shown capacity is sound, up to that exception, exactly when each instance stays below it or is blocked |
| `Payment.CapacitySoundByDays` | src/payment.rs:610-627 | Where no single maxima interfere this is so exactly when every instance has a daily limit |
| `Payment.CapacityUnsound` | src/payment.rs:610-627 | A list of two instances for which 100 is shown and 101 is accepted |
| `Payment.BlockedMeansNothingAccepted` | src/payment.rs:574-639 | For well-formed limits some amount is accepted exactly when the method is not shown as blocked or such an exceptional amount exists |
| `Payment.RoutingMatchesOffers` | src/payment.rs:281-305 | A type a provider offers is routed to that provider, and a type is only routed to a provider that offers it or a stem of it |
| `Payment.SortByOrder` | src/payment.rs:168 | The positions in strict order of sort order, ties by position, all of them |
| `Payment.ResolvePaymentSelection` | src/payment.rs:138-210 | The first accepting instance by sort order, ties by position, where supporting and accepting are spelled out limit by limit; no instance exactly when none supports the type; an error exactly when the amount is not positive or all supporting instances, at least one, reject |
| `SystemConfig.UpsertedHoldsLast` | src/system_config.rs:116-140 | After a batch of upserts a key holds the last value written for it, or what it held before |
| `SystemConfig.SystemConfigService.GetCached` | src/system_config.rs:157-165 | A live entry answers; an expired one is removed |
| `SystemConfig.SystemConfigService.SetCached` | src/system_config.rs:167-176 | The value is cached for the time to live |
| `SystemConfig.SystemConfigService.Get` | src/system_config.rs:45-76 | A live entry answers and nothing changes; otherwise the table, and only for a key absent there the environment, answers, and an existing value is cached until now plus the time to live; on a coherent cache the answer is the backing value and coherence is kept |
| `SystemConfig.SystemConfigService.Invalidate` | src/system_config.rs:148-155 | One key or all are dropped; coherence is kept |
| `SystemConfig.SystemConfigService.SetMany` | src/system_config.rs:116-146 | The table takes the upserts in order, every written key leaves the cache, and a coherent cache stays coherent |
| `SystemConfig.SystemConfigService.SetManyThenGet` | src/system_config.rs:116-146 | On one instance used sequentially a get returns the last value written, also after later writes to other keys |
| `ConfigRuns.BoundedStaleness` | src/main.rs:65-81 | In every interleaving over any number of instances, whatever a get answers at time t was the backing value at some instant no earlier than t - ttl - delay, where delay bounds the time from a read to its insert |
| `ConfigRuns.BoundIsAttained` | src/system_config.rs:45-76 | The bound is attained, even on the instance that made the write: for every ttl and delay a run answers a value that stopped being the backing value ttl + delay ago |
| `SecureEquality.SecureEquals` | src/payment_provider.rs:958-969 | True exactly for equal byte strings |
| `EasyPay.LessMeansFirstDifference` | src/payment_provider.rs:834 | The key order is the order of strings: the first difference decides, and a proper prefix comes first |
| `EasyPay.SortSorts` | src/payment_provider.rs:834 | Sorting keeps the pairs and, for distinct keys, yields strict key order |
| `EasyPay.SortedUnique` | src/payment_provider.rs:834 | A set of pairs has only one strict order |
| `EasyPay.SigningIsCanonical` | src/payment_provider.rs:828-842 | For distinct keys the signed string depends only on the set of non-empty pairs other than sign and sign_type |
| `EasyPay.SignInputIdentifiesPairs` | src/payment_provider.rs:828-842 | Without separators inside keys and values the signed strings are equal exactly when the sets of signed pairs are |
| `EasyPay.SignInputComesApart` | src/payment_provider.rs:828-842 | What is signed is the kept pairs in strict key order as key=value, separated by &, with the merchant's key right after them |
| `EasyPay.GenerateEasyPaySign` | src/payment_provider.rs:828-842 | The loops of filtering, sorting and joining compute the hash of the signed string |
| `EasyPay.SortByKey` | src/payment_provider.rs:834 | The sorting loop computes the stable sort by key |
| `EasyPay.VerifyEasyPayNotification` | src/payment_provider.rs:100-160 | Accepted exactly if signed over its own parameters, for this pid and with a positive amount; each reason of a rejection exactly under its own condition; the accepted fields are those of the parameters; in whatever order the parameter map is walked |
| `EasyPay.ReceiverSignsTheSame` | src/payment_provider.rs:127-133 | Receiving the signed parameters in any order, with sign, sign_type and inst added, yields the string that was signed |
| `EasyPay.SignedNotificationAccepted` | src/payment_provider.rs:100-160 | Such a notification with matching pid and a positive amount is accepted with exactly its own order, trade number, amount and success flag |
| `EasyPay.SignRequest` | src/payment_provider.rs:459-479 | A payment request carries the eight fields of the order and, where they apply, client id and device, under distinct keys; its signature is over exactly these, and none of the unsigned keys is among them |
| `Validity.MonthStartStep` | src/subscription_plan.rs:209-212 | The calendar is consistent: each month starts where the one before it ends, leap years included |
| `Validity.MonthsAreBounded` | src/subscription_plan.rs:202-213 | n months are granted between 28 n and 31 n days |
| `Validity.MonthsIncrease` | src/subscription_plan.rs:202-213 | The granted days increase strictly with the number of months |
| `Validity.GrantsArePositive` | src/subscription_plan.rs:194-216 | Whatever is granted is a positive number of days |
| `Validity.GrantsExactly` | src/subscription_plan.rs:194-216 | Days and weeks are granted as such; nothing is granted exactly for a value that is not positive, an unknown unit, or months beyond 32 bits or the calendar; a renewal without a readable expiry grants no months |
| `Validity.BackendAgreesExactly` | frontend/src/lib/subscription-utils.ts:9-18 | Backend and frontend agree exactly when the target month has the start day (always for days and weeks); otherwise the backend grants fewer days, by what the month falls short, at most 3 |
| `Validity.AgreesUpToTheTwentyEighth` | frontend/src/lib/subscription-utils.ts:9-18 | They agree whenever the start day is at most 28 |
| `Validity.DisagreeOnTheTwentyNinth` | src/subscription_plan.rs:202-213 | One month from 29 January of a common year: 30 days granted, 31 shown |
| `Validity.LocalDate.SetMonth` | frontend/src/lib/subscription-utils.ts:16 | The result is a real date, the same number of days after the start of the target month |
| `Validity.ComputeShownDays` | frontend/src/lib/subscription-utils.ts:9-18 | The days shown: for months, the distance between the starts of the two months |
| `StatusToken.ParsePrint` | src/http/orders.rs:941-948 | Reading a printed 64-bit integer gives it back |
| `StatusToken.ParseDigitsExactly` | src/http/orders.rs:941-948 | A string is read as a number exactly when all its characters are digits |
| `StatusToken.ParseI64Exactly` | src/http/orders.rs:941-948 | What is read is an optional sign and at least one digit, within 64 bits, and its value |
| `StatusToken.TrimTakesSpaces` | src/http/orders.rs:929 | Trimming takes white space off both ends, all of it and nothing else |
| `StatusToken.PrintParse` | src/http/orders.rs:941-948 | Printing what was read from a numeral without superfluous zeros gives the numeral back |
| `StatusToken.TokenComesApart` | src/http/orders.rs:1022 | A token is not changed by trimming and splits at its dots into exactly its three parts |
| `StatusToken.TokenRoundTrip` | src/http/orders.rs:924-982 | A created token verifies exactly for non-negative users and at instants up to and including its expiry, for every order id and admin token |
| `StatusToken.AcceptedExactly` | src/http/orders.rs:924-961 | Any string is accepted exactly if, trimmed, it is a positive expiry not yet past, a non-negative user and the signature of the message about this order, user and expiry, spelled out letter by letter |
| `StatusToken.MessageInjective` | src/http/orders.rs:973-980 | The signed message determines order, user and expiry, whatever characters the order id has |
| `StatusToken.TokenBoundToOrder` | src/http/orders.rs:924-961 | Presented for another order a token is accepted exactly when it has not expired and two different messages have the same signature |
| `StatusToken.VerifyOrderStatusAccessToken` | src/http/orders.rs:924-961 | The checks in order, the signature compared byte by byte, accept exactly such strings |

## Left out

- Conservation.BalanceConserved: an account of days counts what was granted and taken back; that days pass, and which of several subscriptions of a user to one group a deduction meets, is part of the base.
- Guarantees.CreditedOnce: that the platform honours a recharge code once is how the platform is modelled.
- Desk.OrderDesk.ExpirePendingOrdersAt: the loop over many orders is proved without interference; under interference the sweep is the program of `Steps.SweepStep`, with `SweepCountsItsOwn` and `PaidNeverExpires`.
- Desk.OrderDesk.CreatePendingOrderAt: the configuration values are one snapshot, and order ids and recharge codes are not generated here: an id is the position of the row, a code is given and may be used already.
- Service.OrderService.PlanGrant: the administrator key, the platform client, the group, the active subscription and the plan are one answer of the environment.
- Service.OrderService.ProcessRefund: a deduction is one number of units, of cents or of days as the order type says.
- Service.OrderService.RetryRecharge: reasons are named, the texts of errors are not modelled.
- Payment.ResolvePaymentSelection: the fee rate, read from the environment as a floating-point number, is a parameter in basis points; the daily usage is a parameter.
- Validity.MonthsAreBounded: dates only; the product of weeks by seven is not bounded to 64 bits.
- EasyPay.SignedNotificationAccepted: percent-decoding of the query and the choice of the instance configuration are not modelled.
- The gateway's own treatment of repeated refund requests: every call that reaches it sends the amount, whether its answer arrives or not.
- `delete_order` (src/http/orders.rs:379), which follows a failed payment creation before the order is exposed: orders are never deleted, such an order stays as it was created.
- Combining the aggregated limits with the global limits of a method (src/payment.rs:393-475): a sequence of minima.
- Stripe signatures and requests, provider configuration, encryption, hashing, base64 and UTF-8 internals.
- The database engine: a statement is one atomic guarded step, or ends its worker, or inside a refund sends it to its error path.
- HTTP handlers, pages, locale texts, migrations, dashboards, plan and channel administration.
