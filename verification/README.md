# Booking money lifecycle: a Dafny model

A flight booking is paid through a card gateway, ordered at a supplier, and possibly cancelled and refunded. Many
actors drive one booking at once: the customer, an admin, the payment webhook worker, the order call, the supplier's
`order.created` webhook, the reconciliation sweep, the expiry sweep and the refund workers. This project models the
rows they share and the steps they take, and proves what holds in every interleaving. Around it stand the smaller
algorithms the lifecycle leans on.

Check it with `dafny verify dfyconfig.toml`.

## How it is modelled

- `Records` holds the rows of one booking as a value (`Rows`) and as the class `Tables` that the service methods
  update in place. Each method is proved against a function on `Rows`; a throw inside a transaction is a rollback.
- `Transactions.Apply` gathers every transaction on one booking. One transaction is one atomic step.
- `Lifecycle` is the transition system: `Next` takes a step, `Run` a sequence of them. Calls to the supplier and the
  gateway lie between transactions; what a process read before its call is kept in a `Flight` and may be stale.
  A gateway call that ends in an error may still have moved the money.
- `Consistency` proves one invariant of the rows for each transaction, `EveryRun` lifts it to runs and reads the
  safety results off it, `Conservation` adds the assumptions under which the books balance, and `RefundBounds` gives
  the exact conditions for the bounds that do not hold unconditionally.
- `Milestones` says, status by status and exactly, what makes a booking enter it.
- `PaymentWebhooks` puts many bookings, event rows and lossy job queues around it and proves the pipeline a
  refinement of applying each event once. `PaymentWebhooks.EveryBookingIsReachable` carries all single-booking
  results over to it. `ProcessedEvents` says exactly which events are acted on, `UniqueIds` which ids are used once.
- `GatewayExposure`, `DoublePayment`, `SecondOrders` and `SupplierOrders` say exactly when money moves twice, a booking
  is paid twice, it is ordered twice, and a refunded booking gets an order after all. `FulfilmentJobs` bounds the
  orders by the gateway transactions that paid.
- `OrderCreation` and `OrderScan` are the order call, the scan of the supplier's listing and the sweep's decision.
  `GatewayAmounts` and `Money` are the two money conversions. `PassengerMatching`, `InfantLinks`, `Pagination`,
  `TokenBucket` and `RefreshTokens` are cores of their own.

A run in `Conservation` is plain when it ends with at most one CustomerPayment, no manual refund and no adjustment,
and at most one supplier cancellation, which returned between 0 and the base amount. All of these are read off logs
that only grow, so they held all along.

## Where the code promises more than it keeps

The model follows the code; these are proved as exact conditions or counterexamples.

- `retryRefund` puts a failed row back without re-checking the balance, so committed refunds can exceed the payment
  (`RefundBounds.AlwaysWithinIffRetriesFit`, `RefundBounds.RetryCanOverRefund`).
- The comment on `executeRefund` says retries can never double-refund. Recording happens once, but the gateway is
  called before the locked re-check and nothing remembers an unrecorded call. The money moves twice when executions
  overlap, when a call that erred had moved it and the job is retried alone, and when a row is given up while its call
  is out and then retried (`RefundBounds.OverlappingExecutionsPayTwice`, `GatewayExposure.ErringCallPaysTwice`,
  `GatewayExposure.GivenUpCallPaysTwice`; from the start in `GatewayExposure.PayingTwiceIsReachable`). The exact
  condition is `GatewayExposure.PaysAtMostOnceIffLaunchedUnexposed`.
- The admin path says a cancellation must commit no matter what, since the supplier has already cancelled. It is
  rolled back when the refund row does not fit (`Cancellation.CommitsExactlyWhenTheRefundFits`,
  `RefundBounds.AdminCancellationCanBeLost`). The customer path says that whatever keeps the refund row from being
  created fails before the supplier is called; the balance is not among what it checks then
  (`RefundBounds.CustomerCancellationCanBeLost`).
- A second succeeded gateway transaction on a booking that is still paid writes a second CustomerPayment
  and queues a second order call (`DoublePayment.PaidTwiceIffCapturedWhilePaid`,
  `DoublePayment.TwoTransactionsPayTwice`).
- `docs/booking_state_machine.md:100` says never to post an order again, and `order-fulfillment.processor.ts:36-44`
  swallows errors so that a job is not retried. But a fulfilment job only looks whether the booking is paid, and a
  booking whose first call was lost still is: after a second capture the second job orders again
  (`SecondOrders.LostAnswerThenSecondJob`, `SecondOrders.TwoCallsTwoOrders`). The exact condition is
  `SecondOrders.OrdersAtMostOnceIffNothingAsked`; one gateway transaction and jobs that run once are enough
  (`FulfilmentJobs.OrdersWithinPayments`).
- Reconciliation counts its 15 minutes from the payment, not from the start of the order call. A call that starts more
  than 363 seconds after it can be out while the listing is read, and a refunded booking then gets an order
  (`OrderCreation.OverBeforeTheSweepIffStartedInTime`, `SupplierOrders.RefundedWithAnOrder`). The 363 seconds are exact
  over whole runs (`SupplierOrders.NeverRefundsAnOrderIffInTime`), and `SupplierOrders.NeverOrderedIffNothingOut` is
  the exact condition at the moment of giving up.
- Revoking a token family, on reuse or because the user is deactivated, does not stop a rotation that has claimed and
  not yet issued (`RefreshTokens.ReuseEndsTheFamilyIffNothingInFlight`,
  `RefreshTokens.DeactivationEndsTheFamilyIffNothingInFlight`).
- A pagination cursor carries milliseconds while the column keeps microseconds, so rows can be lost at a page boundary
  (`Pagination.PagesCoverTheListing`, `Pagination.SameMillisecondIsLost`).
- Nothing keeps two infants from naming one adult; then one of them reaches the supplier without an adult
  (`InfantLinks.AllInfantsCarriedIffNoneShared`, `InfantLinks.TwoInfantsOneAdult`).
- Partial refunds of a currency with a fractional rate need not add up to the charge
  (`GatewayAmounts.DriftsExactlyUnlessWhole`, `GatewayAmounts.HalvesCanExceedTheCharge`).
- `docs/booking_state_machine.md:96` keeps a booking in paid on HTTP 202; the code takes any 2xx as success
  (`OrderCreation.AcceptedIsNotOrdered`, `OrderCreation.SuccessMeansOneOrderUnlessAccepted`). Where `Honest` is
  required of the supplier, a 202 is taken to have created the order too.

## Model

| member | source | states |
|---|---|---|
| `Records.Tables.constructor` | app/Backend/src/bookings/services/booking-state-machine.service.ts:107-121 | A new booking is pending, with the opening history row and nothing else |
| `Records.Tables.CreateEntry` | app/Backend/src/ledger/services/ledger.service.ts:24-53 | Appends one ledger row and changes no other |
| `BookingStateMachine.TransitionTo` | app/Backend/src/bookings/services/booking-state-machine.service.ts:39-102 | Refines `Transition`: same status is a no-op, a legal edge changes the status and appends one history row, anything else throws and leaves the rows alone |
| `BookingStateMachine.ChainIsBounded` | app/Backend/src/bookings/services/booking-state-machine.service.ts:11-32 | A chain of legal edges is never longer than the rank of its last status, so a booking has at most six history rows |
| `BookingStateMachine.ChainVisitsEachRankOnce` | app/Backend/src/bookings/services/booking-state-machine.service.ts:11-32 | Two statuses of one rank exclude each other: a booking is confirmed or order_failed, never both |
| `BookingStateMachine.ChainPassedPaid` | app/Backend/src/bookings/services/booking-state-machine.service.ts:11-32 | The current status alone decides whether the history went through paid |
| `BookingStateMachine.TransitionKeepsChain` | app/Backend/src/bookings/services/booking-state-machine.service.ts:61-95 | Every transition extends the linked chain and moves the count of exactly the entered status |
| `RefundExecution.SumCommittedRefunds` | app/Backend/src/bookings/services/refund-execution.service.ts:276-285 | The loop computes the sum of pending and succeeded amounts |
| `RefundExecution.SumSucceededRefunds` | app/Backend/src/bookings/services/refund-execution.service.ts:267-273 | The loop computes the sum of succeeded amounts |
| `RefundExecution.CreatePendingRefund` | app/Backend/src/bookings/services/refund-execution.service.ts:74-125 | Refines `CreatePending`: the four rejections change nothing, else exactly one pending row is added |
| `RefundExecution.CreatePendingReserves` | app/Backend/src/bookings/services/refund-execution.service.ts:105-122 | A created row raises the committed sum by its amount and leaves it within the payment |
| `RefundExecution.BeginExecution` | app/Backend/src/bookings/services/refund-execution.service.ts:139-166 | The unlocked read: only a pending row with its payment goes on to the gateway, a settled one reports not executed |
| `RefundExecution.RecordExecution` | app/Backend/src/bookings/services/refund-execution.service.ts:175-248 | Refines `Record`: re-read under the lock, row, ledger entry, payment rollup and, when covered, the booking move to refunded; reports executed even when the row changed meanwhile, and fully refunded exactly when this recording covers the payment; a gateway refund id of another row rolls it back |
| `RefundExecution.RecordMovesReservedMoney` | app/Backend/src/bookings/services/refund-execution.service.ts:191-221 | Recording commits nothing more, takes the amount out of the ledger, and makes the payment refunded if and only if succeeded refunds cover it, else partially refunded |
| `RefundExecution.MarkRefundFailed` | app/Backend/src/bookings/services/refund-execution.service.ts:255-265 | Only a pending row is given up |
| `RefundExecution.RetryRefund` | app/Backend/src/admin/services/admin.service.ts:512-537 | Only a failed row goes back to pending; a succeeded one is refused; the balance is not looked at |
| `RefundExecution.SetRefundStatusShiftsCommitment` | app/Backend/src/bookings/services/refund-execution.service.ts:255-259 | Giving up or retrying a row frees or reserves exactly its amount |
| `FulfillmentOutcome.ConfirmPaidBooking` | app/Backend/src/bookings/services/fulfillment-outcome.service.ts:60-109 | Refines `Confirm`: nothing unless paid; else order columns, status, one charge of minus the base amount and every document of the order |
| `FulfillmentOutcome.FailPaidBookingAndRefund` | app/Backend/src/bookings/services/fulfillment-outcome.service.ts:116-157 | Refines `FailAndRefund`: nothing unless paid; else order_failed and the full refund row |
| `FulfillmentOutcome.CreateFullRefund` | app/Backend/src/bookings/services/fulfillment-outcome.service.ts:235-271 | A full refund row if the payment can take it, and no change otherwise |
| `Cancellation.CommitCancellation` | app/Backend/src/bookings/services/bookings.service.ts:771-813 | Refines `Commit` for both paths: status, refund row and supplier entry commit together or not at all |
| `Cancellation.CommitsExactlyWhenTheRefundFits` | app/Backend/src/admin/services/admin.service.ts:282-317 | When a refund row is wanted, the cancellation commits if and only if the booking is confirmed or cancelled, the payment is refundable and the amount fits beside the committed refunds |
| `Checkout.SubmitPassengers` | app/Backend/src/bookings/services/bookings.service.ts:291-324 | Which error each refused submission gets; the transition to failed on an expired offer is rolled back by the throw after it, and only a valid submission for a valid offer moves a pending booking on |
| `Checkout.CreateOrGetPaymentAttempt` | app/Backend/src/payments/services/payments.service.ts:67-199 | An expired offer is committed as failed before the error; the one payment carries the booking total; a gateway error undoes the payment |
| `Checkout.CapturePayment` | app/Backend/src/payments/queues/payment-webhook.processor.ts:178-202 | Paid, payment succeeded and one CustomerPayment entry together; an illegal transition changes nothing |
| `Consistency.CaptureConsistent` | app/Backend/src/payments/queues/payment-webhook.processor.ts:178-202 | Each capture keeps the invariant and adds one CustomerPayment, also on a booking that is already paid |
| `Consistency.ConfirmConsistent` | app/Backend/src/bookings/services/fulfillment-outcome.service.ts:60-109 | Confirming keeps the invariant of the rows |
| `Consistency.FailAndRefundConsistent` | app/Backend/src/bookings/services/fulfillment-outcome.service.ts:116-157 | Failing and refunding keeps the invariant of the rows |
| `Consistency.CommitConsistent` | app/Backend/src/bookings/services/bookings.service.ts:777-813 | A committed cancellation keeps the invariant of the rows |
| `Consistency.RecordConsistent` | app/Backend/src/bookings/services/refund-execution.service.ts:175-239 | Recording keeps one gateway entry per succeeded refund row and none for others |
| `Consistency.ApplyConsistent` | app/Backend/src/bookings/services/fulfillment-outcome.service.ts:60-157 | Every transaction, in any order, keeps the invariant: history chain, payment, ledger and refunds agree |
| `EveryRun.EveryRunIsSound` | app/Backend/src/bookings/services/fulfillment-outcome.service.ts:34-40 | The invariant holds after any interleaving of all actors, with stale reads, repeated jobs and failed calls |
| `EveryRun.ApplyVisitsConfirmed` | app/Backend/src/bookings/services/fulfillment-outcome.service.ts:67-85 | Confirmations are counted by the confirming paths that found the booking paid, and by nothing else |
| `EveryRun.HistoryInEveryRun` | app/Backend/src/bookings/services/expiry-sweep.service.ts:50-70 | In every run the history is a chain of at most six rows, a CustomerPayment exists if and only if it passed paid, and an expired booking holds no captured money |
| `EveryRun.PaidIsLeftOnce` | app/Backend/src/bookings/services/fulfillment-outcome.service.ts:60-157 | In every run SupplierCharge entries equal paid-to-confirmed rows and are at most one, each minus the base amount; at most that many emails; never beside an automatic refund |
| `EveryRun.WinnerKeepsItsDocuments` | app/Backend/src/bookings/services/fulfillment-outcome.service.ts:96-103 | Documents and order columns are those of the winning path alone, whatever runs before and after it |
| `EveryRun.RefundIsRecordedOnce` | app/Backend/src/bookings/services/refund-execution.service.ts:175-239 | In every run succeeded is absorbing, each succeeded row has exactly one gateway entry and was called for, and those entries sum to minus the succeeded refunds |
| `EveryRun.RefundedIsCovered` | app/Backend/src/bookings/services/refund-execution.service.ts:207-238 | In every run, manual refunds and retries included, a refunded booking has succeeded refunds of at least its total |
| `EveryRun.BalanceLaw` | app/Backend/src/ledger/services/ledger.service.ts:122-152 | The ledger sum is total times payments minus base times charges plus supplier refunds minus succeeded refunds plus adjustments |
| `Milestones.RefundAcceptedIffItFits` | app/Backend/src/bookings/services/refund-execution.service.ts:74-125 | A refund row is accepted exactly when money was captured and the positive amount fits beside what is pending or returned; the payment's status adds nothing to that |
| `Milestones.StatusMoves` | app/Backend/src/bookings/services/booking-state-machine.service.ts:39-102 | Which step moves a booking into which status, told from the step, the current status and what its process knows |
| `Milestones.StatusIsEnteredExactlySo` | app/Backend/src/bookings/services/expiry-sweep.service.ts:50-70 | In every run a booking has been in a status if and only if a step that leads there met it before: submission of valid passengers for a valid offer, expiry of a pending or unpaid booking, capture of an unpaid one, an order found, an order refused, a committed cancellation, a completing refund |
| `Milestones.NotEnteredAgain` | app/Backend/src/bookings/services/booking-state-machine.service.ts:61-95 | And it happens at one step of the run only |
| `Milestones.RefusedCheckoutChangesNothing` | app/Backend/src/bookings/services/bookings.service.ts:291-324 | A submission with an expired offer or invalid input, or made too late, leaves every row as it was, and so does a failing gateway |
| `Milestones.PaymentIffAttempted` | app/Backend/src/payments/services/payments.service.ts:97-132 | A payment row exists if and only if some attempt on a valid offer reached the gateway while the booking awaited payment; an expired one creates none |
| `Milestones.AnswerDecides` | app/Backend/src/bookings/services/order-fulfillment.service.ts:81-108 | Whoever asked the supplier, a booking still paid is confirmed with the order found, given up on a refusal, and left alone otherwise |
| `Milestones.ManualRefundAcceptedIffItFits` | app/Backend/src/admin/services/admin.service.ts:399-412 | In every run a manual refund adds its row exactly when the captured money allows it and changes nothing otherwise |
| `Milestones.CancellationStartsIff` | app/Backend/src/bookings/services/bookings.service.ts:737-777 | In every run an admin may cancel exactly a confirmed booking, a customer only while its payment is not marked refunded |
| `Milestones.AdjustmentMovesTheBalance` | app/Backend/src/ledger/services/ledger.service.ts:24-53 | An adjustment moves the ledger sum by its amount and nothing else |
| `Milestones.OneEmailPerConfirmation` | app/Backend/src/bookings/services/order-fulfillment.service.ts:114-129 | In every run one more email step brings the emails sent to the number of confirmations |
| `Conservation.CancelShape` | app/Backend/src/bookings/services/bookings.service.ts:771-813 | In a plain run the one granted cancellation is never rejected and leaves exactly its refund row |
| `Conservation.RecordShape` | app/Backend/src/bookings/services/refund-execution.service.ts:175-239 | Recording the one refund row moves the booking to refunded exactly when it covers the payment |
| `Conservation.MoneyIsConserved` | app/Backend/src/bookings/services/bookings.service.ts:768-813 | Ledger sum in every plain run: total while paid or order_failed, markup while confirmed, markup plus supplier refund while cancelled and unrefunded, 0 once refunded |
| `Conservation.GrantedCancellationCommits` | app/Backend/src/bookings/services/bookings.service.ts:777-813 | In a plain run a cancellation the supplier granted always commits, on either path, with a refund row of supplier refund plus markup |
| `Conservation.FullFareEndsRefunded` | app/Backend/src/bookings/services/refund-execution.service.ts:223-238 | A cancelled booking whose refund is recorded is refunded if and only if the supplier returned the whole base amount |
| `RefundBounds.StepStaysWithinIffRetryFits` | app/Backend/src/admin/services/admin.service.ts:530-537 | Any step keeps committed refunds within the payment if and only if it is not a retry that no longer fits |
| `RefundBounds.AlwaysWithinIffRetriesFit` | app/Backend/src/bookings/services/refund-execution.service.ts:105-122 | Over a whole run the bound holds throughout if and only if every retry in it fits |
| `RefundBounds.RetryCanOverRefund` | app/Backend/src/admin/services/admin.service.ts:530-537 | Counterexample for every positive amount: a run with one retry refunds twice what was paid, each refund recorded under a gateway id of its own |
| `RefundBounds.AdminCancellationCanBeLost` | app/Backend/src/admin/services/admin.service.ts:282-317 | Counterexample for every positive fare: the supplier has cancelled and returned it, yet the rejected refund row rolls the cancellation back |
| `RefundBounds.CustomerCancellationCanBeLost` | app/Backend/src/bookings/services/bookings.service.ts:737-777 | Counterexample for every positive fare: the customer path checks the payment status but not its balance before it calls the supplier, and loses the cancellation the same way |
| `RefundBounds.SerialExecutionsPayOnce` | app/Backend/src/bookings/queues/refund-execution.processor.ts:48-67 | A sufficient policy: if executions of a row wait for each other, failed calls move nothing and refund ids are unique, the gateway moves its money at most once in any run |
| `RefundBounds.OverlappingExecutionsPayTwice` | app/Backend/src/bookings/services/refund-execution.service.ts:148-191 | Two overlapping executions move the money twice and record it once |
| `GatewayExposure.NextExposure` | app/Backend/src/bookings/services/refund-execution.service.ts:148-173 | Calls that moved a row's money plus calls that are still out grow by one with each launched execution and by nothing else |
| `GatewayExposure.CanPayTwiceIffExposed` | app/Backend/src/bookings/services/refund-execution.service.ts:148-173 | Gateway answers alone can bring a row to two payments if and only if that number is at least two |
| `GatewayExposure.PaysAtMostOnceIffLaunchedUnexposed` | app/Backend/src/bookings/services/refund-execution.service.ts:132-191 | In every run, no refund row can ever move its money twice if and only if each of its executions is launched with nothing moved and nothing out |
| `GatewayExposure.ErringCallPaysTwice` | app/Backend/src/bookings/queues/refund-execution.processor.ts:48-67 | Counterexample without overlap: a call errs after it moved the money, the job is retried alone, and the money moves again |
| `GatewayExposure.GivenUpCallPaysTwice` | app/Backend/src/bookings/services/refund-execution.service.ts:251-265 | Counterexample: a row given up while its call is out is not recorded, and a retry moves the money again |
| `GatewayExposure.PayingTwiceIsReachable` | app/Backend/src/bookings/services/refund-execution.service.ts:148-191 | For every positive amount there are runs from the start in which one manual refund moves its money twice in each of the three ways, two of them without overlapping executions |
| `PaymentWebhooks.WebhookTables.HandleWebhook` | app/Backend/src/payments/webhooks.controller.ts:60-99 | Refines `Deliver`: a known key is a duplicate, a new one inserts the row and may queue a job |
| `PaymentWebhooks.WebhookTables.Process` | app/Backend/src/payments/queues/payment-webhook.processor.ts:52-237 | Refines `ProcessEvent`: the branches, what each leaves unprocessed, and the job queued after the commit |
| `PaymentWebhooks.WebhookTables.Sweep` | app/Backend/src/payments/services/payment-webhook-sweep.service.ts:25-58 | Finds exactly the stale unprocessed events and queues those the queue accepts |
| `PaymentWebhooks.SweepInto` | app/Backend/src/payments/services/payment-webhook-sweep.service.ts:45-57 | The loop over the stale events adds each accepted one to the queue exactly once |
| `PaymentWebhooks.PipelineRefinesIdeal` | app/Backend/src/payments/queues/payment-webhook.processor.ts:64-222 | Every run of deliveries, lost, repeated and swept jobs has the bookings, payments, ledgers and attempts of a run that applies each event where it is marked |
| `PaymentWebhooks.EachEventAppliedOnce` | app/Backend/src/payments/queues/payment-webhook.processor.ts:77-83 | In that run no event occurs twice, and those that occur are the processed ones |
| `PaymentWebhooks.SweptEventIsApplied` | app/Backend/src/payments/services/payment-webhook-sweep.service.ts:25-58 | From any state one sweep and one job mark an unprocessed event and apply exactly its effect, if and only if the event can be resolved; otherwise they change nothing |
| `PaymentWebhooks.SweepBringsBack` | app/Backend/src/payments/services/payment-webhook-sweep.service.ts:25-58 | A sweep adds one job for each unprocessed event it finds and none for others |
| `PaymentWebhooks.EventRowsStay` | app/Backend/src/payments/queues/payment-webhook.processor.ts:214-216 | The payload applied is the first delivered for its key, and a processed row never changes |
| `PaymentWebhooks.EveryBookingIsReachable` | app/Backend/src/payments/queues/payment-webhook.processor.ts:162-204 | Every booking of the whole system is a run of the single-booking model, so all results above hold of it |
| `PaymentWebhooks.CapturesAreProcessedEvents` | app/Backend/src/payments/queues/payment-webhook.processor.ts:195-236 | CustomerPayment entries are exactly the processed succeeded events of a booking; one gateway transaction pays once; a fulfilment job names a booking that moved to paid |
| `ProcessedEvents.MarkedExactlyWhenAcceptable` | app/Backend/src/payments/queues/payment-webhook.processor.ts:64-222 | An event is marked if and only if it needs no action, or leads to a payment through an attempt and, when succeeded, reports the right amount for a booking awaiting payment or paid; any other leaves the whole system unchanged |
| `ProcessedEvents.WrongAmountChangesNothing` | app/Backend/src/payments/queues/payment-webhook.processor.ts:166-176 | A succeeded transaction that reports another amount pays nothing, marks nothing and queues nothing |
| `ProcessedEvents.EveryCaptureIsInFull` | app/Backend/src/payments/queues/payment-webhook.processor.ts:162-202 | In every run each capture of a booking is an event that came through an attempt of that booking and reported its whole total in the gateway's currency |
| `ProcessedEvents.EveryAttemptHasItsPayment` | app/Backend/src/payments/services/payments.service.ts:134-175 | In every run each attempt leads to its booking and a payment of it; a refused one leaves none |
| `ProcessedEvents.AttemptStatusIsTold` | app/Backend/src/payments/queues/payment-webhook.processor.ts:186-212 | In every run an attempt requires action if and only if no processed event decided it, and a succeeded or failed one has a processed event that says so |
| `ProcessedEvents.DeliveredEventIsApplied` | app/Backend/src/payments/webhooks.controller.ts:60-99 | A new event whose first job runs is settled at once or left for the sweep |
| `UniqueIds.IdsAreUnique` | app/Backend/src/database/migrations/1751900000000-CreatePaymentTables.ts:86-95 | In every run no two bookings hold one supplier order and no two refunds, of one or two bookings, one gateway refund id |
| `DoublePayment.SecondCaptureIffStillPaid` | app/Backend/src/payments/queues/payment-webhook.processor.ts:178-202 | Of the captures that commit, exactly those that find the booking already paid write a second CustomerPayment |
| `DoublePayment.PaidTwiceIffCapturedWhilePaid` | app/Backend/src/payments/queues/payment-webhook.processor.ts:178-202 | In every run a booking has at least two CustomerPayment entries if and only if some capture found it paid |
| `DoublePayment.PaidTwiceIsReachable` | app/Backend/src/payments/queues/payment-webhook.processor.ts:178-202 | Such a run exists for every amount |
| `DoublePayment.TwoTransactionsPayTwice` | app/Backend/src/payments/queues/payment-webhook.processor.ts:162-236 | Counterexample in the whole system: two succeeded transactions pay one booking twice and queue two fulfilment jobs for it |
| `GatewayAmounts.ConversionIsMonotone` | app/Backend/src/payments/services/paymob.service.ts:60-70 | A part never converts to more than the whole |
| `GatewayAmounts.RefundDriftIsBounded` | app/Backend/src/bookings/services/refund-execution.service.ts:168-173 | n converted refunds differ from the converted sum by less than (n+1)/2 units |
| `GatewayAmounts.DriftsExactlyUnlessWhole` | app/Backend/src/payments/services/paymob.service.ts:40-70 | Refunds always add up if and only if the currency has a whole-number rate |
| `GatewayAmounts.CurrenciesThatDrift` | app/Backend/src/payments/services/paymob.service.ts:40-60 | The currencies whose refunds need not add up are exactly SAR, AED, QAR, BHD, JOD, CAD, JPY, INR and TRY |
| `GatewayAmounts.CaseDoesNotMatter` | app/Backend/src/payments/services/paymob.service.ts:54-70 | Currency codes that differ in case only convert alike |
| `GatewayAmounts.RatesAreBounded` | app/Backend/src/payments/services/paymob.service.ts:40-70 | No currency converts below the yen or above the Kuwaiti dinar |
| `GatewayAmounts.UnlistedCountsAsDollars` | app/Backend/src/payments/services/paymob.service.ts:40-60 | A currency outside the table converts as dollars do |
| `GatewayAmounts.HalvesCanExceedTheCharge` | app/Backend/src/payments/services/paymob.service.ts:54-70 | Two halves of 4 yen return 2 at the gateway, more than was charged there |
| `Money.ParsingUndoesPrinting` | app/Backend/src/duffel/duffel.service.ts:881-891 | Parsing a printed amount returns it, for every integer and every currency |
| `Money.OrderRepeatsTheTotalIffCanonical` | app/Backend/src/duffel/duffel.service.ts:881-891 | Printing a parsed total returns the string if and only if it is written in the form of its currency |
| `Money.ReadingIsNearest` | app/Backend/src/duffel/duffel.service.ts:881-885 | A total with other decimals reads as the nearest minor unit, halves upwards |
| `Money.OneInMinorUnits` | app/Backend/src/duffel/duffel.service.ts:881-905 | One unit reads as 1, 1000 or 100 minor units, by exactly the listed currencies |
| `OrderCreation.CreateOrder` | app/Backend/src/duffel/duffel.service.ts:355-450 | At most four posts, the next only after a 503; outcome by the last reply; time is the sum of posts and waits |
| `OrderCreation.OutcomeTellsTheOrders` | app/Backend/src/duffel/duffel.service.ts:399-449 | With an honest supplier: rejected means no order, success exactly one, ambiguous at most one |
| `OrderCreation.SettlesBeforeTheSweep` | app/Backend/src/duffel/duffel.service.ts:355-394 | Counted from its own start an honest call takes at most 537 s, less than the 900 s window |
| `OrderCreation.OverBeforeTheSweepIffStartedInTime` | app/Backend/src/bookings/services/duffel-reconciliation.service.ts:42-49 | Every honest call is over before the sweep may look at its booking if and only if it starts within 363 s of the payment |
| `OrderCreation.AcceptedIsNotOrdered` | app/Backend/src/duffel/duffel.service.ts:399-404 | Counterexample: HTTP 202 is classified as an order although none need exist |
| `OrderCreation.SuccessMeansOneOrderUnlessAccepted` | app/Backend/src/duffel/duffel.service.ts:399-404 | With a supplier that promises nothing for 202, a success status stands for exactly one order in every call if and only if it is not 202; that other success statuses do is nearly what is assumed of the supplier, the content is that 202 does not |
| `OrderCreation.ConclusionIsWhatTheAnswerProves` | app/Backend/src/duffel/duffel.service.ts:399-449 | A last answer is definite if and only if it is no 503 and no call ending so has created an order; it is an order if and only if it could be read and stands for one (or is a 202); unreadable it is unexpected; anything else is ambiguous |
| `OrderCreation.PostsAreSpaced` | app/Backend/src/duffel/duffel.service.ts:355-394 | The second, third and fourth post come after waits of 2, 7 and 17 s in sum |
| `OrderScan.FindOrder` | app/Backend/src/duffel/duffel.service.ts:461-521 | The loop equals searching the concatenation of all pages it may read, with the three endings and the error |
| `OrderScan.FindIsFirst` | app/Backend/src/duffel/duffel.service.ts:490-494 | A returned order is the first match in listing order; none means nothing matches |
| `OrderScan.CapMeansEveryPage` | app/Backend/src/duffel/duffel.service.ts:497-507 | An incomplete result comes only after exactly the maximum number of pages |
| `OrderScan.ScanOfServedListing` | app/Backend/src/duffel/duffel.service.ts:461-507 | On a listing that stands still the scan is a search of its first pages; absence is reported if and only if these are the whole list |
| `OrderScan.ReconcileBooking` | app/Backend/src/bookings/services/duffel-reconciliation.service.ts:77-115 | Refines `Decide` on the scan with the booking's key |
| `OrderScan.RefundsOnlyProvenAbsence` | app/Backend/src/bookings/services/duffel-reconciliation.service.ts:103-114 | The sweep refunds if and only if the list was read to its end without the key |
| `OrderScan.LeavesOnlyTheUnknown` | app/Backend/src/bookings/services/duffel-reconciliation.service.ts:103-108 | The sweep leaves a booking only after a failed request or at the page cap |
| `OrderScan.TwoThousandOrdersAreRead` | app/Backend/src/duffel/duffel.service.ts:461-507 | Without the key in a still listing the sweep refunds if and only if there are at most 2000 orders |
| `OrderScan.ResolutionMatchesTheSupplier` | app/Backend/src/bookings/services/order-fulfillment.service.ts:81-108 | For one call that is over when the sweep reads a still listing: confirmed only with an order at the supplier, refunded only without one, and settled whenever the listing fits the scan |
| `SupplierOrders.NeverOrderedIffNothingOut` | app/Backend/src/bookings/services/duffel-reconciliation.service.ts:110-114 | A booking given up stays without an order in every continuation if and only if at that moment the supplier had created none and no order call was out |
| `SupplierOrders.RefundedWithAnOrder` | app/Backend/src/bookings/services/duffel-reconciliation.service.ts:42-49 | Counterexample with honest answers: the listing is read while an order call is out, the booking is given up and refunded, and then the order is created |
| `SupplierOrders.InTimeNeverRefundsAnOrder` | app/Backend/src/bookings/services/duffel-reconciliation.service.ts:42-49 | In every honest run with one order call that starts within 363 s of the payment, a booking that was given up has no order at the supplier and no call out |
| `SupplierOrders.LateRunOrders` | app/Backend/src/bookings/services/duffel-reconciliation.service.ts:42-49 | From the start, for every booking, an honest run that pays, calls late, is given up and is ordered after all |
| `SupplierOrders.NeverRefundsAnOrderIffInTime` | app/Backend/src/bookings/services/duffel-reconciliation.service.ts:42-49 | For every booking and every bound d: no honest, clocked run from the start with one order call started within d of the payment leaves an order behind a given-up booking, if and only if d is at most 363 s |
| `SecondOrders.CanOrderTwiceIffTwoTickets` | app/Backend/src/bookings/services/order-fulfillment.service.ts:81-90 | What the supplier may still create brings a booking to two orders if and only if its orders and its calls still out are at least two |
| `SecondOrders.OrdersAtMostOnceIffNothingAsked` | app/Backend/src/bookings/queues/order-fulfillment.processor.ts:36-44 | In every run, no prefix can reach two orders if and only if each job that finds the booking paid starts its call with no order created and no call out |
| `SecondOrders.LostAnswerThenSecondJob` | app/Backend/src/bookings/services/order-fulfillment.service.ts:49-90 | Counterexample from the start with honest answers and no two calls out at once: the answer of the first call is lost, a second capture queues a second job, and that job orders again |
| `SecondOrders.TwoCallsTwoOrders` | app/Backend/src/bookings/services/order-fulfillment.service.ts:35-90 | Counterexample with overlapping calls: two jobs that both find a booking paid create two orders |
| `FulfilmentJobs.JobsAreCaptures` | app/Backend/src/payments/queues/payment-webhook.processor.ts:214-236 | In every run of the system a booking gets at most one fulfilment job per processed succeeded event, whatever is redelivered, repeated or swept |
| `FulfilmentJobs.TicketsWithinJobRuns` | app/Backend/src/bookings/services/order-fulfillment.service.ts:35-90 | In every run of the system the orders of a booking and its calls still out are no more than its job runs |
| `FulfilmentJobs.OrdersWithinPayments` | app/Backend/src/payments/queues/payment-webhook.processor.ts:214-236 | If no job runs twice, a booking has no more orders than CustomerPayment entries, and at most one with one gateway transaction |
| `PassengerMatching.GroupByType` | app/Backend/src/bookings/services/bookings.service.ts:73-82 | The typed queues and the spares are the offer passengers of each kind in order |
| `PassengerMatching.AssignSupplierPassengerIds` | app/Backend/src/bookings/services/bookings.service.ts:84-93 | The loop that shifts ids off the queues gives every input the id of its slot, or fails at the first input without one |
| `PassengerMatching.SlotsClimb` | app/Backend/src/bookings/services/bookings.service.ts:84-93 | Slots are distinct and climb within a type and among the spares |
| `PassengerMatching.GreedySucceedsExactlyWhenPossible` | app/Backend/src/bookings/services/bookings.service.ts:48-94 | Greedy matching succeeds if and only if some matching by the supplier's own labels exists (adult, child, infant or infant_without_seat for their type, any other label for anybody), if and only if shortages fit the untyped passengers |
| `PassengerMatching.AssignmentSucceedsExactlyWhenPossible` | app/Backend/src/bookings/services/bookings.service.ts:69-94 | The same for the ids returned, which are those of an injective, type-compatible matching |
| `PassengerMatching.RefusedInputIsTheFirst` | app/Backend/src/bookings/services/bookings.service.ts:84-93 | The input named in the error is the first with which the submission cannot be paired any more |
| `PassengerMatching.PairingIsPermutation` | app/Backend/src/bookings/services/bookings.service.ts:69-94 | With equal lengths a matching uses every offer passenger |
| `InfantLinks.SavePassengers` | app/Backend/src/bookings/services/bookings.service.ts:361-441 | Adults and children first, infants after; passenger i has id i and its adult's row; the first bad infant is reported |
| `InfantLinks.MissingPapers` | app/Backend/src/bookings/services/bookings.service.ts:343-359 | Finds the first passenger without a complete document, where the offer demands one |
| `InfantLinks.EveryPassengerIsSent` | app/Backend/src/bookings/services/order-fulfillment.service.ts:162-211 | Every passenger is sent with its own id and columns, and its document if and only if that is complete |
| `InfantLinks.OnlyPassengersAreSent` | app/Backend/src/bookings/services/order-fulfillment.service.ts:162-211 | Nobody else is sent |
| `InfantLinks.SentInfantIsOnItsAdult` | app/Backend/src/bookings/services/order-fulfillment.service.ts:182-194 | Whoever is sent with an infant is the adult that infant was saved with |
| `InfantLinks.AllInfantsCarriedIffNoneShared` | app/Backend/src/bookings/services/order-fulfillment.service.ts:165-194 | All infants reach the supplier on their adults if and only if no adult has two |
| `InfantLinks.FirstReadIsCarried` | app/Backend/src/bookings/services/order-fulfillment.service.ts:182-194 | Of the infants of one adult the one read first is carried |
| `InfantLinks.TwoInfantsOneAdult` | app/Backend/src/bookings/services/order-fulfillment.service.ts:182-194 | Counterexample: two infants of one adult are saved and not both carried |
| `Pagination.GetBookings` | app/Backend/src/bookings/services/bookings.service.ts:466-503 | Returns the page of the sorted listing the cursor leads to; only limit 0 with rows left fails |
| `Pagination.QueryIsRest` | app/Backend/src/bookings/services/bookings.service.ts:471-492 | The filtered query equals what is left of the sorted listing behind the cursor |
| `Pagination.SortSorts` | app/Backend/src/bookings/services/bookings.service.ts:475-476 | The order is total on rows with distinct ids and sorting keeps them all |
| `Pagination.PagesCoverTheListing` | app/Backend/src/bookings/services/bookings.service.ts:494-503 | Following cursors ends, repeats nothing, and gives the whole listing if and only if every page boundary survives the cut to milliseconds; whole-millisecond tables always do |
| `Pagination.SameMillisecondIsLost` | app/Backend/src/bookings/services/bookings.service.ts:500-502 | Counterexample: of two bookings of one millisecond the second is never listed |
| `TokenBucket.OutboundBucket.Check` | app/Backend/src/flights/flights.service.ts:138-178 | Refines `Admits` and `AfterCheck`: a rejected call writes nothing |
| `TokenBucket.LazyDecidesAsTicking` | app/Backend/src/flights/flights.service.ts:146-171 | Every call gets the decision of a bucket refilled every millisecond |
| `TokenBucket.WindowIsBounded` | app/Backend/src/bookings/services/bookings.service.ts:975-1011 | In any window of T ms at most 100 + T/500 calls of both services get through |
| `TokenBucket.BoundIsAttained` | app/Backend/src/flights/flights.service.ts:20-22 | The bound is reached for every T |
| `RefreshTokens.TokenTable.ClaimToken` | app/Backend/src/auth/services/token.service.ts:116-124 | The conditional update tells exactly the caller that changed the row |
| `RefreshTokens.TokenTable.IssueRefreshToken` | app/Backend/src/auth/services/token.service.ts:178-198 | Adds one live token of the family |
| `RefreshTokens.TokenTable.RevokeRefresh` | app/Backend/src/auth/services/token.service.ts:160-167 | Logout revokes the one token |
| `RefreshTokens.TokenTable.RevokeFamilyTokens` | app/Backend/src/auth/services/token.service.ts:210-218 | Revokes every token of the family and touches no other |
| `RefreshTokens.OneTokenPerFamily` | app/Backend/src/auth/services/token.service.ts:66-155 | In every run live tokens plus claimed, unissued rotations of a family are at most one |
| `RefreshTokens.EachTokenRotatesOnce` | app/Backend/src/auth/services/token.service.ts:116-124 | In every run each token is claimed by at most one rotation |
| `RefreshTokens.SpentStaysSpent` | app/Backend/src/auth/services/token.service.ts:66-218 | Once both counts are 0 a family never has a live token again |
| `RefreshTokens.RotationReplacesItsToken` | app/Backend/src/auth/services/token.service.ts:116-155 | Presenting a live token spends it and issues one new live token of its family, or none when its user is not active |
| `RefreshTokens.ReplayRevokesTheFamily` | app/Backend/src/auth/services/token.service.ts:116-136 | In any state, presenting a spent token leaves its family without a live token and every other family as it was |
| `RefreshTokens.LogoutEndsTheFamily` | app/Backend/src/auth/services/token.service.ts:160-167 | In every run a logout with a live token ends its family for good |
| `RefreshTokens.AbandoningEndsTheFamily` | app/Backend/src/auth/services/token.service.ts:138-149 | So does a rotation that claims its token and issues none |
| `RefreshTokens.ReuseEndsTheFamilyIffNothingInFlight` | app/Backend/src/auth/services/token.service.ts:126-136 | Revocation on reuse ends the family for good if and only if no rotation of it is between claim and issue |
| `RefreshTokens.DeactivationEndsTheFamilyIffNothingInFlight` | app/Backend/src/admin/services/admin.service.ts:149-154 | Deactivating the user ends a family for good if and only if no rotation of it is between claim and issue |
| `RefreshTokens.ReplayCanLeaveATokenAlive` | app/Backend/src/auth/services/token.service.ts:116-149 | Counterexample: a replayed token's family is revoked, and the winner's token is live afterwards |

## Left out

- The web application, controllers other than the gateway callback, validation, guards, mail, PDF, logging and metrics (metric writes inside the order call take no time and do not fail).
- HMAC, JWT, hashing and OAuth: verified input is taken as given.
- Supplier and gateway transport: their answers are nondeterministic parameters, `OrderCreation.Honest` and `SupplierOrders.Honest` are the assumptions made of them, and only where a lemma requires them.
- Isolation below whole transactions: one transaction is one atomic step. The locks do not give that everywhere: a manual refund locks no booking, payment or refund row (`admin.service.ts:399-412`, `refund-execution.service.ts:78-106`), and recording locks only its own refund row (`refund-execution.service.ts:177-184`). The refund bound and the rollup are proved for serialised transactions.
- Floating point: rates are exact hundredths, bucket levels exact five-hundredths of a token, amounts exact decimals.
- 32-bit integer columns: amounts are unbounded, and base and markup amounts are non-negative.
- History columns for who and why, notes on ledger entries, audit rows, currencies of single entries: copied, never read by the logic modelled.
- The cancellation quote and the two cancellation-request columns: they only decide whether a customer request goes to an admin, and any caller may start either path in the model.
- A cancellation of a confirmed booking without an order id: `Consistency.Consistent` excludes it.
- Failed lookups of a booking, payment or snapshot that no step deletes, and access checks on them.
- The exact list of documents an order result is mapped from: an order carries its documents.
- Attempt counting of refund jobs, their backoff, and the batch size of the requeue sweep: in the model a row may be executed, given up and requeued at any time, which allows every such schedule.
- Job queue internals: a queued job may run any number of times or vanish.
- The event rows of the supplier webhook: a delivery is a step that may repeat at any time.
- The age thresholds of the sweeps, except the reconciliation window, and the time between the fulfilment job's read of the booking and its first post.
- OrderScan.ResolutionMatchesTheSupplier: one call that is over and a listing that stands still; calls still out while the listing is read are in `SupplierOrders`.
- RefundBounds.SerialExecutionsPayOnce: a sufficient policy the code does not follow; the exact condition is `GatewayExposure.PaysAtMostOnceIffLaunchedUnexposed`.
- FulfilmentJobs.OrdersWithinPayments: assumes that the queue runs no fulfilment job twice; without that the bound is `FulfilmentJobs.TicketsWithinJobRuns`.
- A supplier listing that changes between two requests is covered by `OrderScan.FindOrder`; `OrderScan.ScanOfServedListing` and `OrderScan.ResolutionMatchesTheSupplier` assume one that stands still. In the life of a booking a scan reads the orders the supplier has when it answers.
- Base64 and text form of cursors, and invalid cursors, which are ignored.
- UUID order of booking ids: ids are numbers.
- How a submission of passengers is valid is one flag in `Checkout.SubmitPassengers`; what decides it is proved separately in `PassengerMatching` and `InfantLinks`, apart from the comparison of the two lengths.
- Exponents, leading white space and infinities in an amount string, which the supplier does not send.
- Case folding outside ASCII letters in currency codes.
- Empty supplier passenger ids: `PassengerMatching.AssignmentSucceedsExactlyWhenPossible` takes them as non-empty, `InfantLinks.SentInfantIsOnItsAdult` as distinct too.
- Deactivating a user revokes all families at once; in the model it is one step per family. Whether a rotation finds its user active is a free choice of the rotation.
- Expiry dates of refresh tokens: a live token is one that is not revoked; a rotation refused for expiry is an abandoned one.
- Atomicity of the bucket: reading and writing the stored level are one step, and time does not run backwards.
- The search cache, schedule-change diffing, retention jobs, support tickets, list endpoints and the per-address limit: easy members or outside the protocol.
