# Reservation, checkout and ticket edits: a verified model

Three services each own their tables: Tickets (source rows, the reservation claim, the ledger of
idempotent edits), Orders (orders and a projection of every ticket) and Payments (payments with a
settlement lease and a write-once processor outcome). Durable workflows connect them through
activities that are attempted at least once, and leased settlement workers run beside the workflows.
No service can see another's tables, so who holds a ticket, which outcome of a payment wins and how
far the projection lags are properties of the whole system. This project states and proves them.

## How the model is built

- **Tables.** `TicketStore`, `OrderStore` and `PaymentStore` give every repository operation as a
  function of the tables. Operations of Orders that issue a conditional UPDATE and then a separate
  SELECT are given statement by statement, next to the atomic operation they stand for.
- **Repositories.** `Tickets`, `Orders` and `Payments` are classes over the same tables, updated in
  place, each method proved equal to its function.
- **Workflows as programs.** `Reservations`, `TicketWorkflows` and `Settlement` are the workflows, the
  update handler and the settlement worker as straight-line programs over the repositories, with
  their effect stated outright.
- **The step machine.** `Saga` interleaves everything: one step per SQL statement or locked
  transaction step, per acknowledgment, timer, workflow start, worker action and clock tick. A
  scheduled activity keeps the set of all replies its attempts ever produced, so attempts may be
  repeated, lost or arbitrarily late (*strong faults*). `Retry` restricts this to attempts made
  before the acknowledgment, which carries the last attempt's reply (*ordinary retries*). A *careful*
  run of ordinary retries claims a free ticket for a Canceled order only while some workflow is bound
  to release it, or for the creating workflow that will start one. A *tidy* run of ordinary retries
  does not attempt a stored edit again while its ticket is claimed. A *lag run* only has to attempt
  nothing after its acknowledgment and to drop no stored edit; every tidy run is one.
- **Proof.** `Evolution` is a transitive relation between earlier and later states, `Invariant` the
  inductive invariant, and `Preservation.StepKeeps` proves both for every step under strong faults.
  `Frames` says which steps touch what. `Theorems` and `Expiry` draw the conclusions over runs of
  any length under strong faults. `NoLeak` and `Lag` add the two properties that the code does not
  always keep, each with the exact condition under which a run keeps it. `Progress` says which
  workflows can always go on.
- **Witnesses.** `Paths` builds runs step by step, and `Witnesses` and `OldKeys` run the system from
  empty tables into each state that breaks a property.

`dafny verify dfyconfig.toml` checks the project.

## What the code does not keep

- A comment on `StartPayment` (`apps/orders/internal/order/postgres_repository.go:198-200`) says that
  replays return the same snapshot. They read the projection again:
  `OrderStore.CheckoutReplayRepeatsPriceIff` says exactly when the price repeats, and
  `OrderStore.CheckoutReplayCanChangePrice` gives an input where it does not. What Payments stores is
  still written once (`Theorems.ChargedPriceWasPublished`).
  If the claim was held and the projection had caught up when checkout took effect, every reply
  repeats the price (`Theorems.CheckoutRepeatsPrice`).
- An old edit key is refused as a projection conflict when Orders is past the version after it. Within
  one run of the update workflow a repeated update ID joins its handler, so this takes a run that has
  continued as new: `OldKeys.OldKeyRefused` gets there by a hundred edits and a repetition of the first
  (`Theorems.ProjectionAcceptedIff` and `TicketWorkflows.UpdateTicketWorkflow.Handle` say exactly when).
- Cancel, expiry, checkout and resolution on an order that appears between their two statements can
  report an order as unfit that the operation would have matched. `OrderStore.LooksAtomicIff` says
  exactly when the two statements look atomic; `OrderStore.CancelOfAbsentOrderIsNotAtomic` is an input
  and `Witnesses.SplitCancelReached` a run where they do not.
- A `ReserveOrder` activity repeated after its reply was lost answers Created = false while its order is
  open, and fails on its own primary key at every retry once that order was canceled and nothing else
  blocks the ticket (`OrderStore.ReservationRetryAnswersIff`, `Progress.NeverAnswered`; reached by
  `Witnesses.SupersededReached`).
- A request that was told Created = false may claim for the order after it was canceled and released,
  and then nothing releases the ticket (`NoLeak.JoinedClaimLeaks`; `Witnesses.LeakReached` ends with
  every workflow finished and the Canceled order holding the ticket). This is the only way to leak
  under ordinary retries: a run leaks nothing if and only if it is careful (`NoLeak.NoLeakIff`, step by
  step `NoLeak.LeaksExactly`).
- A stored edit that is attempted again after its reply was lost, and after a claim came, is refused;
  its handler gives up and the projection stays behind (`Lag.ClaimBetweenLeavesLag`, reached by
  `Witnesses.LagReached`). Dropping a stored edit is the only way to lag: where nothing is attempted
  after its acknowledgment, the bound on the lag holds if and only if no stored edit is dropped
  (`Lag.ProjectionLagIff`, step by step `Lag.LagsExactly`).
- Both parts of ordinary retries are needed. `Witnesses.StaleReplyLeaks` leaks by an older reply,
  `Witnesses.LateAttemptLeaks` by an attempt after the acknowledgment, and `Witnesses.LateEditLags`
  makes the projection lag by such an attempt.
- `apps/api-gateway/test/orders.integration-spec.ts:197-208` expects an overdue Created order to stop
  blocking its ticket. The query at `apps/orders/internal/order/postgres_repository.go:67-82` keeps it
  blocking, and so does the model.

## Model

| member | source | states |
|---|---|---|
| `Theorems.ClaimRetention` | apps/orders/internal/reservation/workflow.go:77-127 | Over any run with strong faults, a claim and the whole claimed row stay until the claiming order is Canceled; a Complete order that holds its claim never loses it. |
| `Theorems.CreateOrderContract` | apps/orders/internal/reservation/workflow.go:40-72 | From the acknowledgment of its claim on, and in every later state, the ticket is claimed by the workflow's order or that order is Canceled, and title, price and version are those at acknowledgment while it is not. |
| `Theorems.AcknowledgedOrdersNeverShare` | apps/orders/internal/reservation/workflow.go:40-72 | Two different acknowledged orders that are not Canceled never share a ticket. |
| `Theorems.ReferenceChain` | apps/orders/internal/reservation/activities.go:31-37 | Claims name orders of that ticket, payments name orders, orders name projected tickets, projected tickets have source rows; claiming and releasing never answer NotFound. |
| `Theorems.OneBlockingOrder` | apps/orders/internal/order/postgres_repository.go:67-98 | In every reachable state at most one order blocks a ticket, so the blocking query has one possible answer. |
| `Theorems.SplitReservationIsAtomic` | apps/orders/internal/order/postgres_repository.go:19-65 | The reservation transaction split into lock, find, insert and commit, interleaved with anything: each of its steps shows nothing or is one atomic ReserveTicket. |
| `Theorems.StatusChanges` | apps/orders/internal/order/postgres_repository.go:134-143 | A status changes only by one legal step, through the one activity entitled to it. |
| `Theorems.OneWinner` | apps/orders/internal/order/postgres_repository.go:208-220 | Of all cancel, expire and checkout attempts on an order at most one takes effect, of all resolutions at most one; a started checkout is never undone by cancel or expiry. |
| `Theorems.TwoStatementsLinearize` | apps/orders/internal/order/postgres_repository.go:130-168 | In any run, an operation whose UPDATE missed at one step and whose SELECT ran at a later one got the atomic operation's reply at some instant between them. |
| `Theorems.LedgerBijection` | apps/tickets/internal/ticket/postgres_repository.go:111-194 | The ledger rows of a ticket correspond one to one with versions 2 up to the current one and hold their snapshots; the version is one plus their number; the current row is the newest snapshot. |
| `Theorems.EditReplayRepeats` | apps/tickets/internal/ticket/postgres_repository.go:145-159 | Two successful edits with the same ticket, user and key return the same snapshot, whatever their bodies and whatever came between. |
| `Theorems.NoEditWhileClaimed` | apps/tickets/internal/ticket/postgres_repository.go:123-143 | From the moment a ticket is claimed until the claiming order is Canceled, every attempt to edit it changes nothing and is refused, also the replay of an edit that succeeded before, and its versions and ledger rows stay those of that moment. |
| `Theorems.ProjectionAgreement` | apps/orders/internal/order/projection.go:16-48 | Every projected title, price and version is exactly the source's snapshot at that version, never ahead of it; versions never go back and equal versions mean equal data. |
| `Theorems.ProjectionMovesByOne` | apps/orders/internal/order/projection.go:18-30 | After its first insert a projection moves by exactly one version at a time. |
| `Theorems.NoSameVersionConflict` | apps/orders/internal/order/projection.go:39-47 | The conflict of equal version and different data cannot arise. |
| `Theorems.ProjectionAcceptedIff` | apps/orders/internal/order/projection.go:18-48 | A scheduled projection is accepted exactly for the projected version or the next one, refused exactly for older ones, and out of order exactly beyond the next. |
| `Theorems.CreationReplay` | apps/tickets/internal/creation/activities.go:24-34 | Repeating a successful creation at any later time changes nothing and returns the same version-1 snapshot, which is the source's true version 1; the repetition is never refused. |
| `Theorems.OneTicketPerKey` | apps/tickets/internal/creation/coordinator.go:32-54 | All creation attempts under one user and key belong to one scheduled activity and so to one ticket, while the run is retained. |
| `Theorems.SettlementAgreement` | apps/payments/internal/payment/worker.go:47-75 | Payments, their order copies and Orders agree in every reachable state; resolutions in flight carry the stored outcome and are never refused; no worker is told a conflicting status. |
| `Theorems.OnePaymentPerOrder` | apps/payments/internal/payment/postgres_repository.go:20-95 | An order has at most one payment, forever the same; its owner always finds it, also after settlement, and every stored reply names it. |
| `Theorems.ClaimsRepeatOutcome` | apps/payments/internal/payment/postgres_repository.go:97-137 | All claims of one payment, by any worker with any configured outcome, return the first claim's outcome. |
| `Theorems.FirstClaimDecides` | apps/payments/internal/payment/postgres_repository.go:97-137 | A payment claimed while it has no outcome has the claiming worker's configured outcome in every later state; its status is Pending or that outcome, and its order awaits payment or is Complete for a success and Canceled for a failure. |
| `Theorems.LeasesDoNotOverlap` | apps/payments/internal/payment/postgres_repository.go:107-136 | Two claims of one payment are separated by database time reaching the end of the earlier lease. |
| `Theorems.ChargedPriceWasPublished` | apps/payments/internal/payment/postgres_repository.go:29-37 | The price stored for an order never changes and is the price of some published version of its ticket. |
| `Theorems.ChargedPriceIsSourcePrice` | apps/orders/internal/order/postgres_repository.go:198-246 | If the claim was held and the projection had caught up when checkout took effect, the price stored for the order is forever the source row's price at that moment, and the source row is unchanged while the order is not Canceled. |
| `Theorems.CheckoutRepeatsPrice` | apps/orders/internal/order/postgres_repository.go:198-246 | Under the same condition every reply that any checkout of the order ever gets, first or replayed, carries that price. |
| `Theorems.ResultsStayTrue` | apps/orders/internal/reservation/workflow.go:45-127 | What a finished workflow reported about its order, ticket or payment stays true in every later state. |
| `Preservation.StepKeeps` | apps/orders/internal/reservation/workflow.go:45-127 | Every step of every service, workflow, worker and clock keeps the invariant and the forward relation, under strong faults. |
| `Expiry.DeadlineIsKept` | apps/orders/internal/reservation/workflow.go:90-110 | Every order whose creation reported Created = true has an expiry workflow from then on, and when that has ended the order is no longer Created. |
| `Expiry.ExpiryStartsOnce` | apps/orders/internal/reservation/workflow.go:58-71 | The expiry child's workflow ID is free whenever creation starts it, and the child watches the order that creation inserted. |
| `Expiry.OrderAsRequested` | apps/orders/internal/order/postgres_repository.go:100-125 | From its request on, an order under the drawn ID is the requested one in everything but its status, with a deadline 15 minutes after the request. |
| `Expiry.FullWindow` | apps/orders/internal/order/order.go:18 | No expiry cancels an order before 15 minutes have passed since its request. |
| `Expiry.EarlyLookEndsWatch` | apps/orders/internal/order/postgres_repository.go:152-167 | An expiry workflow that looks at a Created order ends without effect exactly when the database thinks that the deadline has not come. |
| `Retry.WaitsReachable` | apps/tickets/internal/creation/update_workflow.go:35-50 | In every reachable state each unacknowledged activity is awaited by exactly the workflow, or the mutex holder, that scheduled it. |
| `NoLeak.NoLeakedClaim` | apps/orders/internal/reservation/workflow.go:45-127 | On a careful run, whenever a Canceled order still holds a ticket, a workflow of that order is bound to release it, even when the cancel overtook the claim. |
| `NoLeak.NoLeakAtRest` | apps/orders/internal/reservation/workflow.go:45-110 | On a careful run, with no workflow running, no Canceled order holds a claim. |
| `NoLeak.JoinedClaimLeaks` | apps/orders/internal/reservation/workflow.go:49-57 | From every state where a free ticket may still be claimed for a Canceled order that nobody watches, by a workflow that was told Created = false, one ordinary step leaks. |
| `NoLeak.LeaksExactly` | apps/orders/internal/reservation/workflow.go:45-127 | A step of ordinary retries keeps every claim of a Canceled order covered if and only if it is not a claim of a free ticket for a Canceled, uncovered order by anyone but its waiting creator. |
| `NoLeak.NoLeakIff` | apps/orders/internal/reservation/workflow.go:45-127 | A run of ordinary retries keeps every claim of a Canceled order covered in all its states if and only if all its steps meet that guard. |
| `Witnesses.LeakReached` | apps/orders/internal/reservation/workflow.go:49-72 | From empty tables a run of ordinary retries ends with every workflow finished and a Canceled order holding its ticket. |
| `Witnesses.StaleReplyLeaks` | apps/orders/internal/reservation/workflow.go:74-88 | The same end is reached under the guard on claims when a workflow may be handed an older reply than the last. |
| `Witnesses.LateAttemptLeaks` | apps/orders/internal/reservation/workflow.go:74-88 | The same end is reached under the guard on claims when an activity may be attempted after its acknowledgment. |
| `Lag.ProjectionLag` | apps/tickets/internal/creation/update_workflow.go:27-60 | On every run that drops no stored edit: with the mutex free the projection is at the source version, or absent at version 1; with it held at most one version behind, or absent; across continue-as-new. |
| `Lag.LagsExactly` | apps/tickets/internal/creation/update_workflow.go:35-53 | Where nothing is attempted after its acknowledgment, a step keeps every ticket caught up or with its one new version in the holder's hands if and only if it does not give up a stored edit that is not projected. |
| `Lag.ProjectionLagIff` | apps/tickets/internal/creation/update_workflow.go:27-60 | Where nothing is attempted after its acknowledgment, a run keeps the bound for every ticket in all its states if and only if it drops no stored edit. |
| `Lag.TidyRunsKeepUp` | apps/tickets/internal/creation/update_workflow.go:35-53 | Under ordinary retries no stored edit is dropped if none is attempted again while its ticket is claimed. |
| `Lag.NeverOutOfOrder` | apps/orders/internal/order/projection.go:42-47 | On every run that drops no stored edit no scheduled projection is ever out of order, and one of the current version always succeeds. |
| `Lag.FreshEditNeverRefused` | apps/tickets/internal/creation/activities.go:62-71 | While the mutex holder projects the version its edit made current, Orders answers nothing but success, also on runs that drop edits, as long as nothing is attempted after its acknowledgment. |
| `Progress.NeverStuck` | apps/orders/internal/reservation/workflow.go:29-127 | From every state that a tidy run reaches, at most six more steps of ordinary retries carry any waiting workflow to its next delivery, unless it waits for a superseded reservation: one without an answer whose order ID is taken while nothing blocks the ticket. |
| `Progress.EditNeverStuck` | apps/tickets/internal/creation/update_workflow.go:35-53 | While the mutex of a ticket is held at most three more steps deliver the holder's next answer; while it is free every waiting edit can take it. |
| `Progress.NeverAnswered` | apps/orders/internal/order/postgres_repository.go:56-64 | A superseded reservation is never answered, however often it is retried, on any run on which nothing else comes to block the ticket. |
| `Witnesses.SupersededReached` | apps/orders/internal/order/postgres_repository.go:41-65 | A careful and tidy run from empty tables to a superseded reservation. |
| `Lag.LostReplyRepeatsIff` | apps/tickets/internal/ticket/postgres_repository.go:123-159 | An edit whose reply was lost is answered again with the same snapshot exactly if the ticket is not claimed at that moment. |
| `Lag.ClaimBetweenLeavesLag` | apps/tickets/internal/ticket/postgres_repository.go:138-158 | From every state with an edit ready and a claim awaited, four steps of ordinary retries drop the stored edit and leave the projection behind with the mutex free. |
| `Witnesses.LagReached` | apps/tickets/internal/ticket/postgres_repository.go:123-158 | From empty tables a run of ordinary retries ends with the mutex free and the projection one version behind. |
| `Witnesses.LateEditLags` | apps/tickets/internal/creation/update_workflow.go:35-53 | A careful and tidy run reaches a state where one attempt after its acknowledgment leaves the projection behind with the mutex free. |
| `OldKeys.OldKeyRefused` | apps/tickets/internal/creation/update_workflow.go:28-60 | A careful and tidy run on which an edit stored before is repeated, answered with its ledger snapshot, and refused by Orders. |
| `OrderStore.ReservationRetryAnswersIff` | apps/orders/internal/order/postgres_repository.go:41-65 | A repeated reservation never inserts twice; it gets no answer exactly while nothing blocks the ticket, and its own open order otherwise. |
| `OrderStore.TwoStatementsLookAtomic` | apps/orders/internal/order/postgres_repository.go:201-246 | For an order that exists, a missed UPDATE followed by a later SELECT answers like the atomic operation at one of the two instants. |
| `OrderStore.CancelOfAbsentOrderIsNotAtomic` | apps/orders/internal/order/postgres_repository.go:314-355 | An input, with the order's ticket projected throughout, where the order is missing at the UPDATE and the answer fits neither instant. |
| `OrderStore.LooksAtomicIff` | apps/orders/internal/order/postgres_repository.go:127-355 | For all five operations, a missed UPDATE and a later SELECT look like the atomic operation at one of the two instants if and only if the addressed row was there at the first or the UPDATE would miss at the second too. |
| `Witnesses.SplitCancelReached` | apps/orders/internal/order/postgres_repository.go:314-355 | A careful and tidy run on which Cancel answers not cancelable for an order that was absent at its UPDATE and Created at its SELECT. |
| `OrderStore.CheckoutReplayRepeatsPriceIff` | apps/orders/internal/order/postgres_repository.go:198-246 | A replayed checkout repeats the price exactly if the projected price did not change. |
| `OrderStore.CheckoutReplayCanChangePrice` | apps/orders/internal/order/postgres_repository.go:229-245 | A concrete replay that returns another price. |
| `TicketStore.PerformKeepsConsistent` | apps/tickets/internal/ticket/postgres_repository.go:20-242 | Every Tickets activity keeps the published history and the ledger in one-to-one step. |
| `Tickets.TicketRepository.Create` | apps/tickets/internal/ticket/postgres_repository.go:20-48 | Inserts version 1 or leaves the row alone, and answers the input at version 1 or a conflict of owners; fails on a price that the table forbids; keeps history and ledger in step whatever the data. |
| `Tickets.TicketRepository.UpdateWithIdempotency` | apps/tickets/internal/ticket/postgres_repository.go:111-194 | Not found, foreign, claimed, replayed, forbidden by the table or applied, in that order; an applied edit adds one version and one ledger row. |
| `Tickets.TicketRepository.ReserveForOrder` | apps/tickets/internal/ticket/postgres_repository.go:196-221 | Claims a free ticket, repeats the own claim, refuses another order's, and reports a missing ticket; changes that one claim. |
| `Tickets.TicketRepository.ReleaseOrderReservation` | apps/tickets/internal/ticket/postgres_repository.go:223-242 | Clears the claim exactly if it is this order's; fails exactly for a missing ticket. |
| `Orders.OrderRepository.FindBlockingOrder` | apps/orders/internal/order/postgres_repository.go:67-98 | Returns a Complete order of the ticket if there is one, else one that is not Canceled, in both cases with the latest deadline; none exactly when all are Canceled. |
| `Orders.OrderRepository.ReserveTicket` | apps/orders/internal/order/postgres_repository.go:19-65 | Joins the own open order, refuses, or inserts a new Created order. |
| `Orders.OrderRepository.CancelByIdAndUser` | apps/orders/internal/order/postgres_repository.go:314-355 | Cancels a Created order of its owner; otherwise reports what it finds. |
| `Orders.OrderRepository.ExpireCreatedOrder` | apps/orders/internal/order/postgres_repository.go:127-168 | Cancels an overdue Created order; reports whether a release is due. |
| `Orders.OrderRepository.StartPayment` | apps/orders/internal/order/postgres_repository.go:198-246 | Moves a Created order to AwaitingPayment and answers the projected price. |
| `Orders.OrderRepository.ResolvePayment` | apps/orders/internal/order/postgres_repository.go:248-294 | Settles an order awaiting payment, repeats the same outcome, refuses another. |
| `Orders.OrderRepository.EnsureTicketProjection` | apps/orders/internal/order/projection.go:16-53 | Inserts, applies exactly the next version, repeats the current one; conflict or out of order otherwise. |
| `Payments.PaymentRepository.Create` | apps/payments/internal/payment/postgres_repository.go:20-72 | Stores the order copy and a pending payment without outcome for an order that has none; for any other a replay returns the payment there and changes nothing. |
| `Payments.PaymentRepository.FindByOrderAndUser` | apps/payments/internal/payment/postgres_repository.go:74-95 | Finds the payment exactly for the user of the order copy. |
| `Payments.PaymentRepository.ClaimNextPending` | apps/payments/internal/payment/postgres_repository.go:97-137 | Leases the lowest unlocked pending payment without a running lease: that row keeps its outcome, or else gets exactly the configured one, and no other row changes; fails without effect exactly when the configured outcome is not terminal and would have to be written. |
| `Payments.PaymentRepository.MarkResolved` | apps/payments/internal/payment/postgres_repository.go:139-166 | Makes a pending payment with this outcome terminal, together with its order copy, Complete for a success and Canceled for a failure; otherwise, also for the outcome Pending, changes nothing and says that the payment is not pending. |
| `Reservations.ReservationService.ClaimTicket` | apps/orders/internal/reservation/activities.go:31-37 | Succeeds exactly for a free or own ticket and then changes that claim alone; says exactly when the ticket is missing or another order's. |
| `Reservations.ReservationService.ReleaseTicket` | apps/orders/internal/reservation/activities.go:69-75 | Fails exactly for a missing ticket; otherwise drops this order's claim and nothing else. |
| `Reservations.ReservationService.CreateOrderWorkflow` | apps/orders/internal/reservation/workflow.go:40-72 | Says what comes of a request for an unprojected, a taken and a free ticket, for an ID in use, and for the caller's own open order, which is joined unchanged; for a free ticket and a joined order the answer is success, not found or reserved exactly as Tickets has the row free or own, missing, or another order's. Success means that an open order of this user holds the ticket, and its expiry child is started exactly if it is new. |
| `Reservations.ReservationService.CancelOrderWorkflow` | apps/orders/internal/reservation/workflow.go:74-88 | An own Created or Canceled order is answered as Canceled and released, or as not found if its ticket is missing, and is Canceled either way; an own order past that is not cancelable, a foreign or missing one not found; nothing else changes. |
| `Reservations.ReservationService.ExpireOrderWorkflow` | apps/orders/internal/reservation/workflow.go:90-110 | Cancels exactly an overdue Created order; releases, without error, exactly a Canceled one whose ticket has a row, and fails exactly for a missing order or a Canceled one's missing ticket. |
| `Reservations.ReservationService.ResolvePaymentWorkflow` | apps/orders/internal/reservation/workflow.go:112-127 | Success means the order has the outcome's status and, for a failed payment, no claim; says of each refusal exactly when it is given, and that the order is Canceled even if a failed payment's ticket is missing. |
| `Domain.DataLimits` | apps/tickets/internal/creation/activities.go:25 | Data are valid exactly if the title trims to something and the price is from 1 to 2^53 - 1. |
| `Domain.BlankTrims` | apps/payments/internal/payment/service.go:54 | A text is blank exactly if trimming the spaces at its ends leaves nothing. |
| `TicketWorkflows.TicketService.PersistTicket` | apps/tickets/internal/creation/activities.go:24-34 | Refuses blank titles, prices out of range and missing users without touching the tables; otherwise has the effect and the reply of creation, and keeps the history in step. |
| `TicketWorkflows.TicketService.PersistTicketUpdate` | apps/tickets/internal/creation/activities.go:36-60 | Refuses invalid input and a missing key without touching the tables; otherwise has the effect and the reply of the idempotent edit, and keeps the history in step. |
| `TicketWorkflows.TicketService.CreateTicketWorkflow` | apps/tickets/internal/creation/workflow.go:22-36 | A valid new ticket ends up stored at version 1 and projected as such; an invalid one changes nothing. |
| `TicketWorkflows.UpdateTicketWorkflow.Handle` | apps/tickets/internal/creation/update_workflow.go:35-53 | For every row and projection, missing, lagging or current: what Tickets refuses changes nothing; any other edit is stored once, and its snapshot is projected exactly if first, next or equal, refused exactly if older, and keeps the mutex held, unanswered, exactly if further ahead. A caught-up ticket stays so, and its replays succeed exactly while their snapshot is current. |
| `TicketWorkflows.UpdateTicketWorkflow.Run` | apps/tickets/internal/creation/update_workflow.go:28-60 | The pending updates are served in order: each answer is the snapshot in that edit's own ledger row or its refusal, and the ledger's new keys are exactly those of the served edits that Tickets accepts, the one that holds the run included. On a caught-up ticket, accepted edits under new, distinct keys get the following versions one by one, a hundred of them at most. The run continues as new at exactly the hundredth success; a caught-up ticket stays caught up and is never left locked. |
| `Theorems.UpdateRunsStayShort` | apps/tickets/internal/creation/update_workflow.go:52-60 | In every reachable state every update run has completed less than a hundred edits. |
| `Settlement.PaymentService.CreatePaymentWorkflow` | apps/payments/internal/creation/workflow.go:24-38 | Starts checkout and stores one pending payment at the projected price, is refused without effect, or finds the payment already there and changes nothing; says exactly which, and keeps the agreement of Payments and Orders. |
| `Settlement.PaymentService.CreatePayment` | apps/payments/internal/payment/service.go:22-44 | The owner's replay returns the existing payment in whatever state it is. Without one the answer is not found exactly for a missing, foreign or unprojected order, not payable exactly for one that is Complete or Canceled, and otherwise a new pending payment, whose order then awaits payment and whose copy holds the user and the projected price. |
| `Settlement.SettlementWorker.CallResolvePayment` | apps/orders/internal/reservation/coordinator.go:70-92 | For any order and outcome: Orders applies the outcome, and releases the ticket of a failed payment, exactly if it is allowed and the request arrives, and an answered call reports it; agreement is kept whenever no payment of the order has another outcome, and then an answered call always reports the expected status. |
| `Settlement.SettlementWorker.SettleOne` | apps/payments/internal/payment/worker.go:47-75 | A round leaves the claimed payment with its stored outcome, or the worker's if it had none: settled if Orders answers, else pending under the new lease; the order is settled by the same outcome if the request arrives; nothing else changes. The missing-outcome, conflicting-status and not-pending branches are never reached. |
| `Settlement.SettlementWorker.Drain` | apps/payments/internal/payment/worker.go:34-45 | With expired leases and no new payments, as many rounds as there are pending payments leave every payment terminal, with the outcome it had or else this worker's, and matching its order. |

## Left out

- NoLeakedClaim: for careful runs; of the runs of ordinary retries exactly those keep it (`NoLeak.NoLeakIff`). A `ReserveOrder` retry after a lost reply answers Created = false, and then nobody starts the expiry child.
- NoLeakAtRest: for careful runs, as NoLeakedClaim.
- ProjectionLag: for runs that attempt nothing after its acknowledgment and drop no stored edit; of the former exactly the latter keep it (`Lag.ProjectionLagIff`).
- NeverOutOfOrder: for the runs of ProjectionLag.
- FreshEditNeverRefused: for runs that attempt nothing after its acknowledgment.
- DeadlineIsKept: the workflow timer and the database share one clock; `Expiry.EarlyLookEndsWatch` says what skew between them would do.
- TwoStatementsLookAtomic: for an order that exists at the first statement; `OrderStore.LooksAtomicIff` says what holds without that.
- NeverStuck: says that steps exist, not that they are taken; for tidy runs.
- OneTicketPerKey: while the finished run is retained; the operation key is taken to be injective.
- Drain: one worker whose calls are answered; the endless polling loop, backoff and fairness are not modelled.
- CreateOrderWorkflow: where the query could find more than one order, of which one is the caller's own and open, only the general clauses apply; no reachable state has two blocking orders (`Theorems.OneBlockingOrder`).
- Handle: each activity is attempted once here; `Lag` treats retries and interleavings. Joining a handler by its update ID is in `Saga` only.
- The workflow programs in `Reservations`, `TicketWorkflows` and `Settlement` attempt every activity once. Repetition and interleaving are in `Saga`, where workflows are program counters instead of code.
- Waiting updates of one ticket are a set: the order in which the mutex admits them is left open.
- The row lock that a projection upsert takes is not modelled against the lock of ReserveTicket, and CreatePayment in `Saga` does not look for an existing payment first; both only add behaviours.
- Orders, tickets and payments are identified by numbers; UUID syntax is not checked, and fresh IDs are assumed fresh.
- An edit's snapshot omits the user that the ledger key already names; price and title are the only data.
- Temporal, PostgreSQL and SHA-256 internals; workflow state is durable, single statements are atomic, FOR UPDATE locks rows, unique keys are enforced, and an activity scheduled together with continue-as-new does not run.
- Timeouts, backoff and the 60-second waits of callers: a retry is a repetition, a caller that gives up is not a step.
- The API gateway and Identity, gRPC and proto mapping, error texts and field validation codes; only whether an error ends a workflow is kept.
- `repository.Update` of Tickets, which no service calls; lists, single lookups and parsing of the configured outcome.
