/**
  The whole system as one step machine: the tables of the three services, the durable
  workflows with their local state, every activity they ever scheduled, and the
  settlement workers.

  A scheduled activity is a Task. Its attempts may be repeated, lost or arbitrarily late:
  every attempt adds its reply, and a workflow may be handed any of the replies. Retry
  restricts this to attempts that end before the activity is acknowledged.
 */
module Saga {
  import opened Domain
  import opened TicketStore
  import opened OrderStore
  import PaymentStore

  /* ---- Workflows ---- */

  /** The idempotency scope of ticket creation; operationKey is taken to be injective. */
  datatype CreationKey = Keyed(user: UserId, key: string) | Unkeyed(nonce: nat)

  /** Workflow IDs. */
  datatype FlowId =
    | CreateOrderFlow(order: OrderId)
    | CancelOrderFlow(order: OrderId)
    | ExpireOrderFlow(order: OrderId)
    | ResolvePaymentFlow(order: OrderId, outcome: PaymentStatus)
    | CreatePaymentFlow(order: OrderId, user: UserId)
    | CreateTicketFlow(key: CreationKey)
    | UpdateTicketFlow(ticket: TicketId)

  /** Where a workflow is; saved is its local variable holding an earlier activity's result. */
  datatype Flow =
    | Waiting(task: nat, saved: Option<Reply>)
    | StartingExpiry(result: Reply)
    | Sleeping(until: Time)
    | Completed(result: Reply)
    | Aborted(error: Error)
  {
    predicate Closed() { Completed? || Aborted? }
  }

  datatype Command =
    | Do(activity: Activity, saved: Reply)
    | BeginExpiry(result: Reply)
    | Finish(result: Reply)
    | Abort(error: Error)

  /** What a workflow does next when its activity answers. Every kind of reply belongs to one kind of activity. */
  function Advance(saved: Option<Reply>, reply: Reply): Command {
    match reply
    case Rejected(error) => Abort(error)
    case Reserved(_, order) => Do(ClaimTicket(order.ticket, order.id), reply)
    case Claimed =>
      if saved.Some? && saved.value.Reserved? && saved.value.created then BeginExpiry(saved.value)
      else Finish(if saved.Some? then saved.value else reply)
    case CanceledOrder(order) => Do(ReleaseTicket(order.ticket, order.id), reply)
    case Expired(order, release) =>
      if release then Do(ReleaseTicket(order.ticket, order.id), reply) else Finish(reply)
    case Resolved(order, release) =>
      if release then Do(ReleaseTicket(order.ticket, order.id), reply) else Finish(reply)
    case CheckoutStarted(o, u, price) => Do(PersistPayment(o, u, price), reply)
    case TicketStored(s) => Do(ProjectTicket(s), reply)
    case PaymentStored(_, _) => Finish(reply)
    case Released => Finish(if saved.Some? then saved.value else reply)
    case Projected => Finish(if saved.Some? then saved.value else reply)
  }

  /* ---- State ---- */

  datatype Task = Task(owner: FlowId, activity: Activity, replies: set<Reply>, last: Option<Reply>, missed: bool,
      acked: bool)

  /** ReserveTicket's open transaction on a ticket, which holds the row lock. */
  datatype ReserveTx = Locked(task: nat) | Checked(task: nat) | Inserted(task: nat)

  /** One run of the per-ticket update workflow: who holds the mutex, who waits for it. */
  datatype UpdateRun = UpdateRun(holder: Option<nat>, queue: set<EditInput>, seen: set<EditKey>, completed: nat)

  /** A payment that some settlement worker claimed, with the outcome it got back. */
  datatype SettlementClaim = SettlementClaim(payment: PaymentId, order: OrderId, outcome: PaymentStatus)

  datatype World = World(
    now: Time,
    tickets: TicketsDb,
    orders: OrdersDb,
    payments: PaymentStore.PaymentsDb,
    locks: map<TicketId, ReserveTx>,
    tasks: seq<Task>,
    flows: map<FlowId, Flow>,
    updates: map<TicketId, UpdateRun>,
    claims: set<SettlementClaim>,
    answers: set<(SettlementClaim, OrderStatus)>,
    history: History)

  const EXPIRATION_WINDOW: Time := 900
  const MAX_UPDATES_PER_WORKFLOW: nat := 100
  const FRESH_RUN := UpdateRun(None, {}, {}, 0)

  ghost predicate Init(w: World) {
    && w.tickets == TicketsDb(map[], map[])
    && w.orders == OrdersDb(map[], map[])
    && w.payments == PaymentStore.PaymentsDb(map[], map[], map[])
    && w.locks == map[] && w.tasks == [] && w.flows == map[] && w.updates == map[]
    && w.claims == {} && w.answers == {} && w.history == map[]
  }

  datatype Action =
    | StartCreateOrder(input: ReservationInput)
    | StartCancelOrder(order: OrderId, user: UserId)
    | StartCreatePayment(order: OrderId, user: UserId)
    | StartCreateTicket(key: CreationKey, creation: TicketInput)
    | RequestEdit(edit: EditInput)
    | GrantMutex(edit: EditInput)
    | Attempt(task: nat)
    | AttemptPayment(task: nat, id: PaymentId)
    | AttemptReadBack(task: nat)
    | ReserveLock(task: nat)
    | ReserveFind(ticket: TicketId, found: Option<OrderId>)
    | ReserveInsert(ticket: TicketId)
    | ReserveCommit(ticket: TicketId)
    | ReserveRollback(ticket: TicketId)
    | Deliver(flow: FlowId, reply: Reply)
    | DeliverEdit(ticket: TicketId, reply: Reply)
    | StartExpiryChild(order: OrderId)
    | FireTimer(order: OrderId)
    | ClaimPayment(payment: PaymentId, configured: PaymentStatus, until: Time, locked: set<PaymentId>)
    | CallResolve(claim: SettlementClaim)
    | AnswerWorker(claim: SettlementClaim)
    | MarkPayment(claim: SettlementClaim)
    | Tick(to: Time)

  /* ---- State updates ---- */

  function AddTask(w: World, owner: FlowId, activity: Activity): World {
    w.(tasks := w.tasks + [Task(owner, activity, {}, None, false, false)])
  }

  function SetFlow(w: World, f: FlowId, flow: Flow): World {
    w.(flows := w.flows[f := flow])
  }

  function Schedule(w: World, f: FlowId, activity: Activity, saved: Option<Reply>): World {
    SetFlow(AddTask(w, f, activity), f, Waiting(|w.tasks|, saved))
  }

  /** An attempt ran to its end and produced a reply. */
  function Answer(w: World, i: nat, reply: Reply): World
    requires i < |w.tasks|
  {
    var task := w.tasks[i];
    w.(tasks := w.tasks[i := task.(replies := task.replies + {reply}, last := Some(reply), missed := false)])
  }

  function Ack(w: World, i: nat): World
    requires i < |w.tasks|
  {
    w.(tasks := w.tasks[i := w.tasks[i].(acked := true)])
  }

  function Proceed(w: World, f: FlowId, command: Command): World {
    match command
    case Do(activity, saved) => Schedule(w, f, activity, Some(saved))
    case BeginExpiry(result) => SetFlow(w, f, StartingExpiry(result))
    case Finish(result) => SetFlow(w, f, Completed(result))
    case Abort(error) => SetFlow(w, f, Aborted(error))
  }

  predicate TicketsSide(activity: Activity) {
    activity.ClaimTicket? || activity.ReleaseTicket? || activity.PersistTicket? || activity.PersistTicketUpdate?
  }

  /** Starting a workflow ID that is still running joins it. */
  predicate CanStart(w: World, f: FlowId) {
    f in w.flows ==> w.flows[f].Closed()
  }

  /* ---- Steps ---- */

  ghost predicate StepStartCreateOrder(w: World, input: ReservationInput, w': World) {
    var f := CreateOrderFlow(input.order);
    && f !in w.flows && input.order !in w.orders.orders
    && input.expiresAt == w.now + EXPIRATION_WINDOW
    && w' == Schedule(w, f, ReserveOrder(input), None)
  }

  ghost predicate StepStart(w: World, f: FlowId, activity: Activity, w': World) {
    w' == if CanStart(w, f) then Schedule(w, f, activity, None) else w
  }

  /** REJECT_DUPLICATE: a key that was ever used joins its run; otherwise a fresh ticket ID is drawn. */
  ghost predicate StepStartCreateTicket(w: World, key: CreationKey, input: TicketInput, w': World) {
    var f := CreateTicketFlow(key);
    if f in w.flows then w' == w
    else
      && input.ticket !in w.tickets.rows
      && (forall i :: 0 <= i < |w.tasks| && w.tasks[i].activity.PersistTicket? ==>
        w.tasks[i].activity.creation.ticket != input.ticket)
      && w' == Schedule(w, f, PersistTicket(input), None)
  }

  function RunOf(w: World, t: TicketId): UpdateRun {
    if t in w.updates then w.updates[t] else FRESH_RUN
  }

  /** Update-with-start; within one run an update ID that was seen joins its handler. */
  ghost predicate StepRequestEdit(w: World, input: EditInput, w': World) {
    var run := RunOf(w, input.ticket);
    var run' := if KeyOf(input) in run.seen then run
                else run.(queue := run.queue + {input}, seen := run.seen + {KeyOf(input)});
    w' == w.(updates := w.updates[input.ticket := run'])
  }

  ghost predicate StepGrantMutex(w: World, input: EditInput, w': World) {
    var t := input.ticket;
    && t in w.updates && w.updates[t].holder == None && input in w.updates[t].queue
    && var run' := w.updates[t].(holder := Some(|w.tasks|), queue := w.updates[t].queue - {input});
       w' == AddTask(w, UpdateTicketFlow(t), PersistTicketUpdate(input)).(updates := w.updates[t := run'])
  }

  /** One attempt of a Tickets activity, or the first statement of a two-statement Orders operation. */
  ghost predicate StepAttempt(w: World, i: nat, w': World) {
    && i < |w.tasks|
    && var activity := w.tasks[i].activity;
       if TicketsSide(activity) then
         var (db, reply) := Perform(w.tickets, activity);
         w' == Answer(w.(tickets := db, history := Record(w.history, TicketOf(activity), w.tickets, db)), i, reply)
       else if TwoStatement(activity) then
         var (db, reply) := Update(w.orders, w.now, activity);
         if reply.Some? then w' == Answer(w.(orders := db), i, reply.value)
         else w' == w.(tasks := w.tasks[i := w.tasks[i].(missed := true, last := None)])
       else false
  }

  ghost predicate StepReadBack(w: World, i: nat, w': World) {
    && i < |w.tasks| && w.tasks[i].missed && TwoStatement(w.tasks[i].activity)
    && var reply := ReadBack(w.orders, w.tasks[i].activity);
       reply.Some? && w' == Answer(w, i, reply.value)
  }

  ghost predicate StepAttemptPayment(w: World, i: nat, id: PaymentId, w': World) {
    && i < |w.tasks| && w.tasks[i].activity.PersistPayment?
    && PaymentStore.IndexOk(w.payments) && id !in w.payments.payments
    && var PersistPayment(o, u, price) := w.tasks[i].activity;
       var (db, reply) := PaymentStore.Create(w.payments, id, o, PaymentStore.OrderCopy(u, price, AwaitingPayment));
       w' == Answer(w.(payments := db), i, reply)
  }

  /** SELECT ... FOR UPDATE on the projected ticket. A new attempt supersedes the reply of an earlier one. */
  ghost predicate StepReserveLock(w: World, i: nat, w': World) {
    && i < |w.tasks| && w.tasks[i].activity.ReserveOrder?
    && var t := w.tasks[i].activity.reservation.ticket;
       if t !in w.orders.projection then w' == Answer(w, i, Rejected(TicketNotFound))
       else
         && t !in w.locks
         && w' == w.(locks := w.locks[t := Locked(i)], tasks := w.tasks[i := w.tasks[i].(last := None)])
  }

  ghost predicate HoldsLock(w: World, t: TicketId) {
    t in w.locks && w.locks[t].task < |w.tasks| && w.tasks[w.locks[t].task].activity.ReserveOrder?
  }

  ghost predicate StepReserveFind(w: World, t: TicketId, found: Option<OrderId>, w': World) {
    && HoldsLock(w, t) && w.locks[t].Locked?
    && FindsBlocking(w.orders, t, found)
    && var i := w.locks[t].task;
       if found == None then w' == w.(locks := w.locks[t := Checked(i)])
       else w' == Answer(w.(locks := w.locks - {t}), i,
                         BlockedReply(w.orders.orders[found.value], w.tasks[i].activity.reservation.user))
  }

  ghost predicate StepReserveInsert(w: World, t: TicketId, w': World) {
    && HoldsLock(w, t) && w.locks[t].Checked?
    && w.tasks[w.locks[t].task].activity.reservation.order !in w.orders.orders
    && w' == w.(locks := w.locks[t := Inserted(w.locks[t].task)])
  }

  /** The inserted key stays reserved until commit, so no other row can have taken it. */
  ghost predicate StepReserveCommit(w: World, t: TicketId, w': World) {
    && HoldsLock(w, t) && w.locks[t].Inserted?
    && var i := w.locks[t].task;
       var input := w.tasks[i].activity.reservation;
       && input.order !in w.orders.orders
       && var db := w.orders.(orders := w.orders.orders[input.order := NewOrder(input)]);
          w' == Answer(w.(orders := db, locks := w.locks - {t}), i, Reserved(true, NewOrder(input)))
  }

  ghost predicate StepReserveRollback(w: World, t: TicketId, w': World) {
    t in w.locks && w' == w.(locks := w.locks - {t})
  }

  ghost predicate StepDeliver(w: World, f: FlowId, reply: Reply, w': World) {
    && f in w.flows && w.flows[f].Waiting?
    && var i := w.flows[f].task;
       && i < |w.tasks| && reply in w.tasks[i].replies
       && w' == Proceed(Ack(w, i), f, Advance(w.flows[f].saved, reply))
  }

  /** The update handler: persist, then project, then unlock; 100 completed edits continue as new. */
  ghost predicate StepDeliverEdit(w: World, t: TicketId, reply: Reply, w': World) {
    && t in w.updates && w.updates[t].holder.Some?
    && var run := w.updates[t];
       var i := run.holder.value;
       && i < |w.tasks| && reply in w.tasks[i].replies
       && var acked := Ack(w, i);
          match reply
          case TicketStored(s) =>
            w' == AddTask(acked, UpdateTicketFlow(t), ProjectTicket(s))
                    .(updates := w.updates[t := run.(holder := Some(|w.tasks|))])
          case Projected =>
            var run' := run.(holder := None, completed := run.completed + 1);
            w' == acked.(updates :=
              w.updates[t := if run'.completed >= MAX_UPDATES_PER_WORKFLOW then FRESH_RUN else run'])
          case _ =>
            w' == acked.(updates := w.updates[t := run.(holder := None)])
  }

  ghost predicate StepStartExpiryChild(w: World, o: OrderId, w': World) {
    var f := CreateOrderFlow(o);
    && f in w.flows && w.flows[f].StartingExpiry? && w.flows[f].result.Reserved?
    && var order := w.flows[f].result.order;
       var child := ExpireOrderFlow(order.id);
       && CanStart(w, child)
       && w' == SetFlow(SetFlow(w, f, Completed(w.flows[f].result)), child, Sleeping(order.expiresAt))
  }

  ghost predicate StepFireTimer(w: World, o: OrderId, w': World) {
    var f := ExpireOrderFlow(o);
    && f in w.flows && w.flows[f].Sleeping? && w.flows[f].until <= w.now
    && w' == Schedule(w, f, ExpireOrder(o), None)
  }

  ghost predicate StepClaimPayment(w: World, p: PaymentId, configured: PaymentStatus, until: Time,
      locked: set<PaymentId>, w': World) {
    && configured != Pending && PaymentStore.NextPending(w.payments, w.now, locked, p)
    && var db := PaymentStore.Claim(w.payments, p, configured, until);
       w' == w.(payments := db,
                claims := w.claims + {SettlementClaim(p, db.payments[p].order, db.payments[p].outcome.value)})
  }

  ghost predicate StepCallResolve(w: World, c: SettlementClaim, w': World) {
    && c in w.claims
    && StepStart(w, ResolvePaymentFlow(c.order, c.outcome), ResolvePayment(c.order, c.outcome), w')
  }

  ghost predicate StepAnswerWorker(w: World, c: SettlementClaim, w': World) {
    var f := ResolvePaymentFlow(c.order, c.outcome);
    && c in w.claims && f in w.flows && w.flows[f].Completed? && w.flows[f].result.Resolved?
    && w' == w.(answers := w.answers + {(c, w.flows[f].result.order.status)})
  }

  ghost predicate StepMarkPayment(w: World, c: SettlementClaim, w': World) {
    && PaymentStore.IndexOk(w.payments)
    && ExpectedOrderStatus(c.outcome).Some? && (c, ExpectedOrderStatus(c.outcome).value) in w.answers
    && w' == w.(payments := PaymentStore.MarkResolved(w.payments, c.payment, c.outcome))
  }

  ghost predicate Step(w: World, a: Action, w': World) {
    match a
    case StartCreateOrder(input) => StepStartCreateOrder(w, input, w')
    case StartCancelOrder(o, u) => StepStart(w, CancelOrderFlow(o), CancelOrder(o, u), w')
    case StartCreatePayment(o, u) => StepStart(w, CreatePaymentFlow(o, u), StartOrderPayment(o, u), w')
    case StartCreateTicket(key, input) => StepStartCreateTicket(w, key, input, w')
    case RequestEdit(input) => StepRequestEdit(w, input, w')
    case GrantMutex(input) => StepGrantMutex(w, input, w')
    case Attempt(i) => StepAttempt(w, i, w')
    case AttemptPayment(i, id) => StepAttemptPayment(w, i, id, w')
    case AttemptReadBack(i) => StepReadBack(w, i, w')
    case ReserveLock(i) => StepReserveLock(w, i, w')
    case ReserveFind(t, found) => StepReserveFind(w, t, found, w')
    case ReserveInsert(t) => StepReserveInsert(w, t, w')
    case ReserveCommit(t) => StepReserveCommit(w, t, w')
    case ReserveRollback(t) => StepReserveRollback(w, t, w')
    case Deliver(f, reply) => StepDeliver(w, f, reply, w')
    case DeliverEdit(t, reply) => StepDeliverEdit(w, t, reply, w')
    case StartExpiryChild(o) => StepStartExpiryChild(w, o, w')
    case FireTimer(o) => StepFireTimer(w, o, w')
    case ClaimPayment(p, configured, until, locked) => StepClaimPayment(w, p, configured, until, locked, w')
    case CallResolve(c) => StepCallResolve(w, c, w')
    case AnswerWorker(c) => StepAnswerWorker(w, c, w')
    case MarkPayment(c) => StepMarkPayment(w, c, w')
    case Tick(to) => w.now <= to && w' == w.(now := to)
  }

  /* ---- Runs ---- */

  /** ws are the states and acts the steps between them. */
  ghost predicate Run(ws: seq<World>, acts: seq<Action>) {
    && |ws| == |acts| + 1
    && Init(ws[0])
    && forall i :: 0 <= i < |acts| ==> Step(ws[i], acts[i], ws[i + 1])
  }
}
