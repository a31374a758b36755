/** Which steps of the machine can touch which service's tables. */
module Frames {
  import opened Domain
  import opened TicketStore
  import opened OrderStore
  import opened Saga
  import PaymentStore

  /* ---- Attempts ---- */

  /** Which activity a step attempts, if it is a step of an attempt. */
  function Attempted(w: World, a: Action): Option<nat> {
    match a
    case Attempt(i) => Some(i)
    case AttemptPayment(i, _) => Some(i)
    case AttemptReadBack(i) => Some(i)
    case ReserveLock(i) => Some(i)
    case ReserveFind(t, _) => if t in w.locks then Some(w.locks[t].task) else None
    case ReserveInsert(t) => if t in w.locks then Some(w.locks[t].task) else None
    case ReserveCommit(t) => if t in w.locks then Some(w.locks[t].task) else None
    case _ => None
  }

  /** Only the record of attempts at task i changed. */
  ghost predicate OnlyAttempts(w: World, w': World, i: nat) {
    && w'.flows == w.flows && w'.updates == w.updates && |w'.tasks| == |w.tasks|
    && (forall k :: 0 <= k < |w.tasks| && k != i ==> w'.tasks[k] == w.tasks[k])
    && (i < |w.tasks| ==>
         && w'.tasks[i].owner == w.tasks[i].owner && w'.tasks[i].activity == w.tasks[i].activity
         && w'.tasks[i].acked == w.tasks[i].acked
         && (w'.tasks[i].last.Some? ==> w'.tasks[i].last.value in w'.tasks[i].replies || w'.tasks[i] == w.tasks[i]))
  }

  /** Steps of attempts, of workers and of the clock. */
  predicate AttemptLike(a: Action) {
    a.Attempt? || a.AttemptPayment? || a.AttemptReadBack? || a.ReserveLock? || a.ReserveFind? || a.ReserveInsert?
    || a.ReserveCommit? || a.ReserveRollback? || a.ClaimPayment? || a.AnswerWorker? || a.MarkPayment? || a.Tick?
  }

  lemma {:induction false} AttemptShape(w: World, a: Action, w': World)
    requires Step(w, a, w') && AttemptLike(a)
    ensures OnlyAttempts(w, w', if Attempted(w, a).Some? then Attempted(w, a).value else |w.tasks|)
  {
    hide OnlyAttempts, StepAttempt, StepReadBack, StepAttemptPayment, StepReserveLock, StepReserveFind,
         StepReserveInsert;
    hide StepReserveCommit, StepReserveRollback, StepClaimPayment, StepAnswerWorker, StepMarkPayment;
    match a
    case Attempt(i) => TryShape(w, i, w');
    case AttemptReadBack(i) => ReadBackShape(w, i, w');
    case AttemptPayment(i, id) => PaymentShape(w, i, id, w');
    case ReserveLock(i) => LockShape(w, i, w');
    case ReserveFind(t, found) => FindShape(w, t, found, w');
    case ReserveInsert(t) => InsertShape(w, t, w');
    case ReserveCommit(t) => CommitShape(w, t, w');
    case ReserveRollback(t) => RollbackShape(w, t, w');
    case _ => WorkerShape(w, a, w');
  }

  lemma TryShape(w: World, i: nat, w': World)
    requires StepAttempt(w, i, w')
    ensures OnlyAttempts(w, w', i)
  {
    hide Perform, Record, Update;
  }

  /** The tables of Tickets and of Orders stay as they are. */
  ghost predicate SameTicketsAndOrders(w: World, w': World) {
    w'.tickets == w.tickets && w'.history == w.history && w'.orders == w.orders
  }

  lemma ReadBackShape(w: World, i: nat, w': World)
    requires StepReadBack(w, i, w')
    ensures OnlyAttempts(w, w', i)
    ensures SameTicketsAndOrders(w, w')
  {
    hide ReadBack;
  }

  lemma PaymentShape(w: World, i: nat, id: PaymentId, w': World)
    requires StepAttemptPayment(w, i, id, w')
    ensures OnlyAttempts(w, w', i)
    ensures SameTicketsAndOrders(w, w')
  {
    hide PaymentStore.IndexOk;
  }

  lemma LockShape(w: World, i: nat, w': World)
    requires StepReserveLock(w, i, w')
    ensures OnlyAttempts(w, w', i)
    ensures SameTicketsAndOrders(w, w')
  {
  }

  lemma FindShape(w: World, t: TicketId, found: Option<OrderId>, w': World)
    requires StepReserveFind(w, t, found, w')
    ensures t in w.locks && OnlyAttempts(w, w', w.locks[t].task)
    ensures SameTicketsAndOrders(w, w')
  {
    hide FindsBlocking, BlockedReply;
  }

  lemma InsertShape(w: World, t: TicketId, w': World)
    requires StepReserveInsert(w, t, w')
    ensures t in w.locks && OnlyAttempts(w, w', w.locks[t].task)
    ensures SameTicketsAndOrders(w, w')
  {
  }

  lemma CommitShape(w: World, t: TicketId, w': World)
    requires StepReserveCommit(w, t, w')
    ensures t in w.locks && OnlyAttempts(w, w', w.locks[t].task)
    ensures w'.tickets == w.tickets && w'.history == w.history
  {
  }

  lemma RollbackShape(w: World, t: TicketId, w': World)
    requires StepReserveRollback(w, t, w')
    ensures OnlyAttempts(w, w', |w.tasks|)
    ensures SameTicketsAndOrders(w, w')
  {
  }

  lemma WorkerShape(w: World, a: Action, w': World)
    requires Step(w, a, w') && (a.ClaimPayment? || a.AnswerWorker? || a.MarkPayment? || a.Tick?)
    ensures OnlyAttempts(w, w', |w.tasks|)
    ensures SameTicketsAndOrders(w, w')
  {
    hide PaymentStore.IndexOk, PaymentStore.Claim, PaymentStore.MarkResolved, PaymentStore.NextPending;
  }

  /* ---- Moves of workflows ---- */

  /** Moves acknowledge tasks and schedule at most one new, untried task; nothing else happens to tasks or tables. */
  ghost predicate TasksRest(w: World, w': World) {
    && w'.orders == w.orders && w'.tickets == w.tickets && w'.payments == w.payments && w'.history == w.history
    && |w.tasks| <= |w'.tasks| <= |w.tasks| + 1
    && (forall i :: 0 <= i < |w.tasks| ==>
      w'.tasks[i] == w.tasks[i].(acked := w'.tasks[i].acked) && (w.tasks[i].acked ==> w'.tasks[i].acked))
    && (forall i :: |w.tasks| <= i < |w'.tasks| ==> w'.tasks[i].replies == {} && w'.tasks[i].last == None)
  }

  lemma {:induction false} MoveRests(w: World, a: Action, w': World)
    requires Step(w, a, w') && !AttemptLike(a)
    ensures TasksRest(w, w')
  {
    hide StepDeliver, StepDeliverEdit, KeyOf, RunOf, CanStart, TasksRest;
    match a
    case Deliver(f, reply) => DeliverRests(w, f, reply, w');
    case DeliverEdit(t, reply) => DeliverEditRests(w, t, reply, w');
    case _ => StartRests(w, a, w');
  }

  lemma DeliverRests(w: World, f: FlowId, reply: Reply, w': World)
    requires StepDeliver(w, f, reply, w')
    ensures TasksRest(w, w')
  {
    hide Advance;
  }

  lemma DeliverEditRests(w: World, t: TicketId, reply: Reply, w': World)
    requires StepDeliverEdit(w, t, reply, w')
    ensures TasksRest(w, w')
  {
  }

  lemma StartRests(w: World, a: Action, w': World)
    requires Step(w, a, w') && !AttemptLike(a) && !a.Deliver? && !a.DeliverEdit?
    ensures TasksRest(w, w')
  {
    if a.RequestEdit? || a.GrantMutex? || a.StartExpiryChild? {
      hide KeyOf, RunOf, CanStart;
    } else {
      SchedulesRest(w);
      hide KeyOf, RunOf, CanStart, Schedule, TasksRest;
    }
  }

  lemma SchedulesRest(w: World)
    ensures TasksRest(w, w)
    ensures forall f, activity, saved :: TasksRest(w, Schedule(w, f, activity, saved))
  {
  }

  /** The remaining attempt steps concern reservations and payments only. */
  lemma {:induction false} OtherAttempts(w: World, a: Action, w': World, i: nat)
    requires Step(w, a, w') && AttemptLike(a) && Attempted(w, a) == Some(i) && a != Attempt(i)
        && a != AttemptReadBack(i)
    ensures i < |w.tasks| && (w.tasks[i].activity.ReserveOrder? || w.tasks[i].activity.PersistPayment?)
  {
    hide FindsBlocking;
  }

  /** The state after one attempt of a Tickets activity. */
  function AfterAttempt(w: World, i: nat): World
    requires i < |w.tasks| && TicketsSide(w.tasks[i].activity)
  {
    var (db, reply) := Perform(w.tickets, w.tasks[i].activity);
    Answer(w.(tickets := db, history := Record(w.history, TicketOf(w.tasks[i].activity), w.tickets, db)), i, reply)
  }

  /* ---- Which tables a step touches ---- */

  lemma {:induction false} AttemptFrame(w: World, i: nat, w': World)
    requires StepAttempt(w, i, w')
    ensures i < |w.tasks| && w'.payments == w.payments
    ensures TwoStatement(w.tasks[i].activity) ==> w'.orders == Update(w.orders, w.now, w.tasks[i].activity).0
    ensures !TwoStatement(w.tasks[i].activity) ==> w'.orders == w.orders
    ensures TicketsSide(w.tasks[i].activity) ==> w'.tickets == Perform(w.tickets, w.tasks[i].activity).0
    ensures !TicketsSide(w.tasks[i].activity) ==> w'.tickets == w.tickets && w'.history == w.history
  {
    hide Perform, Record, TicketOf;
  }

  /** Orders' tables change only through a two-statement UPDATE or a committed reservation. */
  lemma {:induction false} OrdersFrame(w: World, a: Action, w': World)
    requires Step(w, a, w')
    ensures a.Attempt? ==> a.task < |w.tasks|
    ensures a.Attempt? && TwoStatement(w.tasks[a.task].activity) ==>
      w'.orders == Update(w.orders, w.now, w.tasks[a.task].activity).0
    ensures !(a.Attempt? && TwoStatement(w.tasks[a.task].activity)) && !a.ReserveCommit? ==> w'.orders == w.orders
    ensures a.ReserveCommit? ==> StepReserveCommit(w, a.ticket, w')
  {
    hide Step, StepAttempt, StepReserveCommit, TasksRest, Update;
    if !AttemptLike(a) {
      TablesRest(w, a, w');
    } else if a.Attempt? {
      AttemptIs(w, a.task, w');
      AttemptFrame(w, a.task, w');
    } else {
      TriesRest(w, a, w');
    }
  }

  /** Tickets' tables and history change only through an attempt of a Tickets activity. */
  lemma {:induction false} TicketsFrame(w: World, a: Action, w': World)
    requires Step(w, a, w')
    ensures a.Attempt? ==> a.task < |w.tasks|
    ensures a.Attempt? && TicketsSide(w.tasks[a.task].activity) ==>
      w'.tickets == Perform(w.tickets, w.tasks[a.task].activity).0
    ensures !(a.Attempt? && TicketsSide(w.tasks[a.task].activity)) ==>
      w'.tickets == w.tickets && w'.history == w.history
  {
    hide Step, StepAttempt, TasksRest, Perform;
    if !AttemptLike(a) {
      TablesRest(w, a, w');
    } else if a.Attempt? {
      AttemptIs(w, a.task, w');
      AttemptFrame(w, a.task, w');
    } else {
      TriesRest(w, a, w');
    }
  }

  lemma AttemptIs(w: World, i: nat, w': World)
    requires Step(w, Attempt(i), w')
    ensures StepAttempt(w, i, w')
  {
    hide StepAttempt;
  }

  /** Of the attempts, only a whole one touches Tickets, and only it or a commit touches Orders. */
  lemma {:induction false} TriesRest(w: World, a: Action, w': World)
    requires Step(w, a, w') && AttemptLike(a) && !a.Attempt?
    ensures w'.tickets == w.tickets && w'.history == w.history
    ensures a.ReserveCommit? ==> StepReserveCommit(w, a.ticket, w')
    ensures !a.ReserveCommit? ==> w'.orders == w.orders
  {
    hide StepReadBack, StepAttemptPayment, StepReserveLock, StepReserveFind, StepReserveInsert, StepReserveCommit;
    hide StepReserveRollback, StepClaimPayment, StepAnswerWorker, StepMarkPayment;
    match a
    case AttemptReadBack(i) => ReadBackShape(w, i, w');
    case AttemptPayment(i, id) => PaymentShape(w, i, id, w');
    case ReserveLock(i) => LockShape(w, i, w');
    case ReserveFind(t, found) => FindShape(w, t, found, w');
    case ReserveInsert(t) => InsertShape(w, t, w');
    case ReserveCommit(t) => CommitShape(w, t, w');
    case ReserveRollback(t) => RollbackShape(w, t, w');
    case _ => WorkerShape(w, a, w');
  }

  /** Payments' tables change only by creating, claiming or marking a payment. */
  lemma {:induction false} PaymentsFrame(w: World, a: Action, w': World)
    requires Step(w, a, w')
    ensures !a.AttemptPayment? && !a.ClaimPayment? && !a.MarkPayment? ==> w'.payments == w.payments
  {
    hide StepAttempt, TasksRest, FindsBlocking, BlockedReply, ReadBack;
    if !AttemptLike(a) {
      TablesRest(w, a, w');
    } else if a.Attempt? {
      AttemptFrame(w, a.task, w');
    }
  }

  lemma {:induction false} TablesRest(w: World, a: Action, w': World)
    requires Step(w, a, w') && !AttemptLike(a)
    ensures w'.orders == w.orders && w'.tickets == w.tickets && w'.payments == w.payments && w'.history == w.history
  {
    hide Step;
    MoveRests(w, a, w');
  }

  /** Payments' copy of an order is first stored by a PersistPayment attempt, at that task's price. */
  lemma {:induction false} NewCopy(w: World, a: Action, w': World, o: OrderId)
    requires Step(w, a, w') && o !in w.payments.copies && o in w'.payments.copies
    requires w.payments.byOrder.Keys == w.payments.copies.Keys && PaymentStore.IndexOk(w.payments)
    requires forall c :: ExpectedOrderStatus(c).Some? ==>
      forall p :: PaymentStore.MarkResolved(w.payments, p, c).copies.Keys == w.payments.copies.Keys
    ensures a.AttemptPayment? && a.task < |w.tasks| && w.tasks[a.task].activity.PersistPayment?
    ensures w.tasks[a.task].activity.order == o && w'.payments.copies[o].price == w.tasks[a.task].activity.price
  {
    hide StepAttempt, PaymentStore.IndexOk, PaymentStore.MarkResolved;
    PaymentsFrame(w, a, w');
  }

  /* ---- New tasks and new replies ---- */

  /** Nothing replied yet to a task that a step only just scheduled. */
  lemma {:induction false} NewTaskSilent(w: World, a: Action, w': World, i: nat)
    requires Step(w, a, w') && |w.tasks| <= i < |w'.tasks|
    ensures w'.tasks[i].replies == {} && w'.tasks[i].last == None
  {
    hide Step;
    if AttemptLike(a) { AttemptShape(w, a, w'); } else { MoveRests(w, a, w'); }
  }

  /** A new reply of an Orders operation was computed by one of its two statements, just now. */
  ghost predicate JustComputed(w: World, i: nat, r: Reply) {
    && i < |w.tasks| && TwoStatement(w.tasks[i].activity)
    && (Update(w.orders, w.now, w.tasks[i].activity).1 == Some(r) || ReadBack(w.orders, w.tasks[i].activity) == Some(r))
  }

  /** New replies other than those of reservations and payments are computed by an attempt of their own task. */
  lemma {:induction false} NewReply(w: World, a: Action, w': World, i: nat, r: Reply)
    requires Step(w, a, w') && i < |w.tasks| <= |w'.tasks|
    requires r in w'.tasks[i].replies && r !in w.tasks[i].replies
    requires r.CheckoutStarted? || w.tasks[i].activity.ProjectTicket?
    ensures JustComputed(w, i, r)
  {
    hide Step, StepAttempt, StepReadBack, JustComputed, TasksRest;
    if !AttemptLike(a) {
      RepliesRest(w, a, w', i);
    } else {
      AttemptShape(w, a, w');
      if a.Attempt? {
        StepIs(w, a, w');
        AttemptReply(w, a.task, w', i, r);
      } else if a.AttemptReadBack? {
        StepIs(w, a, w');
        ReadBackReply(w, a.task, w', i, r);
      } else if a.AttemptPayment? {
        PaymentReply(w, a.task, a.id, w', i, r);
      } else {
        ReserveReply(w, a, w', i, r);
      }
    }
  }

  lemma StepIs(w: World, a: Action, w': World)
    requires Step(w, a, w')
    ensures a.Attempt? ==> StepAttempt(w, a.task, w')
    ensures a.AttemptReadBack? ==> StepReadBack(w, a.task, w')
    ensures a.AttemptPayment? ==> StepAttemptPayment(w, a.task, a.id, w')
    ensures a.Deliver? ==> StepDeliver(w, a.flow, a.reply, w')
    ensures a.DeliverEdit? ==> StepDeliverEdit(w, a.ticket, a.reply, w')
  {
    hide StepAttempt, StepReadBack, StepAttemptPayment, StepDeliver, StepDeliverEdit;
  }

  lemma {:induction false} RepliesRest(w: World, a: Action, w': World, i: nat)
    requires Step(w, a, w') && !AttemptLike(a) && i < |w.tasks|
    ensures i < |w'.tasks| && w'.tasks[i].replies == w.tasks[i].replies
  {
    hide Step;
    MoveRests(w, a, w');
  }

  lemma AttemptReply(w: World, k: nat, w': World, i: nat, r: Reply)
    requires StepAttempt(w, k, w') && i < |w.tasks| <= |w'.tasks|
    requires r in w'.tasks[i].replies && r !in w.tasks[i].replies
        && (r.CheckoutStarted? || w.tasks[i].activity.ProjectTicket?)
    ensures JustComputed(w, i, r)
  {
    hide Record, ReadBack, Update;
    if TicketsSide(w.tasks[k].activity) {
      TicketsReply(w.tickets, w.tasks[k].activity);
    }
  }

  lemma TicketsReply(db: TicketsDb, activity: Activity)
    requires TicketsSide(activity)
    ensures !Perform(db, activity).1.CheckoutStarted?
  {
  }

  lemma ReadBackReply(w: World, k: nat, w': World, i: nat, r: Reply)
    requires StepReadBack(w, k, w') && i < |w.tasks| <= |w'.tasks|
    requires r in w'.tasks[i].replies && r !in w.tasks[i].replies
    ensures JustComputed(w, i, r)
  {
    hide Update, ReadBack;
  }

  lemma PaymentReply(w: World, k: nat, id: PaymentId, w': World, i: nat, r: Reply)
    requires Step(w, AttemptPayment(k, id), w') && i < |w.tasks| <= |w'.tasks|
    requires r in w'.tasks[i].replies && r !in w.tasks[i].replies
    ensures r.PaymentStored? && w.tasks[i].activity.PersistPayment?
  {
    hide PaymentStore.IndexOk;
  }

  lemma ReserveReply(w: World, a: Action, w': World, i: nat, r: Reply)
    requires Step(w, a, w') && AttemptLike(a) && !a.Attempt? && !a.AttemptReadBack? && !a.AttemptPayment?
    requires i < |w.tasks| <= |w'.tasks| && r in w'.tasks[i].replies && r !in w.tasks[i].replies
    ensures (r.Reserved? || r.Rejected?) && w.tasks[i].activity.ReserveOrder?
  {
    hide StepReserveLock, StepReserveFind, StepReserveCommit;
    match a
    case ReserveLock(k) => LockReply(w, k, w', i, r);
    case ReserveFind(t, found) => FindReply(w, t, found, w', i, r);
    case ReserveCommit(t) => CommitReply(w, t, w', i, r);
    case _ => RepliesUntouched(w, a, w', i);
  }

  lemma LockReply(w: World, k: nat, w': World, i: nat, r: Reply)
    requires StepReserveLock(w, k, w') && i < |w.tasks| <= |w'.tasks|
    requires r in w'.tasks[i].replies && r !in w.tasks[i].replies
    ensures r.Rejected? && w.tasks[i].activity.ReserveOrder?
  {
  }

  lemma FindReply(w: World, t: TicketId, found: Option<OrderId>, w': World, i: nat, r: Reply)
    requires StepReserveFind(w, t, found, w') && i < |w.tasks| <= |w'.tasks|
    requires r in w'.tasks[i].replies && r !in w.tasks[i].replies
    ensures (r.Reserved? || r.Rejected?) && w.tasks[i].activity.ReserveOrder?
  {
    hide FindsBlocking;
  }

  lemma CommitReply(w: World, t: TicketId, w': World, i: nat, r: Reply)
    requires StepReserveCommit(w, t, w') && i < |w.tasks| <= |w'.tasks|
    requires r in w'.tasks[i].replies && r !in w.tasks[i].replies
    ensures r.Reserved? && w.tasks[i].activity.ReserveOrder?
  {
    hide NewOrder;
  }

  /** The remaining steps of attempts answer nothing. */
  lemma RepliesUntouched(w: World, a: Action, w': World, i: nat)
    requires Step(w, a, w') && i < |w.tasks| <= |w'.tasks|
    requires a.ReserveInsert? || a.ReserveRollback? || a.ClaimPayment? || a.AnswerWorker? || a.MarkPayment? || a.Tick?
    ensures w'.tasks[i].replies == w.tasks[i].replies
  {
    hide PaymentStore.IndexOk, PaymentStore.Claim, PaymentStore.MarkResolved, PaymentStore.NextPending;
  }

  ghost predicate HasReply(w: World, r: Reply) {
    exists k :: 0 <= k < |w.tasks| && r in w.tasks[k].replies
  }

  /** What a workflow schedules when it gets a reply: the activity that Advance names, for itself. */
  lemma {:induction false} DeliverSchedules(w: World, f: FlowId, reply: Reply, w': World, i: nat)
    requires StepDeliver(w, f, reply, w') && |w.tasks| <= i < |w'.tasks|
    ensures HasReply(w, reply) && f in w.flows && w.flows[f].Waiting? && w'.tasks[i].owner == f
    ensures Advance(w.flows[f].saved, reply).Do? && w'.tasks[i].activity == Advance(w.flows[f].saved, reply).activity
  {
    hide Advance;
    assert reply in w.tasks[w.flows[f].task].replies;
  }

  /** Moves other than deliveries schedule a workflow's first activity, or the next edit. */
  lemma {:induction false} StartSchedules(w: World, a: Action, w': World, i: nat)
    requires Step(w, a, w') && !AttemptLike(a) && !a.Deliver? && |w.tasks| <= i < |w'.tasks|
    ensures i == |w.tasks|
    ensures var activity := w'.tasks[i].activity;
            && !activity.PersistPayment?
            && (activity.ExpireOrder? ==> a == FireTimer(activity.order))
            && (activity.ReserveOrder? ==> a == StartCreateOrder(activity.reservation))
            && (activity.ProjectTicket? ==> w'.tasks[i].owner.UpdateTicketFlow?)
            && (activity.PersistTicket? ==>
                 a.StartCreateTicket? && w'.tasks[i].owner == CreateTicketFlow(a.key) && w'.tasks[i].owner !in w.flows)
  {
    hide KeyOf, RunOf, CanStart;
  }

  /** Payments are persisted at a price that some checkout reply carried. */
  lemma {:induction false} NewPaymentTask(w: World, a: Action, w': World, i: nat)
    requires Step(w, a, w') && |w.tasks| <= i < |w'.tasks| && w'.tasks[i].activity.PersistPayment?
    ensures var PersistPayment(o, u, price) := w'.tasks[i].activity;
            HasReply(w, CheckoutStarted(o, u, price))
  {
    hide Step, HasReply;
    if AttemptLike(a) {
      AttemptShape(w, a, w');
    } else if a.Deliver? {
      StepIs(w, a, w');
      DeliverSchedules(w, a.flow, a.reply, w', i);
    } else {
      StartSchedules(w, a, w', i);
    }
  }

  /** Workflow runs are never forgotten. */
  lemma {:induction false} FlowsStay(w: World, a: Action, w': World)
    requires Step(w, a, w')
    ensures w.flows.Keys <= w'.flows.Keys
  {
    if AttemptLike(a) {
      hide Step;
      AttemptShape(w, a, w');
    } else if a.Deliver? {
      DeliverKeepsFlows(w, a.flow, a.reply, w');
    } else {
      hide Advance, KeyOf, RunOf, CanStart, StepDeliver;
    }
  }

  lemma DeliverKeepsFlows(w: World, f: FlowId, reply: Reply, w': World)
    requires StepDeliver(w, f, reply, w')
    ensures w.flows.Keys <= w'.flows.Keys
  {
    hide Advance;
  }

  /** A ticket creation is scheduled only by starting a run under a key that was never used. */
  lemma {:induction false} NewCreationTask(w: World, a: Action, w': World, i: nat)
    requires Step(w, a, w') && |w.tasks| <= i < |w'.tasks| && w'.tasks[i].activity.PersistTicket?
    ensures i == |w.tasks| && w'.tasks[i].owner.CreateTicketFlow? && w'.tasks[i].owner !in w.flows
        && w'.tasks[i].owner in w'.flows
  {
    hide Step, HasReply;
    if AttemptLike(a) {
      AttemptShape(w, a, w');
    } else if a.Deliver? {
      StepIs(w, a, w');
      DeliverSchedules(w, a.flow, a.reply, w', i);
    } else {
      StartSchedules(w, a, w', i);
      CreationStarts(w, a, w', i);
    }
  }

  lemma CreationStarts(w: World, a: Action, w': World, i: nat)
    requires Step(w, a, w') && a.StartCreateTicket? && |w.tasks| <= i < |w'.tasks|
    ensures CreateTicketFlow(a.key) in w'.flows
  {
  }
}
