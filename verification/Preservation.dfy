/**
  Every step keeps the invariant and moves the system forward in the sense of Later.
 */
module Preservation {
  import opened Domain
  import opened TicketStore
  import opened OrderStore
  import opened Saga
  import opened Evolution
  import opened Invariant
  import PaymentStore

  /* ---- What carries over from an earlier state ---- */

  /** Old tasks and replies stay justified; only new ones have to be looked at. */
  lemma {:induction false} TasksCarry(w: World, w': World)
    requires Later(w, w') && TasksOk(w) && RepliesOk(w) && MissesOk(w)
    requires forall i :: |w.tasks| <= i < |w'.tasks| ==> TaskOk(w', w'.tasks[i].activity) && w'.tasks[i].replies == {}
    requires forall i, r :: 0 <= i < |w.tasks| && r in w'.tasks[i].replies && r !in w.tasks[i].replies ==>
      ReplyOk(w', w.tasks[i].activity, r)
    requires forall i :: 0 <= i < |w'.tasks| && w'.tasks[i].missed ==>
      (i < |w.tasks| && w.tasks[i].missed) || MissOk(w', w'.tasks[i].activity)
    ensures TasksOk(w') && RepliesOk(w') && MissesOk(w')
  {
    forall i | 0 <= i < |w'.tasks|
      ensures TaskOk(w', w'.tasks[i].activity)
    {
      if i < |w.tasks| { TaskStaysOk(w, w', w.tasks[i].activity); }
    }
    forall i, r | 0 <= i < |w'.tasks| && r in w'.tasks[i].replies
      ensures ReplyOk(w', w'.tasks[i].activity, r)
    {
      if i < |w.tasks| && r in w.tasks[i].replies { ReplyStaysOk(w, w', w.tasks[i].activity, r); }
    }
  }

  lemma {:induction false} FlowsCarry(w: World, w': World)
    requires Later(w, w') && FlowsOk(w)
    requires forall f :: f in w'.flows ==> (f in w.flows && w'.flows[f] == w.flows[f]) || FlowOk(w', f, w'.flows[f])
    ensures FlowsOk(w')
  {
    forall f | f in w'.flows
      ensures FlowOk(w', f, w'.flows[f])
    {
      if f in w.flows && w'.flows[f] == w.flows[f] { FlowStaysOk(w, w', f, w.flows[f]); }
    }
  }

  lemma {:induction false} WorkersCarry(w: World, w': World)
    requires Later(w, w') && WorkersOk(w)
    requires forall c :: c in w'.claims && c !in w.claims ==> ClaimOk(w', c)
    requires forall a :: a in w'.answers && a !in w.answers ==> AnswerOk(w', a.0, a.1)
    ensures WorkersOk(w')
  {
    forall a | a in w'.answers
      ensures AnswerOk(w', a.0, a.1)
    {
      if a in w.answers { assert AnswerOk(w, a.0, a.1); }
    }
  }

  /** No new creation task, and nothing new in Tickets: version 1 stays what was asked for. */
  lemma {:induction false} CreationsCarry(w: World, w': World)
    requires Later(w, w') && CreationsOk(w)
    requires w'.tickets.rows.Keys == w.tickets.rows.Keys
    requires forall i :: |w.tasks| <= i < |w'.tasks| && w'.tasks[i].activity.PersistTicket? ==>
      && w'.tasks[i].activity.creation.ticket !in w.tickets.rows
      && i == |w.tasks|
      && forall j :: 0 <= j < |w.tasks| && w.tasks[j].activity.PersistTicket? ==>
        w.tasks[j].activity.creation.ticket != w'.tasks[i].activity.creation.ticket
    ensures CreationsOk(w')
  {
    forall i | 0 <= i < |w'.tasks| && w'.tasks[i].activity.PersistTicket?
      ensures CreationOk(w', w'.tasks[i].activity.creation)
    {
      var input := w'.tasks[i].activity.creation;
      if i < |w.tasks| && input.ticket in w.tickets.rows {
        assert CreationOk(w, input);
        StaysPublished(w.history, w'.history, FirstVersion(input));
      }
    }
  }

  lemma {:induction false} LocksCarry(w: World, w': World)
    requires Later(w, w') && LocksOk(w)
    requires forall t | t in w'.locks :: (t in w.locks && w'.locks[t] == w.locks[t]) || LockOk(w', t)
    requires forall t :: t in w'.locks && NothingBlocks(w.orders, t) ==> NothingBlocks(w'.orders, t)
    ensures LocksOk(w')
  {
  }

  /* ---- Steps that leave all three services' tables alone ---- */

  ghost predicate SameTables(w: World, w': World) {
    w'.tickets == w.tickets && w'.orders == w.orders && w'.payments == w.payments && w'.history == w.history
  }

  lemma {:induction false} TablesCarry(w: World, w': World)
    requires Inv(w) && SameTables(w, w')
    ensures Consistent(w'.tickets, w'.history)
    ensures ReferencesOk(w') && ClaimsOk(w') && UniqueOk(w'.orders) && PaymentsOk(w')
  {
    forall o | o in w'.payments.byOrder
      ensures PaymentAgrees(w', o)
    {
      assert PaymentAgrees(w, o);
    }
  }

  /** A newly scheduled ticket creation uses a ticket ID that nothing used before. */
  ghost predicate FreshCreation(w: World, activity: Activity) {
    activity.PersistTicket? ==>
      && activity.creation.ticket !in w.tickets.rows
      && forall j :: 0 <= j < |w.tasks| && w.tasks[j].activity.PersistTicket? ==>
        w.tasks[j].activity.creation.ticket != activity.creation.ticket
  }

  /** The old tasks of w, with their replies, are all still in w', and at most a justified one was added. */
  ghost predicate TasksProceed(w: World, w': World) {
    && |w.tasks| <= |w'.tasks| <= |w.tasks| + 1
    && (forall i :: 0 <= i < |w.tasks| ==>
      && w'.tasks[i].owner == w.tasks[i].owner && w'.tasks[i].activity == w.tasks[i].activity
      && w'.tasks[i].replies == w.tasks[i].replies && w'.tasks[i].missed == w.tasks[i].missed)
    && (|w'.tasks| == |w.tasks| + 1 ==>
      && TaskOk(w, w'.tasks[|w.tasks|].activity) && FreshCreation(w, w'.tasks[|w.tasks|].activity)
      && w'.tasks[|w.tasks|].replies == {} && !w'.tasks[|w.tasks|].missed)
  }

  lemma {:induction false} ProceedsLater(w: World, w': World)
    requires SameTables(w, w') && TasksProceed(w, w')
    requires w.now <= w'.now && w'.claims == w.claims && w.answers <= w'.answers
    ensures Later(w, w')
  {
  }

  /** Progress without table changes keeps the invariant when the workflows and locks it touched are fine. */
  lemma {:induction false} ProgressKeeps(w: World, w': World)
    requires Inv(w) && SameTables(w, w') && TasksProceed(w, w')
    requires w.now <= w'.now && w'.claims == w.claims && w.answers <= w'.answers
    requires forall t | t in w'.locks :: (t in w.locks && w'.locks[t] == w.locks[t]) || LockOk(w', t)
    requires forall f | f in w'.flows :: (f in w.flows && w'.flows[f] == w.flows[f]) || FlowOk(w', f, w'.flows[f])
    requires forall a | a in w'.answers :: a in w.answers || AnswerOk(w', a.0, a.1)
    ensures Later(w, w') && Inv(w')
  {
    hide Consistent, ReferencesOk, ClaimsOk, UniqueOk, PaymentsOk, Later;
    hide TaskOk, ReplyOk, MissOk, FlowOk, LockOk, ClaimOk, AnswerOk, CreationOk;
    ProceedsLater(w, w');
    TablesCarry(w, w');
    if |w'.tasks| == |w.tasks| + 1 {
      TaskStaysOk(w, w', w'.tasks[|w.tasks|].activity);
    }
    TasksCarry(w, w');
    FlowsCarry(w, w');
    WorkersCarry(w, w');
    CreationsCarry(w, w');
    LocksCarry(w, w');
  }

  lemma {:induction false} StartKeeps(w: World, f: FlowId, activity: Activity, w': World)
    requires Inv(w) && w' == Schedule(w, f, activity, None)
    requires FirstActivity(f, activity) && TaskOk(w, activity) && FreshCreation(w, activity)
    ensures Later(w, w') && Inv(w')
  {
    hide Inv, TaskOk, Later;
    ProgressKeeps(w, w');
  }

  lemma {:induction false} StartOrJoinKeeps(w: World, f: FlowId, activity: Activity, w': World)
    requires Inv(w) && StepStart(w, f, activity, w')
    requires FirstActivity(f, activity) && TaskOk(w, activity) && !activity.PersistTicket?
    ensures Later(w, w') && Inv(w')
  {
    hide Inv, TaskOk, FirstActivity;
    LaterReflexive(w);
    if CanStart(w, f) {
      StartKeeps(w, f, activity, w');
    }
  }

  lemma {:induction false} StartCreateOrderKeeps(w: World, input: ReservationInput, w': World)
    requires Inv(w) && StepStartCreateOrder(w, input, w')
    ensures Later(w, w') && Inv(w')
  {
    hide Inv;
    StartKeeps(w, CreateOrderFlow(input.order), ReserveOrder(input), w');
  }

  lemma {:induction false} StartCreateTicketKeeps(w: World, key: CreationKey, input: TicketInput, w': World)
    requires Inv(w) && StepStartCreateTicket(w, key, input, w')
    ensures Later(w, w') && Inv(w')
  {
    hide Inv;
    LaterReflexive(w);
    if CreateTicketFlow(key) !in w.flows {
      StartKeeps(w, CreateTicketFlow(key), PersistTicket(input), w');
    }
  }

  lemma {:induction false} RequestEditKeeps(w: World, input: EditInput, w': World)
    requires Inv(w) && StepRequestEdit(w, input, w')
    ensures Later(w, w') && Inv(w')
  {
    hide Inv;
    ProgressKeeps(w, w');
  }

  lemma {:induction false} GrantMutexKeeps(w: World, input: EditInput, w': World)
    requires Inv(w) && StepGrantMutex(w, input, w')
    ensures Later(w, w') && Inv(w')
  {
    hide Inv;
    ProgressKeeps(w, w');
  }

  lemma {:induction false} TickKeeps(w: World, to: Time, w': World)
    requires Inv(w) && w.now <= to && w' == w.(now := to)
    ensures Later(w, w') && Inv(w')
  {
    hide Inv;
    ProgressKeeps(w, w');
  }

  lemma {:induction false} AnswerLater(w: World, i: nat, reply: Reply, locks: map<TicketId, ReserveTx>, w': World)
    requires i < |w.tasks| && w' == Answer(w.(locks := locks), i, reply)
    ensures Later(w, w')
  {
  }

  /** A reply recorded without touching the tables. */
  lemma {:induction false} AnswerKeeps(w: World, i: nat, reply: Reply, locks: map<TicketId, ReserveTx>, w': World)
    requires Inv(w) && i < |w.tasks| && ReplyOk(w, w.tasks[i].activity, reply)
    requires forall t :: t in locks ==> t in w.locks && locks[t] == w.locks[t]
    requires w' == Answer(w.(locks := locks), i, reply)
    ensures Later(w, w') && Inv(w')
  {
    hide Consistent, ReferencesOk, ClaimsOk, UniqueOk, PaymentsOk, Later;
    hide TaskOk, ReplyOk, MissOk, FlowOk, LockOk, ClaimOk, AnswerOk, CreationOk;
    AnswerLater(w, i, reply, locks, w');
    TablesCarry(w, w');
    ReplyStaysOk(w, w', w.tasks[i].activity, reply);
    TasksCarry(w, w');
    FlowsCarry(w, w');
    WorkersCarry(w, w');
    CreationsCarry(w, w');
    LocksCarry(w, w');
  }

  lemma {:induction false} ReserveLockKeeps(w: World, i: nat, w': World)
    requires Inv(w) && StepReserveLock(w, i, w')
    ensures Later(w, w') && Inv(w')
  {
    hide Inv;
    if w.tasks[i].activity.reservation.ticket !in w.orders.projection {
      AnswerKeeps(w, i, Rejected(TicketNotFound), w.locks, w');
    } else {
      ProgressKeeps(w, w');
    }
  }

  lemma {:induction false} ReserveFindKeeps(w: World, t: TicketId, found: Option<OrderId>, w': World)
    requires Inv(w) && StepReserveFind(w, t, found, w')
    ensures Later(w, w') && Inv(w')
  {
    hide Consistent, ClaimsOk, UniqueOk, PaymentsOk, TasksOk, RepliesOk, MissesOk, CreationsOk, FlowsOk, WorkersOk;
    var i := w.locks[t].task;
    assert LockOk(w, t);
    if found == None {
      ProgressKeeps(w, w');
    } else {
      BlockedReplyOk(w, w.tasks[i].activity.reservation, found.value);
      AnswerKeeps(w, i, BlockedReply(w.orders.orders[found.value], w.tasks[i].activity.reservation.user),
          w.locks - {t}, w');
    }
  }

  lemma {:induction false} BlockedReplyOk(w: World, input: ReservationInput, o: OrderId)
    requires ReferencesOk(w) && Blocks(w.orders, input.ticket, o)
    ensures ReplyOk(w, ReserveOrder(input), BlockedReply(w.orders.orders[o], input.user))
  {
  }

  lemma {:induction false} ReserveInsertKeeps(w: World, t: TicketId, w': World)
    requires Inv(w) && StepReserveInsert(w, t, w')
    ensures Later(w, w') && Inv(w')
  {
    hide Consistent, ClaimsOk, UniqueOk, PaymentsOk, TasksOk, RepliesOk, MissesOk, CreationsOk, FlowsOk, WorkersOk;
    assert LockOk(w, t);
    ProgressKeeps(w, w');
  }

  lemma {:induction false} ReserveRollbackKeeps(w: World, t: TicketId, w': World)
    requires Inv(w) && StepReserveRollback(w, t, w')
    ensures Later(w, w') && Inv(w')
  {
    hide Inv;
    ProgressKeeps(w, w');
  }

  /** The price in the projection was once published. */
  lemma {:induction false} ProjectedPrice(w: World, t: TicketId)
    requires ReferencesOk(w) && t in w.orders.projection
    ensures PublishedPrice(w.history, t, w.orders.projection[t].price)
  {
    var s := w.orders.projection[t];
    assert w.history[t][s.version - 1].price == s.price;
  }

  lemma {:induction false} ReadBackKeeps(w: World, i: nat, w': World)
    requires Inv(w) && StepReadBack(w, i, w')
    ensures Later(w, w') && Inv(w')
  {
    hide Consistent, ClaimsOk, UniqueOk, LocksOk, RepliesOk, CreationsOk, FlowsOk, WorkersOk, ReplyOk, ReadBack;
    ReadBackReplyOk(w, w.tasks[i].activity);
    AnswerKeeps(w, i, ReadBack(w.orders, w.tasks[i].activity).value, w.locks, w');
  }

  lemma {:induction false} ReadBackReplyOk(w: World, activity: Activity)
    requires ReferencesOk(w) && PaymentsOk(w) && TwoStatement(activity)
    requires TaskOk(w, activity) && MissOk(w, activity)
    requires ReadBack(w.orders, activity).Some?
    ensures ReplyOk(w, activity, ReadBack(w.orders, activity).value)
  {
    match activity
    case StartOrderPayment(o, u) =>
      if o in w.orders.orders { ProjectedPrice(w, w.orders.orders[o].ticket); }
    case ResolvePayment(o, outcome) =>
      assert PaymentAgrees(w, o);
    case _ =>
  }

  /* ---- Workflow progress ---- */

  /** Whatever a workflow schedules next is justified by the reply that made it do so. */
  lemma {:induction false} NextTaskOk(w: World, activity: Activity, saved: Option<Reply>, reply: Reply)
    requires ReplyOk(w, activity, reply) && Advance(saved, reply).Do?
    ensures TaskOk(w, Advance(saved, reply).activity) && FreshCreation(w, Advance(saved, reply).activity)
  {
  }

  /** Where a workflow stands after an activity answered. */
  lemma {:induction false} NextFlowOk(w': World, f: FlowId, activity: Activity, saved: Option<Reply>, reply: Reply)
    requires ReplyOk(w', activity, reply)
    requires match saved
             case None => FirstActivity(f, activity)
             case Some(r) => SavedOk(w', f, activity, r)
    requires f in w'.flows
    requires match Advance(saved, reply)
             case Do(next, result) =>
               && w'.flows[f].Waiting? && w'.flows[f].saved == Some(result)
               && w'.flows[f].task < |w'.tasks| && w'.tasks[w'.flows[f].task].owner == f
               && w'.tasks[w'.flows[f].task].activity == next
             case BeginExpiry(result) => w'.flows[f] == StartingExpiry(result)
             case Finish(result) => w'.flows[f] == Completed(result)
             case Abort(error) => w'.flows[f] == Aborted(error)
    requires TaskOk(w', activity)
    ensures FlowOk(w', f, w'.flows[f])
  {
  }

  /** What the invariant says about a reply that is being delivered. */
  lemma {:induction false} DeliveryFacts(w: World, f: FlowId, reply: Reply, w': World)
    requires Inv(w) && StepDeliver(w, f, reply, w')
    ensures f in w.flows && w.flows[f].Waiting? && w.flows[f].task < |w.tasks|
    ensures FlowOk(w, f, w.flows[f])
    ensures ReplyOk(w, w.tasks[w.flows[f].task].activity, reply)
    ensures TaskOk(w, w.tasks[w.flows[f].task].activity)
  {
    hide ReplyOk, TaskOk, FlowOk, Advance, Consistent, PaymentAgrees, LockOk;
  }

  lemma {:induction false} DeliverKeeps(w: World, f: FlowId, reply: Reply, w': World)
    requires Inv(w) && StepDeliver(w, f, reply, w')
    ensures Later(w, w') && Inv(w')
  {
    hide Inv, TaskOk, ReplyOk, FlowOk, Later, Advance, StepDeliver, TasksProceed, FreshCreation;
    DeliveryFacts(w, f, reply, w');
    DeliverProceeds(w, f, reply, w');
    ProceedsLater(w, w');
    DeliveredFlowOk(w, f, reply, w');
    ProgressKeeps(w, w');
  }

  lemma {:induction false} DeliverProceeds(w: World, f: FlowId, reply: Reply, w': World)
    requires StepDeliver(w, f, reply, w') && ReplyOk(w, w.tasks[w.flows[f].task].activity, reply)
    ensures SameTables(w, w') && TasksProceed(w, w')
    ensures w'.now == w.now && w'.claims == w.claims && w'.answers == w.answers && w'.locks == w.locks
    ensures forall g :: g in w'.flows && g != f ==> g in w.flows && w'.flows[g] == w.flows[g]
  {
    hide TaskOk, ReplyOk, Advance, FreshCreation;
    DeliveryProceeds(w, f, reply, w');
    hide TasksProceed;
  }

  lemma {:induction false} DeliveryProceeds(w: World, f: FlowId, reply: Reply, w': World)
    requires StepDeliver(w, f, reply, w') && ReplyOk(w, w.tasks[w.flows[f].task].activity, reply)
    ensures TasksProceed(w, w')
  {
    hide TaskOk, ReplyOk, Advance, FreshCreation;
    if Advance(w.flows[f].saved, reply).Do? {
      NextTaskOk(w, w.tasks[w.flows[f].task].activity, w.flows[f].saved, reply);
    }
  }

  lemma {:induction false} DeliveredFlowOk(w: World, f: FlowId, reply: Reply, w': World)
    requires StepDeliver(w, f, reply, w') && Later(w, w') && FlowOk(w, f, w.flows[f])
    requires var activity := w.tasks[w.flows[f].task].activity; ReplyOk(w, activity, reply) && TaskOk(w, activity)
    ensures FlowOk(w', f, w'.flows[f])
  {
    ProceedsTo(w, f, reply, w');
    hide StepDeliver, Later, FlowOk, ReplyOk, TaskOk, Advance, FirstActivity, SavedOk;
    var i, saved := w.flows[f].task, w.flows[f].saved;
    var activity := w.tasks[i].activity;
    FlowStaysOk(w, w', f, w.flows[f]);
    ReplyStaysOk(w, w', activity, reply);
    TaskStaysOk(w, w', activity);
    WaitedFor(w', f, w.flows[f]);
    NextFlowOk(w', f, activity, saved, reply);
  }

  lemma WaitedFor(w: World, f: FlowId, flow: Flow)
    requires FlowOk(w, f, flow) && flow.Waiting?
    ensures flow.task < |w.tasks|
    ensures match flow.saved
            case None => FirstActivity(f, w.tasks[flow.task].activity)
            case Some(r) => SavedOk(w, f, w.tasks[flow.task].activity, r)
  {
    hide FirstActivity, SavedOk;
  }

  /** Where a delivery takes its workflow. */
  lemma ProceedsTo(w: World, f: FlowId, reply: Reply, w': World)
    requires StepDeliver(w, f, reply, w')
    ensures f in w.flows && w.flows[f].Waiting? && w.flows[f].task < |w.tasks| <= |w'.tasks|
    ensures w'.tasks[w.flows[f].task].activity == w.tasks[w.flows[f].task].activity
    ensures f in w'.flows
    ensures match Advance(w.flows[f].saved, reply)
            case Do(next, result) =>
              && w'.flows[f].Waiting? && w'.flows[f].saved == Some(result)
              && w'.flows[f].task < |w'.tasks| && w'.tasks[w'.flows[f].task].owner == f
              && w'.tasks[w'.flows[f].task].activity == next
            case BeginExpiry(result) => w'.flows[f] == StartingExpiry(result)
            case Finish(result) => w'.flows[f] == Completed(result)
            case Abort(error) => w'.flows[f] == Aborted(error)
  {
    hide Advance;
  }

  lemma {:induction false} DeliverEditKeeps(w: World, t: TicketId, reply: Reply, w': World)
    requires Inv(w) && StepDeliverEdit(w, t, reply, w')
    ensures Later(w, w') && Inv(w')
  {
    hide Consistent, ReferencesOk, ClaimsOk, UniqueOk, LocksOk, PaymentsOk, MissesOk, CreationsOk, WorkersOk, FlowsOk;
    hide ReplyOk, TaskOk, Later;
    var i := w.updates[t].holder.value;
    assert ReplyOk(w, w.tasks[i].activity, reply);
    if reply.TicketStored? {
      NextTaskOk(w, w.tasks[i].activity, None, reply);
    }
    ProgressKeeps(w, w');
  }

  lemma {:induction false} StartExpiryChildKeeps(w: World, o: OrderId, w': World)
    requires Inv(w) && StepStartExpiryChild(w, o, w')
    ensures Later(w, w') && Inv(w')
  {
    hide Consistent, ReferencesOk, ClaimsOk, UniqueOk, LocksOk, PaymentsOk, TasksOk, RepliesOk, MissesOk, CreationsOk,
         WorkersOk;
    hide Later;
    var f := CreateOrderFlow(o);
    ProceedsLater(w, w');
    FlowStaysOk(w, w', f, w.flows[f]);
    ProgressKeeps(w, w');
  }

  lemma {:induction false} FireTimerKeeps(w: World, o: OrderId, w': World)
    requires Inv(w) && StepFireTimer(w, o, w')
    ensures Later(w, w') && Inv(w')
  {
    hide Consistent, ReferencesOk, ClaimsOk, UniqueOk, LocksOk, PaymentsOk, TasksOk, RepliesOk, MissesOk, CreationsOk,
         WorkersOk;
    assert FlowOk(w, ExpireOrderFlow(o), w.flows[ExpireOrderFlow(o)]);
    StartKeeps(w, ExpireOrderFlow(o), ExpireOrder(o), w');
  }

  lemma {:induction false} CallResolveKeeps(w: World, c: SettlementClaim, w': World)
    requires Inv(w) && StepCallResolve(w, c, w')
    ensures Later(w, w') && Inv(w')
  {
    hide Consistent, ReferencesOk, ClaimsOk, UniqueOk, LocksOk, TasksOk, RepliesOk, MissesOk, CreationsOk, FlowsOk;
    assert ClaimOk(w, c);
    StartOrJoinKeeps(w, ResolvePaymentFlow(c.order, c.outcome), ResolvePayment(c.order, c.outcome), w');
  }

  lemma {:induction false} AnswerWorkerKeeps(w: World, c: SettlementClaim, w': World)
    requires Inv(w) && StepAnswerWorker(w, c, w')
    ensures Later(w, w') && Inv(w')
  {
    hide Consistent, ReferencesOk, ClaimsOk, UniqueOk, LocksOk, PaymentsOk, TasksOk, RepliesOk, MissesOk, CreationsOk;
    var f := ResolvePaymentFlow(c.order, c.outcome);
    assert FlowOk(w, f, w.flows[f]);
    assert AnswerOk(w', c, w.flows[f].result.order.status);
    ProgressKeeps(w, w');
  }

  /* ---- Steps on the Tickets tables ---- */

  lemma {:induction false} TicketsLater(w: World, i: nat, w': World)
    requires Consistent(w.tickets, w.history) && TasksOk(w)
    requires StepAttempt(w, i, w') && TicketsSide(w.tasks[i].activity)
    ensures Later(w, w') && Consistent(w'.tickets, w'.history)
  {
    var activity := w.tasks[i].activity;
    assert TaskOk(w, activity);
    PerformKeepsConsistent(w.tickets, w.history, activity);
    RecordGrows(w.history, TicketOf(activity), w.tickets, w'.tickets);
    RowsMove(w, activity, w');
    OthersStill(w, i, w');
  }

  lemma {:induction false} OthersStill(w: World, i: nat, w': World)
    requires StepAttempt(w, i, w') && TicketsSide(w.tasks[i].activity)
    ensures LedgerGrows(w, w') && CheckoutsEvolve(w, w') && TasksEvolve(w, w')
    ensures PaymentsEvolve(w.payments, w'.payments) && Evolves(w.orders, w'.orders)
  {
  }

  lemma {:induction false} RowsMove(w: World, activity: Activity, w': World)
    requires TicketsSide(activity) && TaskOk(w, activity)
    requires w'.tickets == Perform(w.tickets, activity).0 && w'.orders == w.orders
    ensures RowsEvolve(w, w')
  {
  }

  /** Claims and releases always find their ticket row. */
  lemma {:induction false} ClaimReplyOk(w: World, activity: Activity, w': World)
    requires (activity.ClaimTicket? || activity.ReleaseTicket?) && TaskOk(w, activity)
    requires ReferencesOk(w) && w.history.Keys == w.tickets.rows.Keys
    requires w'.tickets == Perform(w.tickets, activity).0 && w'.orders == w.orders
    ensures ReplyOk(w', activity, Perform(w.tickets, activity).1)
  {
    assert activity.ticket in w.orders.projection;
    assert WasPublished(w.history, w.orders.projection[activity.ticket]);
  }

  lemma {:induction false} CreateReplyOk(w: World, input: TicketInput, w': World)
    requires CreationOk(w, input) && w.history.Keys == w.tickets.rows.Keys
    requires w'.tickets == Perform(w.tickets, PersistTicket(input)).0
    requires w'.history == Record(w.history, input.ticket, w.tickets, w'.tickets)
    ensures ReplyOk(w', PersistTicket(input), Perform(w.tickets, PersistTicket(input)).1)
  {
    if input.ticket !in w.tickets.rows && input.ticket in w'.tickets.rows {
      assert w'.history[input.ticket] == [FirstVersion(input)];
    } else if input.ticket in w.tickets.rows {
      assert w'.tickets == w.tickets && w'.history == w.history;
    }
  }

  lemma {:induction false} EditReplyOk(w: World, input: EditInput, w': World)
    requires LedgerRows(w'.tickets, w'.history)
    requires w'.tickets == Perform(w.tickets, PersistTicketUpdate(input)).0
    ensures ReplyOk(w', PersistTicketUpdate(input), Perform(w.tickets, PersistTicketUpdate(input)).1)
  {
    hide WasPublished;
    var reply := Perform(w.tickets, PersistTicketUpdate(input)).1;
    if reply.TicketStored? {
      assert KeyOf(input) in w'.tickets.ledger && w'.tickets.ledger[KeyOf(input)] == reply.snapshot;
    }
  }

  lemma {:induction false} ClaimsMove(w: World, activity: Activity, w': World)
    requires ClaimsOk(w) && TicketsSide(activity) && TaskOk(w, activity)
    requires w'.tickets == Perform(w.tickets, activity).0 && w'.orders == w.orders
    ensures ClaimsOk(w')
  {
  }

  lemma {:induction false} CreationsMove(w: World, i: nat, w': World)
    requires CreationsOk(w) && Later(w, w') && i < |w.tasks| && TicketsSide(w.tasks[i].activity)
    requires w'.tickets == Perform(w.tickets, w.tasks[i].activity).0
    requires w'.history == Record(w.history, TicketOf(w.tasks[i].activity), w.tickets, w'.tickets)
    requires |w'.tasks| == |w.tasks|
    ensures CreationsOk(w')
  {
    forall j | 0 <= j < |w'.tasks| && w'.tasks[j].activity.PersistTicket?
      ensures CreationOk(w', w'.tasks[j].activity.creation)
    {
      var input := w.tasks[j].activity.creation;
      assert CreationOk(w, input);
      if input.ticket in w.tickets.rows {
        StaysPublished(w.history, w'.history, FirstVersion(input));
      } else if input.ticket in w'.tickets.rows {
        assert w.tasks[i].activity.PersistTicket? && w.tasks[i].activity.creation.ticket == input.ticket;
        assert i == j;
        assert w'.history[input.ticket] == [FirstVersion(input)];
      }
    }
  }

  /** Published versions carry over to everything that refers to them. */
  lemma {:induction false} ReferencesCarry(w: World, w': World)
    requires ReferencesOk(w) && HistoryGrows(w.history, w'.history) && w'.orders == w.orders
    ensures ReferencesOk(w')
  {
    forall t | t in w'.orders.projection
      ensures WasPublished(w'.history, w'.orders.projection[t])
    {
      StaysPublished(w.history, w'.history, w.orders.projection[t]);
    }
  }

  lemma {:induction false} PaymentsCarry(w: World, w': World)
    requires PaymentsOk(w) && HistoryGrows(w.history, w'.history) && w'.orders == w.orders && w'.payments == w.payments
    ensures PaymentsOk(w')
  {
    forall o | o in w'.payments.byOrder
      ensures PaymentAgrees(w', o)
    {
      assert PaymentAgrees(w, o);
      PriceStaysPublished(w.history, w'.history, w.orders.orders[o].ticket, w.payments.copies[o].price);
    }
  }

  /** The reply to a Tickets activity, judged in the state it produced. */
  lemma {:induction false} AttemptReplyOk(w: World, activity: Activity, w': World)
    requires TicketsSide(activity) && TaskOk(w, activity) && ReferencesOk(w)
    requires Consistent(w.tickets, w.history) && Consistent(w'.tickets, w'.history)
    requires activity.PersistTicket? ==> CreationOk(w, activity.creation)
    requires w'.tickets == Perform(w.tickets, activity).0 && w'.orders == w.orders
    requires w'.history == Record(w.history, TicketOf(activity), w.tickets, w'.tickets)
    ensures ReplyOk(w', activity, Perform(w.tickets, activity).1)
  {
    hide LedgerRows, LedgerInjective, LedgerOnto, LedgerCounts, ReferencesOk, ReplyOk, CreationOk, TaskOk, Perform,
         Record;
    match activity
    case ClaimTicket(t, o) => ClaimReplyOk(w, activity, w');
    case ReleaseTicket(t, o) => ClaimReplyOk(w, activity, w');
    case PersistTicket(input) => CreateReplyOk(w, input, w');
    case PersistTicketUpdate(input) => EditReplyOk(w, input, w');
  }

  lemma {:induction false} AttemptTicketsKeeps(w: World, i: nat, w': World)
    requires Inv(w) && StepAttempt(w, i, w') && TicketsSide(w.tasks[i].activity)
    ensures Later(w, w') && Inv(w')
  {
    hide HistoryOk, LedgerRows, LedgerInjective, LedgerOnto, LedgerCounts, ReferencesOk, ClaimsOk, UniqueOk, PaymentsOk;
    hide Later, ReplyOk, MissOk, FlowOk, LockOk, ClaimOk, AnswerOk, CreationOk, Perform, Record;
    var activity := w.tasks[i].activity;
    assert TaskOk(w, activity);
    TicketsLater(w, i, w');
    AttemptReplyOk(w, activity, w');
    ClaimsMove(w, activity, w');
    CreationsMove(w, i, w');
    ReferencesCarry(w, w');
    PaymentsCarry(w, w');
    TasksCarry(w, w');
    FlowsCarry(w, w');
    WorkersCarry(w, w');
    LocksCarry(w, w');
  }

  /* ---- Steps on the Orders tables ---- */

  /** Orders keep everything but their status, and no order starts to block a ticket it did not block. */
  ghost predicate BlocksLess(db: OrdersDb, db': OrdersDb) {
    && db'.orders.Keys == db.orders.Keys
    && forall o :: o in db.orders ==>
      && db'.orders[o] == db.orders[o].(status := db'.orders[o].status)
      && (db.orders[o].status == Canceled ==> db'.orders[o].status == Canceled)
  }

  lemma {:induction false} UpdateBlocksLess(db: OrdersDb, now: Time, activity: Activity)
    requires TwoStatement(activity)
    ensures BlocksLess(db, Update(db, now, activity).0)
  {
  }

  lemma {:induction false} LessBlocking(db: OrdersDb, db': OrdersDb)
    requires BlocksLess(db, db')
    ensures UniqueOk(db) ==> UniqueOk(db')
    ensures forall t :: NothingBlocks(db, t) ==> NothingBlocks(db', t)
  {
    assert forall t, o :: Blocks(db', t, o) ==> Blocks(db, t, o);
  }

  lemma {:induction false} UpdateLater(w: World, activity: Activity, w': World)
    requires TwoStatement(activity) && TaskOk(w, activity)
    requires w'.orders == Update(w.orders, w.now, activity).0
    requires w'.tickets == w.tickets && w'.payments == w.payments && w'.history == w.history
    requires w'.now == w.now && w'.claims == w.claims && w'.answers == w.answers && TasksEvolve(w, w')
    ensures Later(w, w')
  {
    UpdateEvolves(w.orders, w.now, activity);
    UpdateEndsCheckouts(w, activity, w');
    hide Update, TaskOk;
  }

  lemma {:induction false} UpdateEvolves(db: OrdersDb, now: Time, activity: Activity)
    requires TwoStatement(activity)
    ensures Evolves(db, Update(db, now, activity).0)
  {
  }

  lemma {:induction false} UpdateEndsCheckouts(w: World, activity: Activity, w': World)
    requires TwoStatement(activity) && TaskOk(w, activity)
    requires w'.orders == Update(w.orders, w.now, activity).0 && w'.payments == w.payments
    ensures CheckoutsEvolve(w, w')
  {
  }

  /** A statement either leaves the projection alone or projects its snapshot. */
  lemma {:induction false} UpdateProjects(db: OrdersDb, now: Time, activity: Activity)
    requires TwoStatement(activity)
    ensures var db' := Update(db, now, activity).0;
            || db'.projection == db.projection
            || (activity.ProjectTicket?
                && db'.projection == db.projection[activity.snapshot.ticket := activity.snapshot])
  {
  }

  lemma {:induction false} UpdateKeepsReferences(w: World, activity: Activity, w': World)
    requires TwoStatement(activity) && TaskOk(w, activity) && ReferencesOk(w)
    requires w'.orders == Update(w.orders, w.now, activity).0 && w'.history == w.history
    ensures ReferencesOk(w')
  {
    UpdateProjects(w.orders, w.now, activity);
    UpdateBlocksLess(w.orders, w.now, activity);
    hide Update, WasPublished;
  }

  lemma {:induction false} UpdateKeepsAgreement(w: World, activity: Activity, w': World, o: OrderId)
    requires TwoStatement(activity) && TaskOk(w, activity) && PaymentAgrees(w, o)
    requires w'.orders == Update(w.orders, w.now, activity).0
    requires w'.payments == w.payments && w'.history == w.history
    ensures PaymentAgrees(w', o)
  {
    hide PublishedPrice, WasPublished, ValidProjection, ProjectMatches;
  }

  lemma {:induction false} UpdateKeepsPayments(w: World, activity: Activity, w': World)
    requires TwoStatement(activity) && TaskOk(w, activity) && PaymentsOk(w)
    requires w'.orders == Update(w.orders, w.now, activity).0
    requires w'.payments == w.payments && w'.history == w.history
    ensures PaymentsOk(w')
  {
    hide TaskOk, Update, PaymentAgrees, PaymentStore.IndexOk;
    forall o | o in w'.payments.byOrder
      ensures PaymentAgrees(w', o)
    {
      UpdateKeepsAgreement(w, activity, w', o);
    }
  }

  lemma {:induction false} UpdateReplyOk(w: World, activity: Activity, w': World)
    requires TwoStatement(activity) && TaskOk(w, activity) && ReferencesOk(w)
    requires w'.orders == Update(w.orders, w.now, activity).0
    requires w'.payments == w.payments && w'.history == w.history
    requires Update(w.orders, w.now, activity).1.Some?
    ensures ReplyOk(w', activity, Update(w.orders, w.now, activity).1.value)
  {
    if activity.StartOrderPayment? {
      StartReplyOk(w, activity.order, activity.user, w');
    }
  }

  lemma {:induction false} StartReplyOk(w: World, o: OrderId, u: UserId, w': World)
    requires ReferencesOk(w) && w'.orders == Update(w.orders, w.now, StartOrderPayment(o, u)).0
    requires w'.history == w.history && Update(w.orders, w.now, StartOrderPayment(o, u)).1.Some?
    ensures ReplyOk(w', StartOrderPayment(o, u), Update(w.orders, w.now, StartOrderPayment(o, u)).1.value)
  {
    ProjectedPrice(w, w.orders.orders[o].ticket);
    hide ReferencesOk, PublishedPrice;
  }

  /** A conditional UPDATE that matches nothing changes nothing but the attempt itself. */
  lemma {:induction false} MissKeeps(w: World, i: nat, w': World)
    requires Inv(w) && StepAttempt(w, i, w') && TwoStatement(w.tasks[i].activity)
    requires Update(w.orders, w.now, w.tasks[i].activity).1 == None
    ensures Later(w, w') && Inv(w')
  {
    hide Consistent, ReferencesOk, ClaimsOk, UniqueOk, PaymentsOk, Later;
    hide ReplyOk, TaskOk, MissOk, FlowOk, LockOk, ClaimOk, AnswerOk, CreationOk;
    MissLater(w, i, w');
    MissedOk(w, w.tasks[i].activity, w');
    TablesCarry(w, w');
    TasksCarry(w, w');
    FlowsCarry(w, w');
    WorkersCarry(w, w');
    CreationsCarry(w, w');
    LocksCarry(w, w');
  }

  lemma {:induction false} MissLater(w: World, i: nat, w': World)
    requires i < |w.tasks| && w' == w.(tasks := w.tasks[i := w.tasks[i].(missed := true, last := None)])
    ensures Later(w, w')
  {
  }

  lemma {:induction false} MissedOk(w: World, activity: Activity, w': World)
    requires TwoStatement(activity) && TaskOk(w, activity) && PaymentsOk(w) && w'.orders == w.orders
    requires Update(w.orders, w.now, activity).1 == None
    ensures MissOk(w', activity)
  {
    if activity.ResolvePayment? {
      assert PaymentAgrees(w, activity.order);
    }
  }

  lemma {:induction false} HitKeeps(w: World, i: nat, w': World)
    requires Inv(w) && StepAttempt(w, i, w') && TwoStatement(w.tasks[i].activity)
    requires Update(w.orders, w.now, w.tasks[i].activity).1.Some?
    ensures Later(w, w') && Inv(w')
  {
    hide Consistent, ReferencesOk, ClaimsOk, UniqueOk, NothingBlocks, PaymentsOk, Later, Update;
    hide ReplyOk, TaskOk, MissOk, FlowOk, LockOk, ClaimOk, AnswerOk, CreationOk;
    var activity := w.tasks[i].activity;
    UpdateLater(w, activity, w');
    UpdateBlocksLess(w.orders, w.now, activity);
    LessBlocking(w.orders, w'.orders);
    UpdateKeepsReferences(w, activity, w');
    UpdateKeepsPayments(w, activity, w');
    ClaimsCarry(w, w');
    UpdateReplyOk(w, activity, w');
    TasksCarry(w, w');
    FlowsCarry(w, w');
    WorkersCarry(w, w');
    CreationsCarry(w, w');
    LocksCarry(w, w');
  }

  lemma {:induction false} ClaimsCarry(w: World, w': World)
    requires ClaimsOk(w) && Later(w, w') && w'.tickets == w.tickets
    ensures ClaimsOk(w')
  {
  }

  lemma {:induction false} CommitLater(w: World, t: TicketId, w': World)
    requires StepReserveCommit(w, t, w')
    ensures Later(w, w')
  {
  }

  /** The committed order is the only one that blocks its ticket. */
  lemma {:induction false} CommitKeepsUnique(w: World, t: TicketId, w': World)
    requires StepReserveCommit(w, t, w') && LockOk(w, t) && UniqueOk(w.orders)
    ensures UniqueOk(w'.orders)
    ensures forall u :: u != t && NothingBlocks(w.orders, u) ==> NothingBlocks(w'.orders, u)
  {
    var o := w.tasks[w.locks[t].task].activity.reservation.order;
    forall p, q | p in w'.orders.orders && q in w'.orders.orders
        && Blocks(w'.orders, w'.orders.orders[p].ticket, p) && Blocks(w'.orders, w'.orders.orders[p].ticket, q)
      ensures p == q
    {
      if p != o && q != o {
        assert Blocks(w.orders, w.orders.orders[p].ticket, p) && Blocks(w.orders, w.orders.orders[p].ticket, q);
      }
    }
  }

  lemma {:induction false} CommitKeepsTables(w: World, t: TicketId, w': World)
    requires StepReserveCommit(w, t, w') && LockOk(w, t) && ReferencesOk(w) && PaymentsOk(w)
    ensures ReferencesOk(w') && PaymentsOk(w')
    ensures ReplyOk(w', w.tasks[w.locks[t].task].activity,
        Reserved(true, NewOrder(w.tasks[w.locks[t].task].activity.reservation)))
  {
    forall o | o in w'.payments.byOrder
      ensures PaymentAgrees(w', o)
    {
      hide PublishedPrice;
      assert PaymentAgrees(w, o);
    }
  }

  lemma {:induction false} ReserveCommitKeeps(w: World, t: TicketId, w': World)
    requires Inv(w) && StepReserveCommit(w, t, w')
    ensures Later(w, w') && Inv(w')
  {
    hide Consistent, ReferencesOk, ClaimsOk, UniqueOk, NothingBlocks, PaymentsOk, Later;
    hide ReplyOk, TaskOk, MissOk, FlowOk, LockOk, ClaimOk, AnswerOk, CreationOk;
    CommitLater(w, t, w');
    CommitKeepsUnique(w, t, w');
    CommitKeepsTables(w, t, w');
    ClaimsCarry(w, w');
    TasksCarry(w, w');
    FlowsCarry(w, w');
    WorkersCarry(w, w');
    CreationsCarry(w, w');
    LocksCarry(w, w');
  }

  /* ---- Steps on the Payments tables ---- */

  /** Everything outside Payments carries over when only Payments moved. */
  lemma {:induction false} PaymentStepKeeps(w: World, w': World)
    requires Inv(w) && Later(w, w') && PaymentsOk(w')
    requires w'.tickets == w.tickets && w'.orders == w.orders && w'.history == w.history
    requires w'.locks == w.locks && w'.flows == w.flows && |w'.tasks| == |w.tasks|
    requires forall i, r :: 0 <= i < |w.tasks| && r in w'.tasks[i].replies && r !in w.tasks[i].replies ==>
      ReplyOk(w', w.tasks[i].activity, r)
    requires forall i :: 0 <= i < |w.tasks| && w'.tasks[i].missed ==> w.tasks[i].missed
    requires forall c :: c in w'.claims && c !in w.claims ==> ClaimOk(w', c)
    requires w'.answers == w.answers
    ensures Inv(w')
  {
    hide Consistent, UniqueOk, NothingBlocks, PaymentsOk, Later, WasPublished;
    hide ReplyOk, TaskOk, MissOk, FlowOk, LockOk, ClaimOk, AnswerOk, CreationOk;
    TasksCarry(w, w');
    FlowsCarry(w, w');
    WorkersCarry(w, w');
    CreationsCarry(w, w');
    LocksCarry(w, w');
  }

  lemma {:induction false} PaymentLater(w: World, w': World)
    requires PaymentsEvolve(w.payments, w'.payments) && TasksEvolve(w, w')
    requires w'.now == w.now && w'.tickets == w.tickets && w'.orders == w.orders && w'.history == w.history
    requires w.claims <= w'.claims && w.answers <= w'.answers
    ensures Later(w, w')
  {
  }

  lemma {:induction false} AttemptPaymentKeeps(w: World, i: nat, id: PaymentId, w': World)
    requires Inv(w) && StepAttemptPayment(w, i, id, w')
    ensures Later(w, w') && Inv(w')
  {
    hide Consistent, ReferencesOk, ClaimsOk, UniqueOk, LocksOk, RepliesOk, MissesOk, CreationsOk, FlowsOk, WorkersOk,
         Later;
    var PersistPayment(o, u, price) := w.tasks[i].activity;
    assert CheckedOut(w, o, u, price);
    hide Inv, CheckedOut, PaymentStore.Create, TasksOk, PaymentsOk;
    CreatePaymentAgrees(w, o, u, price, id, w');
    PaymentLater(w, w');
    PaymentStepKeeps(w, w');
  }

  lemma {:induction false} CreatedAgrees(w: World, o: OrderId, u: UserId, price: int, id: PaymentId, w': World,
      p: OrderId)
    requires PaymentStore.IndexOk(w.payments) && CheckedOut(w, o, u, price) && id !in w.payments.payments
    requires p in w.payments.byOrder ==> PaymentAgrees(w, p)
    requires w'.payments == PaymentStore.Create(w.payments, id, o, PaymentStore.OrderCopy(u, price, AwaitingPayment)).0
    requires w'.orders == w.orders && w'.history == w.history
    requires p in w'.payments.byOrder
    ensures PaymentAgrees(w', p)
  {
    hide PublishedPrice;
  }

  lemma {:induction false} CreateEvolves(db: PaymentStore.PaymentsDb, id: PaymentId, o: OrderId,
      copy: PaymentStore.OrderCopy)
    requires PaymentStore.IndexOk(db) && id !in db.payments
    ensures PaymentsEvolve(db, PaymentStore.Create(db, id, o, copy).0)
  {
  }

  lemma {:induction false} CreatePaymentAgrees(w: World, o: OrderId, u: UserId, price: int, id: PaymentId, w': World)
    requires PaymentsOk(w) && CheckedOut(w, o, u, price) && id !in w.payments.payments
    requires w'.payments == PaymentStore.Create(w.payments, id, o, PaymentStore.OrderCopy(u, price, AwaitingPayment)).0
    requires w'.orders == w.orders && w'.history == w.history
    ensures PaymentsOk(w') && PaymentsEvolve(w.payments, w'.payments)
    ensures ReplyOk(w', PersistPayment(o, u, price),
                    PaymentStore.Create(w.payments, id, o, PaymentStore.OrderCopy(u, price, AwaitingPayment)).1)
  {
    hide PaymentAgrees, CheckedOut, PaymentsEvolve;
    PaymentStore.CreateKeepsIndex(w.payments, id, o, PaymentStore.OrderCopy(u, price, AwaitingPayment));
    CreateEvolves(w.payments, id, o, PaymentStore.OrderCopy(u, price, AwaitingPayment));
    forall p | p in w'.payments.byOrder
      ensures PaymentAgrees(w', p)
    {
      CreatedAgrees(w, o, u, price, id, w', p);
    }
  }

  lemma {:induction false} ClaimPaymentKeeps(w: World, p: PaymentId, configured: PaymentStatus, until: Time,
      locked: set<PaymentId>, w': World)
    requires Inv(w) && StepClaimPayment(w, p, configured, until, locked, w')
    ensures Later(w, w') && Inv(w')
  {
    hide Consistent, ReferencesOk, ClaimsOk, UniqueOk, LocksOk, TasksOk, RepliesOk, MissesOk, CreationsOk, FlowsOk,
         WorkersOk, Later;
    ClaimAgrees(w, p, configured, until, w');
    PaymentLater(w, w');
    PaymentStepKeeps(w, w');
  }

  lemma {:induction false} ClaimAgrees(w: World, p: PaymentId, configured: PaymentStatus, until: Time, w': World)
    requires PaymentsOk(w) && configured != Pending
    requires p in w.payments.payments && w.payments.payments[p].status == Pending
    requires w'.payments == PaymentStore.Claim(w.payments, p, configured, until)
    requires w'.orders == w.orders && w'.history == w.history
    ensures PaymentsOk(w') && PaymentsEvolve(w.payments, w'.payments)
    ensures ClaimOk(w', SettlementClaim(p, w'.payments.payments[p].order, w'.payments.payments[p].outcome.value))
  {
    PaymentStore.ClaimKeepsIndex(w.payments, p, configured, until);
    ClaimedPayment(w, p, configured, until, w');
    forall o | o in w'.payments.byOrder
      ensures PaymentAgrees(w', o)
    {
      hide PaymentAgrees, PaymentsEvolve, ClaimOk;
      ClaimedAgrees(w, p, configured, until, w', o);
    }
  }

  lemma {:induction false} ClaimedPayment(w: World, p: PaymentId, configured: PaymentStatus, until: Time, w': World)
    requires PaymentsOk(w) && configured != Pending
    requires p in w.payments.payments && w.payments.payments[p].status == Pending
    requires w'.payments == PaymentStore.Claim(w.payments, p, configured, until)
    ensures PaymentsEvolve(w.payments, w'.payments)
    ensures ClaimOk(w', SettlementClaim(p, w'.payments.payments[p].order, w'.payments.payments[p].outcome.value))
  {
    assert PaymentAgrees(w, w.payments.payments[p].order);
  }

  lemma {:induction false} ClaimedAgrees(w: World, p: PaymentId, configured: PaymentStatus, until: Time, w': World,
      o: OrderId)
    requires PaymentStore.IndexOk(w.payments) && PaymentAgrees(w, o) && configured != Pending
    requires p in w.payments.payments && w.payments.payments[p].status == Pending
    requires w'.payments == PaymentStore.Claim(w.payments, p, configured, until)
    requires w'.orders == w.orders && w'.history == w.history
    ensures PaymentAgrees(w', o)
  {
    hide PublishedPrice;
  }

  lemma {:induction false} MarkPaymentKeeps(w: World, c: SettlementClaim, w': World)
    requires Inv(w) && StepMarkPayment(w, c, w')
    ensures Later(w, w') && Inv(w')
  {
    hide Consistent, ReferencesOk, ClaimsOk, UniqueOk, LocksOk, TasksOk, RepliesOk, MissesOk, CreationsOk, FlowsOk,
         Later;
    assert AnswerOk(w, c, ExpectedOrderStatus(c.outcome).value);
    assert ClaimOk(w, c);
    MarkAgrees(w, c, w');
    PaymentLater(w, w');
    PaymentStepKeeps(w, w');
  }

  lemma {:induction false} MarkedAgrees(w: World, c: SettlementClaim, w': World, o: OrderId)
    requires PaymentStore.IndexOk(w.payments) && ClaimOk(w, c) && PaymentAgrees(w, o)
    requires c.order in w.orders.orders && ExpectedOrderStatus(c.outcome) == Some(w.orders.orders[c.order].status)
    requires w'.payments == PaymentStore.MarkResolved(w.payments, c.payment, c.outcome)
    requires w'.orders == w.orders && w'.history == w.history
    ensures PaymentAgrees(w', o)
  {
    hide PublishedPrice;
  }

  lemma {:induction false} MarkEvolves(db: PaymentStore.PaymentsDb, p: PaymentId, outcome: PaymentStatus)
    requires PaymentStore.IndexOk(db)
    ensures PaymentsEvolve(db, PaymentStore.MarkResolved(db, p, outcome))
  {
  }

  lemma {:induction false} MarkAgrees(w: World, c: SettlementClaim, w': World)
    requires PaymentsOk(w) && ClaimOk(w, c)
    requires c.order in w.orders.orders && ExpectedOrderStatus(c.outcome) == Some(w.orders.orders[c.order].status)
    requires w'.payments == PaymentStore.MarkResolved(w.payments, c.payment, c.outcome)
    requires w'.orders == w.orders && w'.history == w.history
    ensures PaymentsOk(w') && PaymentsEvolve(w.payments, w'.payments)
  {
    hide PaymentAgrees, PaymentsEvolve, ClaimOk;
    PaymentStore.MarkKeepsIndex(w.payments, c.payment, c.outcome);
    MarkEvolves(w.payments, c.payment, c.outcome);
    forall o | o in w'.payments.byOrder
      ensures PaymentAgrees(w', o)
    {
      MarkedAgrees(w, c, w', o);
    }
  }

  /* ---- Every step ---- */

  lemma {:induction false} AttemptKeeps(w: World, i: nat, w': World)
    requires Inv(w) && StepAttempt(w, i, w')
    ensures Later(w, w') && Inv(w')
  {
    hide Inv, Later, Perform, Record, Update;
    if TicketsSide(w.tasks[i].activity) {
      AttemptTicketsKeeps(w, i, w');
    } else if Update(w.orders, w.now, w.tasks[i].activity).1.Some? {
      HitKeeps(w, i, w');
    } else {
      MissKeeps(w, i, w');
    }
  }

  /** Every step, whatever its faults, keeps the invariant and moves the system forward. */
  lemma {:induction false} StepKeeps(w: World, a: Action, w': World)
    requires Inv(w) && Step(w, a, w')
    ensures Later(w, w') && Inv(w')
  {
    hide Inv, Later, StepAttempt, StepReadBack, StepDeliver, StepDeliverEdit, StepClaimPayment, StepAttemptPayment;
    hide StepStartCreateOrder, StepStart, StepStartCreateTicket, StepRequestEdit, StepGrantMutex, StepReserveLock;
    hide StepReserveFind, StepReserveInsert, StepReserveCommit, StepReserveRollback, StepStartExpiryChild;
    hide StepFireTimer, StepCallResolve, StepAnswerWorker, StepMarkPayment;
    match a
    case StartCreateOrder(input) => StartCreateOrderKeeps(w, input, w');
    case StartCancelOrder(o, u) => StartOrJoinKeeps(w, CancelOrderFlow(o), CancelOrder(o, u), w');
    case StartCreatePayment(o, u) => StartOrJoinKeeps(w, CreatePaymentFlow(o, u), StartOrderPayment(o, u), w');
    case StartCreateTicket(key, input) => StartCreateTicketKeeps(w, key, input, w');
    case RequestEdit(input) => RequestEditKeeps(w, input, w');
    case GrantMutex(input) => GrantMutexKeeps(w, input, w');
    case Attempt(i) => AttemptKeeps(w, i, w');
    case AttemptPayment(i, id) => AttemptPaymentKeeps(w, i, id, w');
    case AttemptReadBack(i) => ReadBackKeeps(w, i, w');
    case ReserveLock(i) => ReserveLockKeeps(w, i, w');
    case ReserveFind(t, found) => ReserveFindKeeps(w, t, found, w');
    case ReserveInsert(t) => ReserveInsertKeeps(w, t, w');
    case ReserveCommit(t) => ReserveCommitKeeps(w, t, w');
    case ReserveRollback(t) => ReserveRollbackKeeps(w, t, w');
    case Deliver(f, reply) => DeliverKeeps(w, f, reply, w');
    case DeliverEdit(t, reply) => DeliverEditKeeps(w, t, reply, w');
    case StartExpiryChild(o) => StartExpiryChildKeeps(w, o, w');
    case FireTimer(o) => FireTimerKeeps(w, o, w');
    case ClaimPayment(p, configured, until, locked) => ClaimPaymentKeeps(w, p, configured, until, locked, w');
    case CallResolve(c) => CallResolveKeeps(w, c, w');
    case AnswerWorker(c) => AnswerWorkerKeeps(w, c, w');
    case MarkPayment(c) => MarkPaymentKeeps(w, c, w');
    case Tick(to) => TickKeeps(w, to, w');
  }
}
