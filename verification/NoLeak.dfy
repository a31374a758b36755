/**
  No leaked claim: when a Canceled order keeps a ticket, some workflow is still bound to
  release it. Under ordinary retries the code breaks this by exactly one kind of step, the
  claim of a free ticket for a Canceled order that no workflow watches any more.
 */
module NoLeak {
  import opened Domain
  import opened TicketStore
  import opened OrderStore
  import opened Saga
  import opened Evolution
  import opened Invariant
  import opened Frames
  import opened Theorems
  import opened Retry

  ghost predicate WaitsFor(w: World, f: FlowId) {
    f in w.flows && w.flows[f].Waiting? && w.flows[f].task < |w.tasks|
  }

  ghost function TaskFor(w: World, f: FlowId): Task
    requires WaitsFor(w, f)
  {
    w.tasks[w.flows[f].task]
  }

  /** The creating workflow of o, which saw Created = true, waits for its claim. */
  ghost predicate AwaitsOwnClaim(w: World, o: OrderId) {
    var f := CreateOrderFlow(o);
    WaitsFor(w, f) && w.flows[f].saved.Some? && w.flows[f].saved.value.Reserved? && w.flows[f].saved.value.created
  }

  /** Its last attempt to claim, if there was one, was not refused. */
  ghost predicate CreatorClaims(w: World, o: OrderId) {
    && AwaitsOwnClaim(w, o)
    && !(TaskFor(w, CreateOrderFlow(o)).last.Some? && TaskFor(w, CreateOrderFlow(o)).last.value.Rejected?)
  }

  /* ---- Who is still bound to release the claim of a Canceled order ---- */

  /** A release was scheduled and has not taken effect yet. */
  ghost predicate ReleasePending(w: World, f: FlowId) {
    WaitsFor(w, f) && TaskFor(w, f).activity.ReleaseTicket? && TaskFor(w, f).last == None
  }

  /** The expiry workflow has yet to look at the order, or has seen that it must release. */
  ghost predicate ExpiryLooks(w: World, f: FlowId, o: OrderId) {
    && WaitsFor(w, f) && TaskFor(w, f).activity == ExpireOrder(o)
    && (TaskFor(w, f).last == None || (TaskFor(w, f).last.value.Expired? && TaskFor(w, f).last.value.shouldRelease))
  }

  /** The owner's cancel has yet to find the order Canceled, or has found it so. */
  ghost predicate CancelLooks(w: World, f: FlowId, o: OrderId) {
    && WaitsFor(w, f) && o in w.orders.orders && TaskFor(w, f).activity == CancelOrder(o, w.orders.orders[o].user)
    && (TaskFor(w, f).last == None || TaskFor(w, f).last.value.CanceledOrder?)
  }

  /** Workflow f will go on to release order o's claim, or to start the workflow that will. */
  ghost predicate Bound(w: World, f: FlowId, o: OrderId) {
    && f in w.flows
    && match f
       case CreateOrderFlow(p) => p == o && (CreatorClaims(w, o) || w.flows[f].StartingExpiry?)
       case ExpireOrderFlow(p) => p == o && (w.flows[f].Sleeping? || ExpiryLooks(w, f, o) || ReleasePending(w, f))
       case CancelOrderFlow(p) => p == o && (CancelLooks(w, f, o) || ReleasePending(w, f))
       case ResolvePaymentFlow(p, outcome) =>
         && p == o && outcome == Failed
         && ((WaitsFor(w, f) && TaskFor(w, f).activity == ResolvePayment(o, Failed)) || ReleasePending(w, f))
       case _ => false
  }

  ghost predicate Covered(w: World, o: OrderId) {
    exists f :: Bound(w, f, o)
  }

  ghost predicate ClaimsCovered(w: World) {
    forall t, o :: Holds(w, t, o) && IsCanceled(w, o) ==> Covered(w, o)
  }

  /**
    Claiming a free ticket for a Canceled order: only while some workflow is bound to release
    it, or for the creating workflow that will then start the one that does.
   */
  ghost predicate ClaimGuard(w: World, a: Action) {
    a.Attempt? && a.task < |w.tasks| && w.tasks[a.task].activity.ClaimTicket? ==>
      var ClaimTicket(t, o) := w.tasks[a.task].activity;
      IsCanceled(w, o) && t in w.tickets.rows && w.tickets.rows[t].reservedBy == None ==>
        Covered(w, o) || (AwaitsOwnClaim(w, o) && w.flows[CreateOrderFlow(o)].task == a.task)
  }

  ghost predicate CarefulRun(ws: seq<World>, acts: seq<Action>) {
    RetryRun(ws, acts) && forall i :: 0 <= i < |acts| ==> ClaimGuard(ws[i], acts[i])
  }

  /* ---- What a waiting workflow waits for ---- */

  /** The activity that flow f, with its local variable, may wait for. */
  ghost predicate RightActivity(w: World, f: FlowId, activity: Activity, saved: Option<Reply>) {
    match saved
    case None => FirstActivity(f, activity)
    case Some(reply) => SavedOk(w, f, activity, reply)
  }

  lemma {:induction false} WaitFacts(w: World, f: FlowId)
    requires Inv(w) && WaitInv(w) && f in w.flows && w.flows[f].Waiting?
    ensures WaitsFor(w, f) && TaskFor(w, f).owner == f && !TaskFor(w, f).acked
    ensures TaskFor(w, f).last.Some? ==>
      TaskFor(w, f).last.value in TaskFor(w, f).replies && ReplyOk(w, TaskFor(w, f).activity, TaskFor(w, f).last.value)
    ensures RightActivity(w, f, TaskFor(w, f).activity, w.flows[f].saved)
  {
    hide ReplyOk, FirstActivity, SavedOk, TaskOk, Consistent, PaymentAgrees, LockOk;
    assert FlowWaits(w, f) && FlowOk(w, f, w.flows[f]);
  }

  lemma {:induction false} HeldOrder(w: World, t: TicketId, o: OrderId)
    requires Inv(w) && Holds(w, t, o)
    ensures o in w.orders.orders && w.orders.orders[o].ticket == t && w.orders.orders[o].id == o
  {
  }

  /** A bound workflow's claim or release names the order's own ticket; it awaits no reservation and no payment. */
  lemma {:induction false} BoundActivity(w: World, f: FlowId, o: OrderId)
    requires WaitsFor(w, f) && Bound(w, f, o) && o in w.orders.orders && w.orders.orders[o].id == o
    requires RightActivity(w, f, TaskFor(w, f).activity, w.flows[f].saved)
    ensures TaskFor(w, f).activity.ReleaseTicket? ==>
      TaskFor(w, f).activity == ReleaseTicket(w.orders.orders[o].ticket, o)
    ensures TaskFor(w, f).activity.ClaimTicket? ==> TaskFor(w, f).activity == ClaimTicket(w.orders.orders[o].ticket, o)
    ensures !TaskFor(w, f).activity.ReserveOrder? && !TaskFor(w, f).activity.PersistPayment?
    ensures f == CreateOrderFlow(o) ==> TaskFor(w, f).activity.ClaimTicket?
  {
  }

  /* ---- A bound workflow that a step does not touch stays bound ---- */

  lemma {:induction false} UntouchedStaysBound(w: World, w': World, f: FlowId, o: OrderId)
    requires Bound(w, f, o) && f in w'.flows && w'.flows[f] == w.flows[f]
    requires WaitsFor(w, f) ==>
      WaitsFor(w', f) && TaskFor(w', f).activity == TaskFor(w, f).activity && TaskFor(w', f).last == TaskFor(w, f).last
    requires o in w.orders.orders ==> o in w'.orders.orders && w'.orders.orders[o].user == w.orders.orders[o].user
    ensures Bound(w', f, o)
  {
  }

  /* ---- Attempts ---- */

  /** One attempt at the activity that f waits for. */
  ghost predicate AttemptAt(w: World, a: Action, w': World, f: FlowId) {
    && WaitsFor(w, f) && WaitsFor(w', f) && w'.flows[f] == w.flows[f]
    && TaskFor(w', f).activity == TaskFor(w, f).activity
    && ((a == Attempt(w.flows[f].task) && StepAttempt(w, w.flows[f].task, w'))
        || (a == AttemptReadBack(w.flows[f].task) && StepReadBack(w, w.flows[f].task, w')))
  }

  /** On behalf of a Canceled order, an attempt either drops the claim or reports what it must. */
  lemma {:induction false} AttemptReports(w: World, a: Action, w': World, f: FlowId, t: TicketId, o: OrderId)
    requires AttemptAt(w, a, w', f) && IsCanceled(w, o) && Holds(w, t, o) && Holds(w', t, o)
    requires w.orders.orders[o].ticket == t
    requires TaskFor(w, f).activity.ReleaseTicket? ==> TaskFor(w, f).activity == ReleaseTicket(t, o)
    requires TaskFor(w, f).activity.ClaimTicket? ==> TaskFor(w, f).activity == ClaimTicket(t, o)
    ensures TaskFor(w, f).activity.ReleaseTicket? ==> TaskFor(w', f).last == TaskFor(w, f).last
    ensures TaskFor(w, f).activity.ClaimTicket? ==> TaskFor(w', f).last == Some(Claimed)
    ensures TaskFor(w, f).activity == ExpireOrder(o) ==>
      TaskFor(w', f).last == None || (TaskFor(w', f).last.value.Expired? && TaskFor(w', f).last.value.shouldRelease)
    ensures TaskFor(w, f).activity == CancelOrder(o, w.orders.orders[o].user) ==>
      TaskFor(w', f).last == None || TaskFor(w', f).last.value.CanceledOrder?
  {
    hide Record;
  }

  lemma {:induction false} AttemptedStaysBound(w: World, a: Action, w': World, f: FlowId, t: TicketId, o: OrderId)
    requires AttemptAt(w, a, w', f) && Bound(w, f, o) && IsCanceled(w, o) && Holds(w, t, o) && Holds(w', t, o)
    requires w.orders.orders[o].ticket == t
    requires TaskFor(w, f).activity.ReleaseTicket? ==> TaskFor(w, f).activity == ReleaseTicket(t, o)
    requires TaskFor(w, f).activity.ClaimTicket? ==> TaskFor(w, f).activity == ClaimTicket(t, o)
    requires f == CreateOrderFlow(o) ==> TaskFor(w, f).activity.ClaimTicket?
    requires o in w'.orders.orders && w'.orders.orders[o].user == w.orders.orders[o].user
    ensures Bound(w', f, o)
  {
    AttemptReports(w, a, w', f, t, o);
    hide StepAttempt, StepReadBack;
  }

  lemma {:induction false} AttemptsKeepBound(w: World, a: Action, w': World, f: FlowId, t: TicketId, o: OrderId)
    requires Inv(w) && WaitInv(w) && Step(w, a, w') && AttemptLike(a) && Bound(w, f, o)
    requires IsCanceled(w, o) && Holds(w, t, o) && Holds(w', t, o) && Evolves(w.orders, w'.orders)
    ensures Bound(w', f, o)
  {
    hide *;
    AttemptShape(w, a, w');
    HeldOrder(w, t, o);
    OrderStays(w, w', o);
    if f in w.flows && w.flows[f].Waiting? {
      WaitFacts(w, f);
      BoundActivity(w, f, o);
      TouchedStaysBound(w, a, w', f, t, o);
    } else {
      QuietStaysBound(w, w', f, o, if Attempted(w, a).Some? then Attempted(w, a).value else |w.tasks|);
    }
  }

  lemma OrderStays(w: World, w': World, o: OrderId)
    requires Evolves(w.orders, w'.orders) && o in w.orders.orders
    ensures o in w'.orders.orders && w'.orders.orders[o].user == w.orders.orders[o].user
  {
  }

  lemma {:induction false} QuietStaysBound(w: World, w': World, f: FlowId, o: OrderId, i: nat)
    requires OnlyAttempts(w, w', i) && Bound(w, f, o) && !(f in w.flows && w.flows[f].Waiting? && w.flows[f].task == i)
    requires o in w.orders.orders && o in w'.orders.orders && w'.orders.orders[o].user == w.orders.orders[o].user
    ensures Bound(w', f, o)
  {
    hide CreatorClaims, ExpiryLooks, CancelLooks, ReleasePending;
    UntouchedStaysBound(w, w', f, o);
  }

  lemma {:induction false} TouchedStaysBound(w: World, a: Action, w': World, f: FlowId, t: TicketId, o: OrderId)
    requires Step(w, a, w') && AttemptLike(a) && WaitsFor(w, f) && Bound(w, f, o)
    requires OnlyAttempts(w, w', if Attempted(w, a).Some? then Attempted(w, a).value else |w.tasks|)
    requires IsCanceled(w, o) && Holds(w, t, o) && Holds(w', t, o) && w.orders.orders[o].ticket == t
    requires TaskFor(w, f).activity.ReleaseTicket? ==> TaskFor(w, f).activity == ReleaseTicket(t, o)
    requires TaskFor(w, f).activity.ClaimTicket? ==> TaskFor(w, f).activity == ClaimTicket(t, o)
    requires !TaskFor(w, f).activity.ReserveOrder? && !TaskFor(w, f).activity.PersistPayment?
    requires f == CreateOrderFlow(o) ==> TaskFor(w, f).activity.ClaimTicket?
    requires o in w'.orders.orders && w'.orders.orders[o].user == w.orders.orders[o].user
    ensures Bound(w', f, o)
  {
    hide Bound, StepAttempt, StepReadBack;
    var i := w.flows[f].task;
    if Attempted(w, a) == Some(i) {
      if a != Attempt(i) && a != AttemptReadBack(i) {
        OtherAttempts(w, a, w', i);
      } else {
        assert AttemptAt(w, a, w', f);
        AttemptedStaysBound(w, a, w', f, t, o);
      }
    } else {
      hide Step;
      QuietStaysBound(w, w', f, o, if Attempted(w, a).Some? then Attempted(w, a).value else |w.tasks|);
    }
  }

  /* ---- Deliveries ---- */

  /** What a delivery to f on behalf of order o starts from. */
  ghost predicate Delivery(w: World, f: FlowId, reply: Reply, w': World, o: OrderId) {
    && StepDeliver(w, f, reply, w') && WaitsFor(w, f) && Bound(w, f, o)
    && TaskFor(w, f).last == Some(reply) && ReplyOk(w, TaskFor(w, f).activity, reply)
    && RightActivity(w, f, TaskFor(w, f).activity, w.flows[f].saved)
  }

  lemma {:induction false} ClaimDelivered(w: World, reply: Reply, w': World, o: OrderId)
    requires Delivery(w, CreateOrderFlow(o), reply, w', o)
    ensures Bound(w', CreateOrderFlow(o), o)
  {
  }

  lemma {:induction false} ExpiryDelivered(w: World, reply: Reply, w': World, o: OrderId)
    requires Delivery(w, ExpireOrderFlow(o), reply, w', o)
    ensures Bound(w', ExpireOrderFlow(o), o)
  {
  }

  lemma {:induction false} CancelDelivered(w: World, reply: Reply, w': World, o: OrderId)
    requires Delivery(w, CancelOrderFlow(o), reply, w', o)
    ensures Bound(w', CancelOrderFlow(o), o)
  {
  }

  lemma {:induction false} ResolutionDelivered(w: World, reply: Reply, w': World, o: OrderId)
    requires Delivery(w, ResolvePaymentFlow(o, Failed), reply, w', o)
    ensures Bound(w', ResolvePaymentFlow(o, Failed), o)
  {
  }

  lemma {:induction false} DeliveredStaysBound(w: World, f: FlowId, reply: Reply, w': World, o: OrderId)
    requires Inv(w) && WaitInv(w) && StepDeliver(w, f, reply, w') && RetryGuard(w, Deliver(f, reply))
    requires Bound(w, f, o)
    ensures Bound(w', f, o)
  {
    WaitFacts(w, f);
    BoundKinds(w, f, o);
    hide Inv, WaitInv, ReplyOk, RightActivity, StepDeliver, Bound;
    assert Delivery(w, f, reply, w', o);
    hide Delivery;
    match f
    case CreateOrderFlow(_) => ClaimDelivered(w, reply, w', o);
    case ExpireOrderFlow(_) => ExpiryDelivered(w, reply, w', o);
    case CancelOrderFlow(_) => CancelDelivered(w, reply, w', o);
    case ResolvePaymentFlow(_, _) => ResolutionDelivered(w, reply, w', o);
  }

  /* ---- Moves of workflows ---- */

  /** The workflows that a move may change. */
  ghost predicate Moved(w: World, a: Action, f: FlowId) {
    match a
    case StartCreateOrder(input) => f == CreateOrderFlow(input.order) && f !in w.flows
    case StartCancelOrder(o, _) => f == CancelOrderFlow(o) && CanStart(w, f)
    case StartCreatePayment(o, u) => f == CreatePaymentFlow(o, u)
    case StartCreateTicket(key, _) => f == CreateTicketFlow(key)
    case CallResolve(c) => f == ResolvePaymentFlow(c.order, c.outcome) && CanStart(w, f)
    case Deliver(g, _) => f == g
    case FireTimer(o) => f == ExpireOrderFlow(o)
    case StartExpiryChild(o) =>
      || f == CreateOrderFlow(o)
      || (CreateOrderFlow(o) in w.flows && w.flows[CreateOrderFlow(o)].StartingExpiry?
          && w.flows[CreateOrderFlow(o)].result.Reserved?
          && f == ExpireOrderFlow(w.flows[CreateOrderFlow(o)].result.order.id) && CanStart(w, f))
    case _ => false
  }

  lemma {:induction false} OthersRest(w: World, a: Action, w': World, f: FlowId)
    requires Step(w, a, w') && !AttemptLike(a) && f in w.flows && !Moved(w, a, f)
    ensures f in w'.flows && w'.flows[f] == w.flows[f]
  {
    hide StepDeliver, StepDeliverEdit, KeyOf, RunOf;
    match a
    case Deliver(g, reply) => DeliverOthers(w, g, reply, w', f);
    case DeliverEdit(t, reply) => EditOthers(w, t, reply, w');
    case _ =>
  }

  lemma DeliverOthers(w: World, g: FlowId, reply: Reply, w': World, f: FlowId)
    requires StepDeliver(w, g, reply, w') && f in w.flows && f != g
    ensures f in w'.flows && w'.flows[f] == w.flows[f]
  {
    hide Advance;
  }

  lemma EditOthers(w: World, t: TicketId, reply: Reply, w': World)
    requires StepDeliverEdit(w, t, reply, w')
    ensures w'.flows == w.flows
  {
  }

  lemma {:induction false} RestStaysBound(w: World, w': World, f: FlowId, o: OrderId)
    requires TasksRest(w, w') && Bound(w, f, o) && f in w'.flows && w'.flows[f] == w.flows[f]
    ensures Bound(w', f, o)
  {
    hide CreatorClaims, ExpiryLooks, CancelLooks, ReleasePending;
    UntouchedStaysBound(w, w', f, o);
  }

  /** A bound workflow is not closed, so nothing restarts it. */
  lemma {:induction false} BoundIsOpen(w: World, f: FlowId, o: OrderId)
    requires Bound(w, f, o)
    ensures f in w.flows && !CanStart(w, f)
  {
  }

  lemma {:induction false} TimerKeepsBound(w: World, w': World, o: OrderId)
    requires StepFireTimer(w, o, w')
    ensures Bound(w', ExpireOrderFlow(o), o)
  {
  }

  lemma {:induction false} ChildIsBound(w: World, w': World, o: OrderId)
    requires StepStartExpiryChild(w, o, w') && FlowOk(w, CreateOrderFlow(o), w.flows[CreateOrderFlow(o)])
    ensures Bound(w', ExpireOrderFlow(o), o)
  {
  }

  lemma {:induction false} CreatorFlowOk(w: World, o: OrderId)
    requires Inv(w) && CreateOrderFlow(o) in w.flows
    ensures FlowOk(w, CreateOrderFlow(o), w.flows[CreateOrderFlow(o)])
  {
  }

  lemma {:induction false} MovesKeepCovered(w: World, a: Action, w': World, f: FlowId, o: OrderId)
    requires Inv(w) && WaitInv(w) && Step(w, a, w') && !AttemptLike(a) && RetryGuard(w, a)
    requires Bound(w, f, o)
    ensures Covered(w', o)
  {
    hide Inv, WaitInv, StepDeliver, StepDeliverEdit, Bound, TasksRest, CanStart;
    hide StepFireTimer, StepStartExpiryChild, RetryGuard;
    MoveRests(w, a, w');
    BoundIsOpen(w, f, o);
    if !Moved(w, a, f) {
      OthersRest(w, a, w', f);
      RestStaysBound(w, w', f, o);
    } else {
      BoundKinds(w, f, o);
      match a
      case Deliver(_, reply) => DeliveredStaysBound(w, f, reply, w', o);
      case FireTimer(_) => TimerKeepsBound(w, w', o);
      case StartExpiryChild(_) =>
        CreatorFlowOk(w, o);
        ChildIsBound(w, w', o);
    }
  }

  lemma {:induction false} BoundKinds(w: World, f: FlowId, o: OrderId)
    requires Bound(w, f, o)
    ensures f in {CreateOrderFlow(o), ExpireOrderFlow(o), CancelOrderFlow(o), ResolvePaymentFlow(o, Failed)}
  {
  }

  /* ---- Orders that a step cancels, and claims that it takes ---- */

  /** An activity that can cancel order o is awaited by the workflow that then releases the claim. */
  lemma {:induction false} CancelingFlow(w: World, i: nat, o: OrderId)
    requires Inv(w) && WaitInv(w) && i < |w.tasks| && !w.tasks[i].acked && o in w.orders.orders
    requires Entitled(w.tasks[i].activity, w.orders.orders[o], Canceled) && w.orders.orders[o].id == o
    ensures w.tasks[i].owner in w.flows && w.flows[w.tasks[i].owner].Waiting? && w.flows[w.tasks[i].owner].task == i
    ensures w.tasks[i].owner == (match w.tasks[i].activity
                                 case ExpireOrder(_) => ExpireOrderFlow(o)
                                 case CancelOrder(_, _) => CancelOrderFlow(o)
                                 case _ => ResolvePaymentFlow(o, Failed))
  {
    hide Inv, WaitInv, TaskOk, ReplyOk, SavedOk;
    var f := w.tasks[i].owner;
    AwaitedIs(w, i);
    WaitFacts(w, f);
    FirstKinds(w, f, w.tasks[i].activity, w.flows[f].saved, o);
  }

  lemma {:induction false} AwaitedIs(w: World, i: nat)
    requires WaitInv(w) && i < |w.tasks| && !w.tasks[i].acked && !w.tasks[i].activity.PersistTicketUpdate?
        && !w.tasks[i].activity.ProjectTicket?
    ensures WaitsFor(w, w.tasks[i].owner) && w.flows[w.tasks[i].owner].task == i
  {
    HolderKinds(w, i);
    assert Awaited(w, i);
  }

  /** Only a first activity can cancel an order, and it names its workflow. */
  lemma {:induction false} FirstKinds(w: World, f: FlowId, activity: Activity, saved: Option<Reply>, o: OrderId)
    requires RightActivity(w, f, activity, saved) && o in w.orders.orders && w.orders.orders[o].id == o
    requires Entitled(activity, w.orders.orders[o], Canceled)
    ensures f == (match activity
                  case ExpireOrder(_) => ExpireOrderFlow(o)
                  case CancelOrder(_, _) => CancelOrderFlow(o)
                  case _ => ResolvePaymentFlow(o, Failed))
  {
  }

  lemma {:induction false} HolderKinds(w: World, i: nat)
    requires WaitInv(w) && i < |w.tasks| && !w.tasks[i].acked
    ensures w.tasks[i].owner.UpdateTicketFlow? ==>
      w.tasks[i].activity.PersistTicketUpdate? || w.tasks[i].activity.ProjectTicket?
  {
    assert Awaited(w, i);
    if w.tasks[i].owner.UpdateTicketFlow? { assert HolderWaits(w, w.tasks[i].owner.ticket); }
  }

  lemma {:induction false} CancelingReply(w: World, i: nat, w': World, o: OrderId)
    requires StepAttempt(w, i, w') && o in w.orders.orders && w.orders.orders[o].id == o && o in w'.orders.orders
    requires w.orders.orders[o].status != Canceled && w'.orders.orders[o].status == Canceled
    requires Entitled(w.tasks[i].activity, w.orders.orders[o], Canceled)
    ensures i < |w'.tasks| && w'.tasks[i].activity == w.tasks[i].activity && w'.flows == w.flows
    ensures w'.orders.orders[o].user == w.orders.orders[o].user && w'.tasks[i].last.Some?
    ensures match w.tasks[i].activity
            case ExpireOrder(_) => w'.tasks[i].last.value.Expired? && w'.tasks[i].last.value.shouldRelease
            case CancelOrder(_, _) => w'.tasks[i].last.value.CanceledOrder?
            case _ => true
  {
  }

  lemma {:induction false} CancelingBinds(w: World, i: nat, w': World, o: OrderId)
    requires o in w.orders.orders && i < |w.tasks| && i < |w'.tasks| && o in w'.orders.orders
    requires Entitled(w.tasks[i].activity, w.orders.orders[o], Canceled) && w.orders.orders[o].id == o
    requires w.tasks[i].owner in w.flows && w.flows[w.tasks[i].owner].Waiting? && w.flows[w.tasks[i].owner].task == i
    requires w.tasks[i].owner == (match w.tasks[i].activity
                                  case ExpireOrder(_) => ExpireOrderFlow(o)
                                  case CancelOrder(_, _) => CancelOrderFlow(o)
                                  case _ => ResolvePaymentFlow(o, Failed))
    requires w'.tasks[i].activity == w.tasks[i].activity && w'.flows == w.flows
    requires w'.orders.orders[o].user == w.orders.orders[o].user && w'.tasks[i].last.Some?
    requires match w.tasks[i].activity
             case ExpireOrder(_) => w'.tasks[i].last.value.Expired? && w'.tasks[i].last.value.shouldRelease
             case CancelOrder(_, _) => w'.tasks[i].last.value.CanceledOrder?
             case _ => true
    ensures Bound(w', w.tasks[i].owner, o)
  {
  }

  /** A claim that was taken for a Canceled order was of a free ticket, and nothing else changed. */
  lemma {:induction false} ClaimTakenShape(w: World, i: nat, w': World, t: TicketId, o: OrderId)
    requires StepAttempt(w, i, w') && i < |w.tasks| && w.tasks[i].activity == ClaimTicket(t, o)
    requires !Holds(w, t, o) && Holds(w', t, o)
    ensures t in w.tickets.rows && w.tickets.rows[t].reservedBy == None
    ensures w'.orders == w.orders && w'.flows == w.flows
    ensures i < |w'.tasks| && w'.tasks == w.tasks[i := w'.tasks[i]]
    ensures w'.tasks[i].activity == w.tasks[i].activity && w'.tasks[i].last == Some(Claimed)
  {
    hide Record;
  }

  /** Who is bound in w stays so when a claim for o is taken, unless it waits for that claim. */
  lemma {:induction false} TakenKeepsBound(w: World, w': World, f: FlowId, i: nat, t: TicketId, o: OrderId)
    requires i < |w.tasks| && w'.orders == w.orders && w'.flows == w.flows
    requires w.tasks[i].activity == ClaimTicket(t, o)
    requires i < |w'.tasks| && w'.tasks == w.tasks[i := w'.tasks[i]]
    requires w'.tasks[i].activity == w.tasks[i].activity && w'.tasks[i].last == Some(Claimed)
    ensures AwaitsOwnClaim(w, o) && w.flows[CreateOrderFlow(o)].task == i ==> Bound(w', CreateOrderFlow(o), o)
    ensures Bound(w, f, o) ==> Bound(w', f, o)
    ensures Bound(w', f, o) ==> Bound(w, f, o) || (AwaitsOwnClaim(w, o) && w.flows[CreateOrderFlow(o)].task == i)
  {
  }

  /** A step that takes a claim for a Canceled order leaves it covered exactly if it was allowed. */
  lemma {:induction false} ClaimCoversIff(w: World, a: Action, w': World, t: TicketId, o: OrderId)
    requires Step(w, a, w') && !Holds(w, t, o) && Holds(w', t, o) && IsCanceled(w', o)
    ensures Covered(w', o) <==> ClaimGuard(w, a)
  {
    ClaimTaken(w, a, w', t, o);
    StepIs(w, a, w');
    hide Step, StepAttempt, Holds, Bound, AwaitsOwnClaim;
    ClaimTakenShape(w, a.task, w', t, o);
    TakenKeepsBound(w, w', CreateOrderFlow(o), a.task, t, o);
    forall f
      ensures Bound(w, f, o) ==> Bound(w', f, o)
      ensures Bound(w', f, o) ==> Bound(w, f, o) || (AwaitsOwnClaim(w, o) && w.flows[CreateOrderFlow(o)].task == a.task)
    {
      TakenKeepsBound(w, w', f, a.task, t, o);
    }
  }

  lemma {:induction false} CancelCovers(w: World, a: Action, w': World, t: TicketId, o: OrderId)
    requires Inv(w) && WaitInv(w) && Step(w, a, w') && RetryGuard(w, a)
    requires Holds(w, t, o) && !IsCanceled(w, o) && IsCanceled(w', o)
    ensures Covered(w', o)
  {
    hide Inv, WaitInv, Step, StepAttempt, Bound, Entitled, Holds, HandsLast;
    HeldOrder(w, t, o);
    StatusChanges(w, a, w', o);
    StepIs(w, a, w');
    CancelingFlow(w, a.task, o);
    CancelingReply(w, a.task, w', o);
    CancelingBinds(w, a.task, w', o);
  }

  /** A claim is taken only by an attempt to take it. */
  lemma {:induction false} ClaimTaken(w: World, a: Action, w': World, t: TicketId, o: OrderId)
    requires Step(w, a, w') && !Holds(w, t, o) && Holds(w', t, o)
    ensures a.Attempt? && a.task < |w.tasks| && w.tasks[a.task].activity == ClaimTicket(t, o)
  {
    hide Step;
    TicketsFrame(w, a, w');
  }

  lemma {:induction false} CoverStays(w: World, a: Action, w': World, t: TicketId, o: OrderId)
    requires Inv(w) && WaitInv(w) && ClaimsCovered(w) && Step(w, a, w') && RetryGuard(w, a) && ClaimGuard(w, a)
    requires Evolves(w.orders, w'.orders) && Holds(w', t, o) && IsCanceled(w', o)
    ensures Covered(w', o)
  {
    hide Inv, WaitInv, Step, RetryGuard, ClaimGuard, Bound, Evolves, IsCanceled, Holds;
    if !Holds(w, t, o) {
      ClaimCoversIff(w, a, w', t, o);
    } else if !IsCanceled(w, o) {
      CancelCovers(w, a, w', t, o);
    } else {
      var f :| Bound(w, f, o);
      if AttemptLike(a) {
        AttemptsKeepBound(w, a, w', f, t, o);
      } else {
        MovesKeepCovered(w, a, w', f, o);
      }
    }
  }

  /* ---- One step ---- */

  lemma {:induction false} ClaimsStayCovered(w: World, a: Action, w': World)
    requires Inv(w) && WaitInv(w) && ClaimsCovered(w) && Step(w, a, w') && RetryGuard(w, a) && ClaimGuard(w, a)
    requires Evolves(w.orders, w'.orders)
    ensures ClaimsCovered(w')
  {
    forall t, o | Holds(w', t, o) && IsCanceled(w', o)
      ensures Covered(w', o)
    {
      hide *;
      CoverStays(w, a, w', t, o);
    }
  }

  /** A step that the guard rules out takes a claim for a Canceled order. */
  lemma {:induction false} RuledOutTakes(w: World, a: Action, w': World) returns (t: TicketId, o: OrderId)
    requires Step(w, a, w') && !ClaimGuard(w, a)
    ensures !Holds(w, t, o) && Holds(w', t, o) && IsCanceled(w', o)
  {
    StepIs(w, a, w');
    hide Step, Record, Covered, AwaitsOwnClaim;
    var ClaimTicket(u, p) := w.tasks[a.task].activity;
    t, o := u, p;
  }

  /** Exactly when an ordinary-retry step keeps every claim of a Canceled order covered. */
  lemma {:induction false} LeaksExactly(w: World, a: Action, w': World)
    requires Inv(w) && WaitInv(w) && ClaimsCovered(w) && Step(w, a, w') && RetryGuard(w, a)
    requires Evolves(w.orders, w'.orders)
    ensures ClaimsCovered(w') <==> ClaimGuard(w, a)
  {
    if ClaimGuard(w, a) {
      hide *;
      ClaimsStayCovered(w, a, w');
    } else {
      hide Inv, WaitInv, Step, RetryGuard, ClaimGuard, Evolves, Holds, IsCanceled, Covered;
      var t, o := RuledOutTakes(w, a, w');
      ClaimCoversIff(w, a, w', t, o);
    }
  }

  /* ---- Over whole runs ---- */

  lemma LaterParts(w: World, w': World)
    requires Later(w, w')
    ensures Evolves(w.orders, w'.orders) && TasksEvolve(w, w')
  {
  }

  lemma InitLeaks(w: World)
    requires Init(w)
    ensures ClaimsCovered(w)
  {
  }

  lemma {:induction false} LeakReachable(ws: seq<World>, acts: seq<Action>, i: nat)
    requires RetryRun(ws, acts) && i < |ws| && forall n :: 0 <= n < i ==> ClaimGuard(ws[n], acts[n])
    ensures ClaimsCovered(ws[i])
  {
    hide Inv, WaitInv, ClaimsCovered, Step, RetryGuard, ClaimGuard, Later;
    if i == 0 {
      InitLeaks(ws[0]);
    } else {
      LeakReachable(ws, acts, i - 1);
      LeakStep(ws, acts, i - 1);
    }
  }

  lemma {:induction false} LeakStep(ws: seq<World>, acts: seq<Action>, n: nat)
    requires RetryRun(ws, acts) && n < |acts| && ClaimsCovered(ws[n])
    ensures ClaimsCovered(ws[n + 1]) <==> ClaimGuard(ws[n], acts[n])
  {
    hide Inv, WaitInv, ClaimsCovered, Step, RetryGuard, ClaimGuard, Later;
    RunsForward(ws, acts, n, n + 1);
    WaitsReachable(ws, acts, n);
    LaterParts(ws[n], ws[n + 1]);
    LeaksExactly(ws[n], acts[n], ws[n + 1]);
  }

  /**
    Exactly when a run of ordinary retries never leaks a claim: all along the run, whenever a
    Canceled order holds a ticket some workflow of that order is bound to release it, if and
    only if every step of the run meets the guard on claims.
   */
  lemma {:induction false} NoLeakIff(ws: seq<World>, acts: seq<Action>)
    requires RetryRun(ws, acts)
    ensures (forall i :: 0 <= i < |ws| ==> ClaimsCovered(ws[i])) <==>
        (forall n :: 0 <= n < |acts| ==> ClaimGuard(ws[n], acts[n]))
  {
    hide Run, RetryGuard, ClaimsCovered, ClaimGuard;
    RunLength(ws, acts);
    if forall n :: 0 <= n < |acts| ==> ClaimGuard(ws[n], acts[n]) {
      forall i | 0 <= i < |ws|
        ensures ClaimsCovered(ws[i])
      {
        LeakReachable(ws, acts, i);
      }
    } else {
      var n :| 0 <= n < |acts| && !ClaimGuard(ws[n], acts[n]);
      if ClaimsCovered(ws[n]) { LeakStep(ws, acts, n); }
    }
  }

  lemma RunLength(ws: seq<World>, acts: seq<Action>)
    requires Run(ws, acts)
    ensures |ws| == |acts| + 1
  {
  }

  /**
    Whenever a Canceled order still holds a ticket, some workflow of that order is bound to
    release it, even when the cancel overtook the claim.
   */
  lemma {:induction false} NoLeakedClaim(ws: seq<World>, acts: seq<Action>, i: nat, t: TicketId, o: OrderId)
    requires CarefulRun(ws, acts) && i < |ws| && Holds(ws[i], t, o) && IsCanceled(ws[i], o)
    ensures Covered(ws[i], o)
  {
    hide Run, RetryGuard, ClaimGuard, Covered, Holds, IsCanceled;
    RunLength(ws, acts);
    LeakReachable(ws, acts, i);
  }

  /** With no workflow running, no Canceled order holds a claim. */
  lemma {:induction false} NoLeakAtRest(ws: seq<World>, acts: seq<Action>, i: nat, t: TicketId, o: OrderId)
    requires CarefulRun(ws, acts) && i < |ws|
    requires forall f :: f in ws[i].flows ==> ws[i].flows[f].Closed()
    ensures !(Holds(ws[i], t, o) && IsCanceled(ws[i], o))
  {
    if Holds(ws[i], t, o) && IsCanceled(ws[i], o) {
      NoLeakedClaim(ws, acts, i, t, o);
      var f :| Bound(ws[i], f, o);
      BoundIsOpen(ws[i], f, o);
    }
  }

  /**
    From every state where a free ticket can still be claimed for a Canceled order that no
    workflow watches, by a workflow that was told Created = false, one ordinary step leaks.
   */
  lemma {:induction false} JoinedClaimLeaks(w: World, k: nat, t: TicketId, o: OrderId) returns (w': World)
    requires k < |w.tasks| && w.tasks[k].activity == ClaimTicket(t, o) && !w.tasks[k].acked
    requires t in w.tickets.rows && w.tickets.rows[t].reservedBy == None && IsCanceled(w, o) && !Covered(w, o)
    requires !(AwaitsOwnClaim(w, o) && w.flows[CreateOrderFlow(o)].task == k)
    ensures Step(w, Attempt(k), w') && RetryGuard(w, Attempt(k)) && !ClaimGuard(w, Attempt(k))
    ensures Holds(w', t, o) && IsCanceled(w', o) && !Covered(w', o)
  {
    hide Bound, AwaitsOwnClaim;
    w' := AfterAttempt(w, k);
    ClaimCoversIff(w, Attempt(k), w', t, o);
  }
}
