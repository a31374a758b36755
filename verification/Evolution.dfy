/**
  How the system may move, whatever the faults: a transitive relation between an earlier
  and a later state, and the facts about activities, replies and workflows that it keeps.
 */
module Evolution {
  import opened Domain
  import opened TicketStore
  import opened OrderStore
  import opened Saga
  import PaymentStore

  ghost predicate IsCanceled(w: World, o: OrderId) {
    o in w.orders.orders && w.orders.orders[o].status == Canceled
  }

  /** Rows keep their owner, versions only grow, and a claimed row stands still until its order is Canceled. */
  ghost predicate RowsEvolve(w: World, w': World) {
    forall t :: t in w.tickets.rows ==>
      && t in w'.tickets.rows
      && w'.tickets.rows[t].owner == w.tickets.rows[t].owner
      && w.tickets.rows[t].version <= w'.tickets.rows[t].version
      && (w.tickets.rows[t].reservedBy.Some? ==>
        w'.tickets.rows[t] == w.tickets.rows[t] || IsCanceled(w', w.tickets.rows[t].reservedBy.value))
  }

  ghost predicate LedgerGrows(w: World, w': World) {
    forall k :: k in w.tickets.ledger ==> k in w'.tickets.ledger && w'.tickets.ledger[k] == w.tickets.ledger[k]
  }

  /** Outcomes are written once, terminal payments never change, order copies keep user and price. */
  ghost predicate PaymentsEvolve(db: PaymentStore.PaymentsDb, db': PaymentStore.PaymentsDb) {
    && (forall p :: p in db.payments ==>
      && p in db'.payments
      && db'.payments[p].order == db.payments[p].order
      && (db.payments[p].outcome.Some? ==> db'.payments[p].outcome == db.payments[p].outcome)
      && (db.payments[p].status != Pending ==> db'.payments[p] == db.payments[p]))
    && (forall o :: o in db.byOrder ==> o in db'.byOrder && db'.byOrder[o] == db.byOrder[o])
    && (forall o :: o in db.copies ==>
      o in db'.copies && db'.copies[o].user == db.copies[o].user && db'.copies[o].price == db.copies[o].price)
  }

  /** A checkout only ends once its payment exists. */
  ghost predicate CheckoutsEvolve(w: World, w': World) {
    forall o | o in w.orders.orders && o in w'.orders.orders ::
      w.orders.orders[o].status == AwaitingPayment ==>
        w'.orders.orders[o].status == AwaitingPayment || o in w'.payments.byOrder
  }

  ghost predicate TasksEvolve(w: World, w': World) {
    && |w.tasks| <= |w'.tasks|
    && forall i :: 0 <= i < |w.tasks| ==>
      && w'.tasks[i].owner == w.tasks[i].owner
      && w'.tasks[i].activity == w.tasks[i].activity
      && w.tasks[i].replies <= w'.tasks[i].replies
  }

  ghost predicate Later(w: World, w': World) {
    && w.now <= w'.now
    && Evolves(w.orders, w'.orders)
    && RowsEvolve(w, w')
    && LedgerGrows(w, w')
    && HistoryGrows(w.history, w'.history)
    && PaymentsEvolve(w.payments, w'.payments)
    && CheckoutsEvolve(w, w')
    && TasksEvolve(w, w')
    && w.claims <= w'.claims
    && w.answers <= w'.answers
  }

  lemma LaterReflexive(w: World)
    ensures Later(w, w)
  {
  }

  lemma {:induction false} LaterTransitive(a: World, b: World, c: World)
    requires Later(a, b) && Later(b, c)
    ensures Later(a, c)
  {
    assert RowsEvolve(a, c) by {
      forall t | t in a.tickets.rows && a.tickets.rows[t].reservedBy.Some?
        ensures c.tickets.rows[t] == a.tickets.rows[t] || IsCanceled(c, a.tickets.rows[t].reservedBy.value)
      {
        var o := a.tickets.rows[t].reservedBy.value;
        if IsCanceled(b, o) {
          assert IsCanceled(c, o);
        } else {
          assert b.tickets.rows[t] == a.tickets.rows[t];
        }
      }
    }
    assert Evolves(a.orders, c.orders);
    assert HistoryGrows(a.history, c.history) by {
      forall t | t in a.history
        ensures t in c.history && a.history[t] <= c.history[t]
      {
        assert a.history[t] <= b.history[t] <= c.history[t];
      }
    }
    assert CheckoutsEvolve(a, c) by {
      forall o | o in a.orders.orders && o in c.orders.orders
          && a.orders.orders[o].status == AwaitingPayment && c.orders.orders[o].status != AwaitingPayment
        ensures o in c.payments.byOrder
      {
        assert o in b.orders.orders;
        if b.orders.orders[o].status != AwaitingPayment {
          assert o in b.payments.byOrder;
        }
      }
    }
  }

  /* ---- Facts that later states keep ---- */

  /** An order value that some activity returned: still there, with a status that moved forward at most. */
  ghost predicate Seen(w: World, order: Order) {
    && order.id in w.orders.orders
    && w.orders.orders[order.id] == order.(status := w.orders.orders[order.id].status)
    && Reaches(order.status, w.orders.orders[order.id].status)
  }

  /** The ticket's source row carries order o's claim, or o is Canceled. */
  ghost predicate HeldOrCanceled(w: World, t: TicketId, o: OrderId) {
    || (t in w.tickets.rows && w.tickets.rows[t].reservedBy == Some(o))
    || IsCanceled(w, o)
  }

  ghost predicate PublishedPrice(h: History, t: TicketId, price: int) {
    exists v :: t in h && 0 <= v < |h[t]| && h[t][v].price == price
  }

  /** Checkout of o was started at a price its ticket was once published with; it goes on or has its payment. */
  ghost predicate CheckedOut(w: World, o: OrderId, u: UserId, price: int) {
    && o in w.orders.orders
    && w.orders.orders[o].user == u
    && w.orders.orders[o].status != Created
    && (w.orders.orders[o].status == AwaitingPayment || o in w.payments.byOrder)
    && PublishedPrice(w.history, w.orders.orders[o].ticket, price)
  }

  ghost predicate HasOutcome(db: PaymentStore.PaymentsDb, o: OrderId, outcome: PaymentStatus) {
    && o in db.byOrder && db.byOrder[o] in db.payments
    && db.payments[db.byOrder[o]].outcome == Some(outcome)
  }

  /** What scheduling an activity implies, forever. */
  ghost predicate TaskOk(w: World, activity: Activity) {
    match activity
    case ClaimTicket(t, o) => o in w.orders.orders && w.orders.orders[o].ticket == t
    case ReleaseTicket(t, o) => IsCanceled(w, o) && w.orders.orders[o].ticket == t
    case ExpireOrder(o) => o in w.orders.orders
    case ResolvePayment(o, outcome) => outcome != Pending && HasOutcome(w.payments, o, outcome)
    case PersistPayment(o, u, price) => CheckedOut(w, o, u, price)
    case ProjectTicket(s) => WasPublished(w.history, s)
    case _ => true
  }

  /** What a reply to an activity implies, forever. */
  ghost predicate ReplyOk(w: World, activity: Activity, reply: Reply) {
    match activity
    case ReserveOrder(input) =>
      || (&& reply.Reserved? && Seen(w, reply.order)
          && reply.order.ticket == input.ticket && reply.order.user == input.user
          && (reply.created ==> reply.order == NewOrder(input)))
      || reply == Rejected(TicketNotFound) || reply == Rejected(TicketReserved)
    case ClaimTicket(t, o) => (reply == Claimed && HeldOrCanceled(w, t, o)) || reply == Rejected(TicketReserved)
    case ReleaseTicket(t, o) => reply == Released
    case CancelOrder(o, u) =>
      || (reply.CanceledOrder? && Seen(w, reply.order) && reply.order.id == o && reply.order.user == u
          && reply.order.status == Canceled)
      || reply == Rejected(OrderNotFound) || reply == Rejected(OrderNotCancelable)
    case ExpireOrder(o) =>
      && reply.Expired? && Seen(w, reply.order) && reply.order.id == o
      && reply.shouldRelease == (reply.order.status == Canceled)
    case ResolvePayment(o, outcome) =>
      && reply.Resolved? && Seen(w, reply.order) && reply.order.id == o
      && ExpectedOrderStatus(outcome) == Some(reply.order.status)
      && reply.shouldRelease == (outcome == Failed)
    case StartOrderPayment(o, u) =>
      || (reply.CheckoutStarted? && reply.orderId == o && reply.user == u && CheckedOut(w, o, u, reply.price))
      || reply == Rejected(OrderNotFound) || reply == Rejected(OrderNotPayable)
    case PersistPayment(o, u, price) =>
      reply.PaymentStored? && o in w.payments.byOrder && w.payments.byOrder[o] == reply.payment.id
    case PersistTicket(input) =>
      || (reply == TicketStored(FirstVersion(input)) && WasPublished(w.history, FirstVersion(input))
          && ValidTicketData(input.title, input.price) && input.user != "")
      || reply == Rejected(InvalidTicket)
    case PersistTicketUpdate(input) =>
      || (reply.TicketStored? && KeyOf(input) in w.tickets.ledger && w.tickets.ledger[KeyOf(input)] == reply.snapshot
          && WasPublished(w.history, reply.snapshot) && reply.snapshot.ticket == input.ticket
          && ValidTicketData(input.title, input.price) && input.user != "" && input.key != "")
      || (reply.Rejected? && reply.error in {InvalidEdit, EditForbidden, EditReserved, EditNotFound})
    case ProjectTicket(s) =>
      || (reply == Projected && s.ticket in w.orders.projection && s.version <= w.orders.projection[s.ticket].version)
      || reply == Rejected(InvalidProjection)
  }

  ghost predicate FirstActivity(f: FlowId, activity: Activity) {
    match f
    case CreateOrderFlow(o) => activity.ReserveOrder? && activity.reservation.order == o
    case CancelOrderFlow(o) => activity.CancelOrder? && activity.order == o
    case ExpireOrderFlow(o) => activity == ExpireOrder(o)
    case ResolvePaymentFlow(o, outcome) => activity == ResolvePayment(o, outcome)
    case CreatePaymentFlow(o, u) => activity == StartOrderPayment(o, u)
    case CreateTicketFlow(_) => activity.PersistTicket?
    case UpdateTicketFlow(_) => false
  }

  /** A workflow past its first activity: what its local variable says and which activity it now waits for. */
  ghost predicate SavedOk(w: World, f: FlowId, activity: Activity, saved: Reply) {
    match f
    case CreateOrderFlow(o) =>
      && saved.Reserved? && Seen(w, saved.order) && (saved.created ==> saved.order.id == o)
      && activity == ClaimTicket(saved.order.ticket, saved.order.id)
    case CancelOrderFlow(o) =>
      && saved.CanceledOrder? && saved.order.id == o && Seen(w, saved.order) && saved.order.status == Canceled
      && activity == ReleaseTicket(saved.order.ticket, o)
    case ExpireOrderFlow(o) =>
      saved.Expired? && saved.order.id == o && Seen(w, saved.order) && activity == ReleaseTicket(saved.order.ticket, o)
    case ResolvePaymentFlow(o, outcome) =>
      && saved.Resolved? && saved.order.id == o && Seen(w, saved.order)
      && ExpectedOrderStatus(outcome) == Some(saved.order.status)
      && activity == ReleaseTicket(saved.order.ticket, o)
    case CreatePaymentFlow(o, u) =>
      saved.CheckoutStarted? && activity == PersistPayment(o, u, saved.price)
    case CreateTicketFlow(_) => saved.TicketStored? && activity == ProjectTicket(saved.snapshot)
    case UpdateTicketFlow(_) => false
  }

  /** What a finished workflow's result means. */
  ghost predicate ResultOk(w: World, f: FlowId, result: Reply) {
    match f
    case CreateOrderFlow(o) =>
      && result.Reserved? && Seen(w, result.order) && (result.created ==> result.order.id == o)
      && HeldOrCanceled(w, result.order.ticket, result.order.id)
    case CancelOrderFlow(o) =>
      result.CanceledOrder? && result.order.id == o && Seen(w, result.order) && result.order.status == Canceled
    case ExpireOrderFlow(o) => result.Expired? && result.order.id == o && Seen(w, result.order)
    case ResolvePaymentFlow(o, outcome) =>
      && result.Resolved? && result.order.id == o && Seen(w, result.order)
      && ExpectedOrderStatus(outcome) == Some(result.order.status)
    case CreatePaymentFlow(o, _) =>
      result.PaymentStored? && o in w.payments.byOrder && w.payments.byOrder[o] == result.payment.id
    case CreateTicketFlow(_) =>
      && result.TicketStored? && WasPublished(w.history, result.snapshot)
      && result.snapshot.ticket in w.orders.projection
    case UpdateTicketFlow(_) => false
  }

  ghost predicate FlowOk(w: World, f: FlowId, flow: Flow) {
    match flow
    case Waiting(i, saved) =>
      && i < |w.tasks| && w.tasks[i].owner == f
      && (match saved
          case None => FirstActivity(f, w.tasks[i].activity)
          case Some(reply) => SavedOk(w, f, w.tasks[i].activity, reply))
    case StartingExpiry(result) => f.CreateOrderFlow? && ResultOk(w, f, result) && result.created
    case Sleeping(_) => f.ExpireOrderFlow? && f.order in w.orders.orders
    case Completed(result) => ResultOk(w, f, result)
    case Aborted(_) => true
  }

  lemma PriceStaysPublished(h: History, h': History, t: TicketId, price: int)
    requires HistoryGrows(h, h') && PublishedPrice(h, t, price)
    ensures PublishedPrice(h', t, price)
  {
    var v :| t in h && 0 <= v < |h[t]| && h[t][v].price == price;
    assert h[t] <= h'[t];
    assert h'[t][v].price == price;
  }

  lemma {:induction false} HeldStays(w: World, w': World, t: TicketId, o: OrderId)
    requires Later(w, w') && HeldOrCanceled(w, t, o)
    ensures HeldOrCanceled(w', t, o)
  {
    if IsCanceled(w, o) {
      assert IsCanceled(w', o);
    }
  }

  lemma {:induction false} CheckedOutStays(w: World, w': World, o: OrderId, u: UserId, price: int)
    requires Later(w, w') && CheckedOut(w, o, u, price)
    ensures CheckedOut(w', o, u, price)
  {
    PriceStaysPublished(w.history, w'.history, w.orders.orders[o].ticket, price);
  }

  lemma {:induction false} TaskStaysOk(w: World, w': World, activity: Activity)
    requires Later(w, w') && TaskOk(w, activity)
    ensures TaskOk(w', activity)
  {
    match activity
    case PersistPayment(o, u, price) => CheckedOutStays(w, w', o, u, price);
    case ProjectTicket(s) => StaysPublished(w.history, w'.history, s);
    case ResolvePayment(o, outcome) =>
    case _ =>
  }

  lemma {:induction false} ReplyStaysOk(w: World, w': World, activity: Activity, reply: Reply)
    requires Later(w, w') && ReplyOk(w, activity, reply)
    ensures ReplyOk(w', activity, reply)
  {
    match activity
    case ClaimTicket(t, o) => if reply == Claimed { HeldStays(w, w', t, o); }
    case StartOrderPayment(o, u) => if reply.CheckoutStarted? { CheckedOutStays(w, w', o, u, reply.price); }
    case PersistTicket(input) => if reply.TicketStored? { StaysPublished(w.history, w'.history, FirstVersion(input)); }
    case PersistTicketUpdate(input) => if reply.TicketStored? { StaysPublished(w.history, w'.history, reply.snapshot); }
    case _ =>
  }

  lemma {:induction false} ResultStaysOk(w: World, w': World, f: FlowId, result: Reply)
    requires Later(w, w') && ResultOk(w, f, result)
    ensures ResultOk(w', f, result)
  {
    match f
    case CreateOrderFlow(o) => HeldStays(w, w', result.order.ticket, result.order.id);
    case CreateTicketFlow(_) => StaysPublished(w.history, w'.history, result.snapshot);
    case _ =>
  }

  lemma {:induction false} FlowStaysOk(w: World, w': World, f: FlowId, flow: Flow)
    requires Later(w, w') && FlowOk(w, f, flow)
    ensures FlowOk(w', f, flow)
  {
    match flow
    case StartingExpiry(result) => ResultStaysOk(w, w', f, result);
    case Completed(result) => ResultStaysOk(w, w', f, result);
    case _ =>
  }
}
