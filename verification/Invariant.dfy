/**
  The inductive invariant of the step machine, and its proof for every step under the
  strongest faults.
 */
module Invariant {
  import opened Domain
  import opened TicketStore
  import opened OrderStore
  import opened Saga
  import opened Evolution
  import PaymentStore

  /* ---- Tables ---- */

  /** Every order's ticket is projected, and every projected version was published by its source. */
  ghost predicate ReferencesOk(w: World) {
    && (forall o :: o in w.orders.orders ==>
      w.orders.orders[o].id == o && w.orders.orders[o].ticket in w.orders.projection)
    && (forall t :: t in w.orders.projection ==>
      w.orders.projection[t].ticket == t && WasPublished(w.history, w.orders.projection[t]))
  }

  /** Every claim names an existing order for that same ticket. */
  ghost predicate ClaimsOk(w: World) {
    forall t :: t in w.tickets.rows && w.tickets.rows[t].reservedBy.Some? ==>
      && w.tickets.rows[t].reservedBy.value in w.orders.orders
      && w.orders.orders[w.tickets.rows[t].reservedBy.value].ticket == t
  }

  ghost predicate NothingBlocks(db: OrdersDb, t: TicketId) {
    forall o :: o in db.orders ==> !Blocks(db, t, o)
  }

  /** At most one order blocks a ticket. */
  ghost predicate UniqueOk(db: OrdersDb) {
    forall o, p | o in db.orders && p in db.orders ::
      Blocks(db, db.orders[o].ticket, o) && Blocks(db, db.orders[o].ticket, p) ==> o == p
  }

  /** A reservation transaction that found no blocking order still has none while it holds the lock. */
  ghost predicate LocksOk(w: World) {
    forall t :: t in w.locks ==> LockOk(w, t)
  }

  ghost predicate LockOk(w: World, t: TicketId) {
    && HoldsLock(w, t) && t in w.orders.projection
    && w.tasks[w.locks[t].task].activity.reservation.ticket == t
    && (!w.locks[t].Locked? ==> NothingBlocks(w.orders, t))
  }

  /** One payment, its order in Orders, and Payments' copy of that order agree. */
  ghost predicate PaymentAgrees(w: World, o: OrderId) {
    && o in w.payments.byOrder && w.payments.byOrder[o] in w.payments.payments && o in w.payments.copies
    && o in w.orders.orders
    && var payment, order, copy := w.payments.payments[w.payments.byOrder[o]], w.orders.orders[o], w.payments.copies[o];
       && PaymentStore.Agrees(payment, order, copy)
       && PublishedPrice(w.history, order.ticket, copy.price)
  }

  ghost predicate PaymentsOk(w: World) {
    && PaymentStore.IndexOk(w.payments)
    && forall o :: o in w.payments.byOrder ==> PaymentAgrees(w, o)
  }

  /* ---- Activities, workflows, workers ---- */

  ghost predicate TasksOk(w: World) {
    forall i :: 0 <= i < |w.tasks| ==> TaskOk(w, w.tasks[i].activity)
  }

  ghost predicate RepliesOk(w: World) {
    forall i, r :: 0 <= i < |w.tasks| && r in w.tasks[i].replies ==> ReplyOk(w, w.tasks[i].activity, r)
  }

  /** A resolution whose UPDATE matched no row found the order already settled. */
  ghost predicate MissesOk(w: World) {
    forall i :: 0 <= i < |w.tasks| && w.tasks[i].missed ==> MissOk(w, w.tasks[i].activity)
  }

  ghost predicate MissOk(w: World, activity: Activity) {
    activity.ResolvePayment? ==>
      activity.order in w.orders.orders && w.orders.orders[activity.order].status in {Complete, Canceled}
  }

  /** Ticket IDs are drawn once, so version 1 of a ticket is what its one creation asked for. */
  ghost predicate CreationsOk(w: World) {
    && (forall i, j ::
      0 <= i < j < |w.tasks| && w.tasks[i].activity.PersistTicket? && w.tasks[j].activity.PersistTicket? ==>
      w.tasks[i].activity.creation.ticket != w.tasks[j].activity.creation.ticket)
    && (forall i :: 0 <= i < |w.tasks| && w.tasks[i].activity.PersistTicket? ==>
      CreationOk(w, w.tasks[i].activity.creation))
  }

  ghost predicate CreationOk(w: World, input: TicketInput) {
    input.ticket in w.tickets.rows ==>
      && w.tickets.rows[input.ticket].owner == input.user
      && WasPublished(w.history, FirstVersion(input))
  }

  ghost predicate FlowsOk(w: World) {
    forall f :: f in w.flows ==> FlowOk(w, f, w.flows[f])
  }

  ghost predicate ClaimOk(w: World, c: SettlementClaim) {
    && c.outcome != Pending
    && c.payment in w.payments.payments
    && w.payments.payments[c.payment].order == c.order
    && w.payments.payments[c.payment].outcome == Some(c.outcome)
  }

  /** What a worker was told about an order is that order's final status, and the expected one. */
  ghost predicate AnswerOk(w: World, c: SettlementClaim, s: OrderStatus) {
    && c in w.claims
    && ExpectedOrderStatus(c.outcome) == Some(s)
    && c.order in w.orders.orders && w.orders.orders[c.order].status == s
  }

  ghost predicate WorkersOk(w: World) {
    && (forall c :: c in w.claims ==> ClaimOk(w, c))
    && (forall a :: a in w.answers ==> AnswerOk(w, a.0, a.1))
  }

  ghost predicate Inv(w: World) {
    && Consistent(w.tickets, w.history)
    && ReferencesOk(w) && ClaimsOk(w) && UniqueOk(w.orders) && LocksOk(w) && PaymentsOk(w)
    && TasksOk(w) && RepliesOk(w) && MissesOk(w) && CreationsOk(w) && FlowsOk(w) && WorkersOk(w)
  }

  lemma InitHolds(w: World)
    requires Init(w)
    ensures Inv(w)
  {
  }
}
