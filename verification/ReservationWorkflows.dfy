/**
  The reservation workflows as straight-line programs over the Orders and Tickets
  repositories: one run of each, with every activity attempted once. Saga interleaves the
  same programs step by step; here their effect is stated outright.
 */
module Reservations {
  import opened Domain
  import opened TicketStore
  import opened OrderStore
  import opened Orders
  import opened Tickets

  ghost predicate Claims(rows: map<TicketId, Row>, t: TicketId, o: OrderId) {
    t in rows && rows[t].reservedBy == Some(o)
  }

  /** Order o's claim on ticket t is gone; nothing else changed. */
  ghost predicate OnlyReleased(rows: map<TicketId, Row>, rows': map<TicketId, Row>, t: TicketId, o: OrderId) {
    && rows'.Keys == rows.Keys && !Claims(rows', t, o)
    && forall u :: u in rows ==>
         rows'[u] == if u == t && Claims(rows, t, o) then rows[u].(reservedBy := None) else rows[u]
  }

  /** Order o claims ticket t; nothing else changed, and no other order lost a claim. */
  ghost predicate OnlyClaimed(rows: map<TicketId, Row>, rows': map<TicketId, Row>, t: TicketId, o: OrderId) {
    && rows'.Keys == rows.Keys && Claims(rows', t, o)
    && (rows[t].reservedBy == None || rows[t].reservedBy == Some(o))
    && forall u :: u in rows ==> rows'[u] == if u == t then rows[u].(reservedBy := Some(o)) else rows[u]
  }

  /** A Complete order blocks the ticket, or orders of other users only. */
  ghost predicate Taken(db: OrdersDb, input: ReservationInput) {
    || (exists o :: Blocks(db, input.ticket, o) && db.orders[o].status == Complete)
    || ((exists o :: Blocks(db, input.ticket, o)) && forall o :: Blocks(db, input.ticket, o) ==>
      db.orders[o].user != input.user)
  }

  /** The blocking query can find order o and no other, and its user may join it. */
  ghost predicate Joinable(db: OrdersDb, input: ReservationInput, o: OrderId) {
    && FindsBlocking(db, input.ticket, Some(o)) && db.orders[o].user == input.user && db.orders[o].status != Complete
    && forall p :: FindsBlocking(db, input.ticket, Some(p)) ==> p == o
  }

  /** What the request comes to once the order is reserved: Tickets grants the claim, or refuses it. */
  function Granted(rows: map<TicketId, Row>, created: bool, order: Order): Reply {
    if order.ticket !in rows then Rejected(TicketNotFound)
    else if rows[order.ticket].reservedBy in {None, Some(order.id)} then Reserved(created, order)
    else Rejected(TicketReserved)
  }

  /** The order that the blocking query finds for a taken ticket cannot be joined. */
  lemma {:induction false} TakenRefuses(db: OrdersDb, input: ReservationInput, found: Option<OrderId>)
    requires Taken(db, input) && FindsBlocking(db, input.ticket, found)
    ensures found.Some? && BlockedReply(db.orders[found.value], input.user) == Rejected(TicketReserved)
  {
    var o :| Blocks(db, input.ticket, o)
        && (db.orders[o].status == Complete || forall p :: Blocks(db, input.ticket, p) ==>
          db.orders[p].user != input.user);
  }

  /** A ticket that nothing blocks is not taken, and one with a joinable order has that order found. */
  lemma {:induction false} OneFinding(db: OrdersDb, input: ReservationInput, found: Option<OrderId>)
    requires FindsBlocking(db, input.ticket, found) && forall o :: o in db.orders ==> db.orders[o].id == o
    ensures FindsBlocking(db, input.ticket, None) ==> found == None
    ensures found.Some? ==>
      && found.value in db.orders && db.orders[found.value].ticket == input.ticket
      && db.orders[found.value].status != Canceled
    ensures forall o :: Joinable(db, input, o) ==>
      && found == Some(o) && db.orders[o].ticket == input.ticket && db.orders[o].id == o
      && BlockedReply(db.orders[o], input.user) == Reserved(false, db.orders[o])
  {
  }

  class ReservationService {
    const orders: OrderRepository
    const tickets: TicketRepository

    constructor (orders: OrderRepository, tickets: TicketRepository)
      ensures this.orders == orders && this.tickets == tickets
    {
      this.orders, this.tickets := orders, tickets;
    }

    ghost predicate Valid()
      reads this, orders, tickets
    {
      tickets.Valid() && forall o :: o in orders.orders ==> orders.orders[o].id == o
    }

    /* ---- Activities ---- */

    method ClaimTicket(t: TicketId, o: OrderId) returns (error: Option<Error>)
      requires tickets.Valid()
      modifies tickets`rows
      ensures tickets.Valid()
      ensures error == if t !in old(tickets.rows) then Some(TicketNotFound)
                       else if old(tickets.rows)[t].reservedBy in {None, Some(o)} then None
                       else Some(TicketReserved)
      ensures if error == None then OnlyClaimed(old(tickets.rows), tickets.rows, t, o)
          else tickets.rows == old(tickets.rows)
    {
      hide Mirrors;
      var reply := tickets.ReserveForOrder(t, o);
      return if reply.Rejected? then Some(reply.error) else None;
    }

    method ReleaseTicket(t: TicketId, o: OrderId) returns (error: Option<Error>)
      requires tickets.Valid()
      modifies tickets`rows
      ensures tickets.Valid()
      ensures error == (if t in old(tickets.rows) then None else Some(TicketNotFound))
      ensures if error == None then OnlyReleased(old(tickets.rows), tickets.rows, t, o)
          else tickets.rows == old(tickets.rows)
    {
      hide Mirrors;
      var reply := tickets.ReleaseOrderReservation(t, o);
      return if reply.Rejected? then Some(reply.error) else None;
    }

    /* ---- Workflows ---- */

    /**
      Success means that the ticket is claimed by an open order of this user. child is the
      expiry workflow that was started. No reply stands for an order ID already in use.
     */
    method CreateOrderWorkflow(input: ReservationInput) returns (reply: Option<Reply>, child: Option<(OrderId, Time)>)
      requires Valid()
      modifies orders, tickets
      ensures Valid()
      ensures reply.Some? ==> reply.value.Reserved? || reply.value.Rejected?
      ensures reply.Some? && reply.value.Reserved? ==>
        && var Reserved(created, order) := reply.value;
           && order.id in orders.orders && orders.orders[order.id] == order
           && order.user == input.user && order.ticket == input.ticket
           && (order.status == Created || order.status == AwaitingPayment)
           && (created <==> order.id !in old(orders.orders))
           && (created ==> order == NewOrder(input))
           && child == (if created then Some((order.id, order.expiresAt)) else None)
           && OnlyClaimed(old(tickets.rows), tickets.rows, order.ticket, order.id)
      ensures !(reply.Some? && reply.value.Reserved?) ==> child == None && tickets.rows == old(tickets.rows)
      ensures orders.orders == old(orders.orders)
        || (input.order !in old(orders.orders) && orders.orders == old(orders.orders)[input.order := NewOrder(input)])
      // An unprojected ticket, a Complete order, or another user's open order refuses the request.
      ensures input.ticket !in old(orders.projection) ==>
        reply == Some(Rejected(TicketNotFound)) && orders.orders == old(orders.orders)
      ensures input.ticket in old(orders.projection) && Taken(old(orders.Db()), input) ==>
        reply == Some(Rejected(TicketReserved)) && orders.orders == old(orders.orders)
      // The caller's own open order is joined: it answers the request exactly if Tickets grants it the claim.
      ensures forall o :: input.ticket in old(orders.projection) && Joinable(old(orders.Db()), input, o) ==>
        && reply == Some(Granted(old(tickets.rows), false, old(orders.orders)[o]))
        && orders.orders == old(orders.orders) && child == None
      // A free ticket gets a new Created order, and the request succeeds exactly if Tickets grants the claim.
      ensures input.ticket in old(orders.projection) && FindsBlocking(old(orders.Db()), input.ticket, None) ==>
        if input.order in old(orders.orders) then reply == None && orders.orders == old(orders.orders)
        else
          && reply == Some(Granted(old(tickets.rows), true, NewOrder(input)))
          && orders.orders == old(orders.orders)[input.order := NewOrder(input)]
      ensures orders.projection == old(orders.projection) && tickets.ledger == old(tickets.ledger)
          && tickets.history == old(tickets.history)
    {
      hide Mirrors, OnlyClaimed, Taken, FindsBlocking;
      child := None;
      ghost var found;
      ghost var before := orders.Db();
      reply, found := orders.ReserveTicket(input);
      if Taken(before, input) { TakenRefuses(before, input, found); }
      OneFinding(before, input, found);
      if reply == None || reply.value.Rejected? {
        return;
      }
      var reservation := reply.value;
      var error := ClaimTicket(reservation.order.ticket, reservation.order.id);
      if error.Some? {
        return Some(Rejected(error.value)), None;
      }
      if reservation.created {
        child := Some((reservation.order.id, reservation.order.expiresAt));
      }
    }

    /** Cancels first and releases after; success means both happened, to this order and its claim alone. */
    method CancelOrderWorkflow(o: OrderId, u: UserId) returns (reply: Reply)
      requires Valid()
      modifies orders, tickets
      ensures Valid()
      ensures o !in old(orders.orders) || old(orders.orders)[o].user != u ==> reply == Rejected(OrderNotFound)
      ensures o in old(orders.orders) && old(orders.orders)[o].user == u ==>
        && var order := old(orders.orders)[o];
           reply == (if order.status in {AwaitingPayment, Complete} then Rejected(OrderNotCancelable)
                     else if order.ticket !in old(tickets.rows) then Rejected(TicketNotFound)
                     else CanceledOrder(order.(status := Canceled)))
      // The order is Canceled even if its ticket turns out to be missing; any other refusal leaves all as it was.
      ensures if reply.CanceledOrder? || reply == Rejected(TicketNotFound)
              then orders.orders == old(orders.orders)[o := old(orders.orders)[o].(status := Canceled)]
              else orders.orders == old(orders.orders)
      ensures if reply.CanceledOrder? then OnlyReleased(old(tickets.rows), tickets.rows, reply.order.ticket, o)
              else tickets.rows == old(tickets.rows)
      ensures orders.projection == old(orders.projection) && tickets.ledger == old(tickets.ledger)
          && tickets.history == old(tickets.history)
    {
      hide Mirrors, OnlyReleased;
      reply := orders.CancelByIdAndUser(o, u);
      if reply.Rejected? {
        return;
      }
      var error := ReleaseTicket(reply.order.ticket, reply.order.id);
      if error.Some? {
        return Rejected(error.value);
      }
    }

    /** now is the time at which the timer has fired. An order past Created keeps both its state and its claim. */
    method ExpireOrderWorkflow(o: OrderId, now: Time) returns (error: Option<Error>)
      requires Valid()
      modifies orders, tickets
      ensures Valid()
      ensures o !in old(orders.orders) ==> error == Some(OrderNotFound) && orders.orders == old(orders.orders)
      ensures o in old(orders.orders) ==>
        && var order := old(orders.orders)[o];
           var overdue := order.status == Created && order.expiresAt <= now;
           && orders.orders == (if overdue then old(orders.orders)[o := order.(status := Canceled)]
               else old(orders.orders))
           && if orders.orders[o].status == Canceled && order.ticket in old(tickets.rows) then
                error == None && OnlyReleased(old(tickets.rows), tickets.rows, order.ticket, o)
              else
                && error == (if orders.orders[o].status == Canceled then Some(TicketNotFound) else None)
                && tickets.rows == old(tickets.rows)
      ensures error.Some? ==> tickets.rows == old(tickets.rows)
      ensures orders.projection == old(orders.projection) && tickets.ledger == old(tickets.ledger)
          && tickets.history == old(tickets.history)
    {
      hide Mirrors, OnlyReleased;
      var expiration := orders.ExpireCreatedOrder(o, now);
      if expiration.Rejected? {
        return Some(expiration.error);
      }
      if !expiration.shouldRelease {
        return None;
      }
      error := ReleaseTicket(expiration.order.ticket, expiration.order.id);
    }

    /** Success means that the order has the outcome's status and, for a failed payment, no claim any more. */
    method ResolvePaymentWorkflow(o: OrderId, outcome: PaymentStatus) returns (reply: Reply)
      requires Valid()
      modifies orders, tickets
      ensures Valid()
      ensures reply.Resolved? || reply.Rejected?
      ensures reply.Resolved? ==>
        && o in old(orders.orders)
        && ExpectedOrderStatus(outcome) == Some(reply.order.status)
        && old(orders.orders)[o].status in {AwaitingPayment, reply.order.status}
        && reply.order == old(orders.orders)[o].(status := reply.order.status)
        && orders.orders == old(orders.orders)[o := reply.order]
        && (if outcome == Failed then OnlyReleased(old(tickets.rows), tickets.rows, reply.order.ticket, o)
            else tickets.rows == old(tickets.rows))
      ensures reply.Rejected? ==>
        && tickets.rows == old(tickets.rows)
        && (reply.error != TicketNotFound ==> orders.orders == old(orders.orders))
      // Which refusal it is; a failed payment's order is Canceled even if its ticket turns out to be missing.
      ensures reply == Rejected(OrderNotFound) <==> outcome != Pending && o !in old(orders.orders)
      ensures reply == Rejected(OrderNotPayable) <==>
        || outcome == Pending
        || (o in old(orders.orders) && old(orders.orders)[o].status !in
              {AwaitingPayment, if outcome == Succeeded then Complete else Canceled})
      ensures reply == Rejected(TicketNotFound) <==>
        && outcome == Failed && o in old(orders.orders) && old(orders.orders)[o].ticket !in old(tickets.rows)
        && old(orders.orders)[o].status in {AwaitingPayment, Canceled}
      ensures reply.Rejected? ==> reply.error in {OrderNotFound, OrderNotPayable, TicketNotFound}
      ensures reply == Rejected(TicketNotFound) ==>
        orders.orders == old(orders.orders)[o := old(orders.orders)[o].(status := Canceled)]
      ensures orders.projection == old(orders.projection) && tickets.ledger == old(tickets.ledger)
          && tickets.history == old(tickets.history)
    {
      hide Mirrors, OnlyReleased;
      reply := orders.ResolvePayment(o, outcome);
      if reply.Resolved? && reply.shouldRelease {
        var error := ReleaseTicket(reply.order.ticket, reply.order.id);
        if error.Some? {
          return Rejected(error.value);
        }
      }
    }
  }
}
