/**
  The Orders repository as it runs: a class over the orders table and the ticket
  projection, updated in place. Each method issues the statements of
  apps/orders/internal/order/postgres_repository.go, or of projection.go beside it, in
  order; run without interruption it is the atomic operation of OrderStore.
 */
module Orders {
  import opened Domain
  import opened OrderStore

  class OrderRepository {
    var orders: map<OrderId, Order>
    var projection: map<TicketId, Snapshot>

    function Db(): OrdersDb
      reads this
    {
      OrdersDb(orders, projection)
    }

    constructor ()
      ensures Db() == OrdersDb(map[], map[])
    {
      orders, projection := map[], map[];
    }

    predicate IsFirst(t: TicketId, o: OrderId)
      requires o in orders
      reads this
    {
      forall p :: p in orders && Blocks(Db(), t, p) ==> RanksBefore(orders[o], orders[p])
    }

    /** SELECT ... ORDER BY ... LIMIT 1 over the orders that block ticket t. */
    method FindBlockingOrder(t: TicketId) returns (found: Option<OrderId>)
      ensures FindsBlocking(Db(), t, found)
      ensures found == None <==> forall p :: p in orders && orders[p].ticket == t ==> orders[p].status == Canceled
      ensures found.Some? ==>
        && found.value in orders && orders[found.value].ticket == t && orders[found.value].status != Canceled
        && forall p :: p in orders && orders[p].ticket == t && orders[p].status != Canceled ==>
             if orders[found.value].status == Complete then
               orders[p].status == Complete ==> orders[p].expiresAt <= orders[found.value].expiresAt
             else orders[p].status != Complete && orders[p].expiresAt <= orders[found.value].expiresAt
    {
      ghost var answer := BlockingQueryAnswers(Db(), t);
      if o :| o in orders && Blocks(Db(), t, o) && IsFirst(t, o) {
        return Some(o);
      }
      return None;
    }

    /** Transient is the primary-key failure that the workflow retries. */
    method ReserveTicket(input: ReservationInput) returns (reply: Option<Reply>, ghost found: Option<OrderId>)
      modifies this`orders
      ensures FindsBlocking(old(Db()), input.ticket, found)
      ensures (Db(), reply) == OrderStore.ReserveTicket(old(Db()), input, found)
      ensures orders == if reply == Some(Reserved(true, NewOrder(input))) then
        old(orders)[input.order := NewOrder(input)] else old(orders)
      ensures reply ==
        if input.ticket !in projection then Some(Rejected(TicketNotFound))
        else if found.Some? then
          var existing := old(orders)[found.value];
          if existing.user == input.user && existing.status in {Created, AwaitingPayment} then
            Some(Reserved(false, existing))
          else Some(Rejected(TicketReserved))
        else if input.order in old(orders) then None
        else Some(Reserved(true, Order(input.order, input.expiresAt, input.user, input.ticket, Created)))
    {
      var blocking := FindBlockingOrder(input.ticket);
      found := blocking;
      if input.ticket !in projection {
        return Some(Rejected(TicketNotFound)), found;
      }
      if blocking.Some? {
        var existing := orders[blocking.value];
        if existing.user == input.user && existing.status != Complete {
          return Some(Reserved(false, existing)), found;
        }
        return Some(Rejected(TicketReserved)), found;
      }
      if input.order in orders {
        return None, found;
      }
      var created := Order(input.order, input.expiresAt, input.user, input.ticket, Created);
      orders := orders[input.order := created];
      return Some(Reserved(true, created)), found;
    }

    method CancelByIdAndUser(o: OrderId, u: UserId) returns (reply: Reply)
      modifies this`orders
      ensures (Db(), Some(reply)) == Atomic(old(Db()), 0, CancelOrder(o, u))
      ensures o !in old(orders) || old(orders)[o].user != u ==>
        reply == Rejected(OrderNotFound) && orders == old(orders)
      ensures o in old(orders) && old(orders)[o].user == u ==>
        && var order := old(orders)[o].(status := Canceled);
           if old(orders)[o].status in {Created, Canceled} then
             reply == CanceledOrder(order) && orders == old(orders)[o := order]
           else reply == Rejected(OrderNotCancelable) && orders == old(orders)
    {
      if o in orders && orders[o].user == u && orders[o].status == Created {
        orders := orders[o := orders[o].(status := Canceled)];
        return CanceledOrder(orders[o]);
      }
      if o !in orders || orders[o].user != u {
        return Rejected(OrderNotFound);
      }
      if orders[o].status == Canceled {
        return CanceledOrder(orders[o]);
      }
      return Rejected(OrderNotCancelable);
    }

    method ExpireCreatedOrder(o: OrderId, now: Time) returns (reply: Reply)
      modifies this`orders
      ensures (Db(), Some(reply)) == Atomic(old(Db()), now, ExpireOrder(o))
      ensures o !in old(orders) ==> reply == Rejected(OrderNotFound) && orders == old(orders)
      ensures o in old(orders) ==>
        && var order := old(orders)[o];
           var order' := if order.status == Created && order.expiresAt <= now then order.(status := Canceled)
               else order;
           reply == Expired(order', order'.status == Canceled) && orders == old(orders)[o := order']
    {
      if o in orders && orders[o].status == Created && orders[o].expiresAt <= now {
        orders := orders[o := orders[o].(status := Canceled)];
        return Expired(orders[o], true);
      }
      if o !in orders {
        return Rejected(OrderNotFound);
      }
      return Expired(orders[o], orders[o].status == Canceled);
    }

    method StartPayment(o: OrderId, u: UserId) returns (reply: Reply)
      modifies this`orders
      ensures (Db(), Some(reply)) == Atomic(old(Db()), 0, StartOrderPayment(o, u))
      ensures !(o in old(orders) && old(orders)[o].user == u && old(orders)[o].ticket in projection) ==>
        reply == Rejected(OrderNotFound) && orders == old(orders)
      ensures o in old(orders) && old(orders)[o].user == u && old(orders)[o].ticket in projection ==>
        if old(orders)[o].status in {Created, AwaitingPayment} then
          && reply == CheckoutStarted(o, u, projection[old(orders)[o].ticket].price)
          && orders == old(orders)[o := old(orders)[o].(status := AwaitingPayment)]
        else reply == Rejected(OrderNotPayable) && orders == old(orders)
    {
      if o in orders && orders[o].user == u && orders[o].ticket in projection && orders[o].status == Created {
        orders := orders[o := orders[o].(status := AwaitingPayment)];
        return CheckoutStarted(o, u, projection[orders[o].ticket].price);
      }
      if o !in orders || orders[o].user != u || orders[o].ticket !in projection {
        return Rejected(OrderNotFound);
      }
      if orders[o].status != AwaitingPayment {
        return Rejected(OrderNotPayable);
      }
      return CheckoutStarted(o, u, projection[orders[o].ticket].price);
    }

    method ResolvePayment(o: OrderId, outcome: PaymentStatus) returns (reply: Reply)
      modifies this`orders
      ensures (Db(), Some(reply)) == Atomic(old(Db()), 0, Activity.ResolvePayment(o, outcome))
      ensures outcome != Pending && o !in old(orders) ==> reply == Rejected(OrderNotFound) && orders == old(orders)
      ensures outcome == Pending ==> reply == Rejected(OrderNotPayable) && orders == old(orders)
      ensures outcome != Pending && o in old(orders) ==>
        && var target := ExpectedOrderStatus(outcome).value;
           if old(orders)[o].status in {AwaitingPayment, target} then
             && reply == Resolved(old(orders)[o].(status := target), outcome == Failed)
             && orders == old(orders)[o := old(orders)[o].(status := target)]
           else reply == Rejected(OrderNotPayable) && orders == old(orders)
    {
      var target, release;
      match outcome {
        case Succeeded => target, release := Complete, false;
        case Failed => target, release := Canceled, true;
        case Pending => return Rejected(OrderNotPayable);
      }
      if o in orders && orders[o].status == AwaitingPayment {
        orders := orders[o := orders[o].(status := target)];
        return Resolved(orders[o], release);
      }
      if o !in orders {
        return Rejected(OrderNotFound);
      }
      if (outcome == Succeeded && orders[o].status == Complete) || (outcome == Failed && orders[o].status == Canceled) {
        return Resolved(orders[o], release);
      }
      return Rejected(OrderNotPayable);
    }

    /** No reply is the transient out-of-order error. */
    method EnsureTicketProjection(s: Snapshot) returns (reply: Option<Reply>)
      modifies this`projection
      ensures (Db(), reply) == Atomic(old(Db()), 0, ProjectTicket(s))
      ensures !ValidProjection(s) ==> reply == Some(Rejected(InvalidProjection)) && projection == old(projection)
      ensures ValidProjection(s) && s.ticket !in old(projection) ==>
        reply == Some(Projected) && projection == old(projection)[s.ticket := s]
      ensures ValidProjection(s) && s.ticket in old(projection) ==>
        && var v := old(projection)[s.ticket].version;
           && projection == (if v == s.version - 1 then old(projection)[s.ticket := s] else old(projection))
           && (reply == None <==> v < s.version - 1)
           && (reply == Some(Projected) <==>
               || v == s.version - 1
               || (&& v == s.version && old(projection)[s.ticket].title == s.title
                   && old(projection)[s.ticket].price == s.price))
           && reply in {None, Some(Projected), Some(Rejected(InvalidProjection))}
    {
      if !ValidProjection(s) {
        return Some(Rejected(InvalidProjection));
      }
      if s.ticket !in projection || projection[s.ticket].version == s.version - 1 {
        projection := projection[s.ticket := s];
        return Some(Projected);
      }
      var existing := projection[s.ticket];
      if existing.version == s.version && existing.title == s.title && existing.price == s.price {
        return Some(Projected);
      }
      if existing.version < s.version {
        return None;
      }
      return Some(Rejected(InvalidProjection));
    }
  }
}
