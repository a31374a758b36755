/**
  Checkout and settlement as programs: creating a payment, one round of the settlement
  worker, and how many rounds it takes until every payment is settled.
 */
module Settlement {
  import opened Domain
  import opened TicketStore
  import opened PaymentStore
  import opened Orders
  import opened Payments
  import opened Reservations

  /** Every payment agrees with its order in Orders and with Payments' copy of that order. */
  ghost predicate Agreement(orders: map<OrderId, Order>, db: PaymentsDb)
    requires IndexOk(db)
  {
    forall o :: o in db.byOrder ==> o in orders && Agrees(db.payments[db.byOrder[o]], orders[o], db.copies[o])
  }

  datatype Checkout = Stored(payment: Payment, created: bool) | Refused(error: Error) | InvalidUser

  class PaymentService {
    const payments: PaymentRepository
    const orders: OrderRepository

    constructor (payments: PaymentRepository, orders: OrderRepository)
      ensures this.payments == payments && this.orders == orders
    {
      this.payments, this.orders := payments, orders;
    }

    ghost predicate Valid()
      reads this, payments, orders
    {
      payments.Valid() && Agreement(orders.orders, payments.Db())
    }

    /**
      Starts checkout, then stores the payment at the price that Orders answered. While the
      order still awaits payment, a replay finds the payment that is there and changes nothing.
     */
    method CreatePaymentWorkflow(o: OrderId, u: UserId, id: PaymentId) returns (result: Checkout)
      requires Valid() && id !in payments.payments
      modifies payments, orders`orders
      ensures Valid()
      ensures var before := old(orders.Db());
              if o !in before.orders || before.orders[o].user != u || before.orders[o].ticket !in before.projection then
                result == Refused(OrderNotFound)
              else if before.orders[o].status !in {Created, AwaitingPayment} then result == Refused(OrderNotPayable)
              else if o in old(payments.byOrder) then
                && result == Stored(old(payments.payments)[old(payments.byOrder)[o]], false)
                && payments.Db() == old(payments.Db()) && orders.orders == before.orders
              else
                && result == Stored(Payment(id, o, Pending, None, None), true)
                && payments.copies
                   == old(payments.copies)[o :=
                     OrderCopy(u, before.projection[before.orders[o].ticket].price, AwaitingPayment)]
                && payments.payments == old(payments.payments)[id := result.payment]
                && payments.byOrder == old(payments.byOrder)[o := id]
                && orders.orders == old(orders.orders)[o := before.orders[o].(status := AwaitingPayment)]
      ensures result.Refused? ==> payments.Db() == old(payments.Db()) && orders.orders == old(orders.orders)
      ensures orders.projection == old(orders.projection)
    {
      hide IndexOk, Agreement, Agrees, PaymentStore.Create;
      ghost var before, db := orders.orders, payments.Db();
      var started := orders.StartPayment(o, u);
      if started.Rejected? {
        return Refused(started.error);
      }
      if o in payments.byOrder {
        ReplayFinds(before, db, o, id, OrderCopy(u, started.price, AwaitingPayment));
      } else {
        NewPaymentAgrees(before, db, o, id, OrderCopy(u, started.price, AwaitingPayment));
      }
      var payment, created := payments.Create(id, o, OrderCopy(u, started.price, AwaitingPayment));
      return Stored(payment, created);
    }

    /** Looks for the caller's own payment first: a replay returns it, in whatever state it is, and changes nothing. */
    method CreatePayment(o: OrderId, u: UserId, id: PaymentId) returns (result: Checkout)
      requires Valid() && id !in payments.payments
      modifies payments, orders`orders
      ensures Valid()
      ensures result == InvalidUser <==> TrimSpace(u) == ""
      ensures !Blank(u) && PaymentStore.FindByOrderAndUser(old(payments.Db()), o, u).Some? ==>
        && result == Stored(PaymentStore.FindByOrderAndUser(old(payments.Db()), o, u).value, false)
        && payments.Db() == old(payments.Db()) && orders.Db() == old(orders.Db())
      // The first payment is refused exactly as checkout is, and otherwise created.
      ensures !Blank(u) && PaymentStore.FindByOrderAndUser(old(payments.Db()), o, u) == None ==>
        && var before := old(orders.Db());
           if o !in before.orders || before.orders[o].user != u || before.orders[o].ticket !in before.projection then
             result == Refused(OrderNotFound)
           else if before.orders[o].status !in {Created, AwaitingPayment} then result == Refused(OrderNotPayable)
           else
             && result == Stored(Payment(id, o, Pending, None, None), true) && o !in old(payments.byOrder)
             && payments.copies
                == old(payments.copies)[o :=
                  OrderCopy(u, before.projection[before.orders[o].ticket].price, AwaitingPayment)]
             && payments.payments == old(payments.payments)[id := result.payment]
             && payments.byOrder == old(payments.byOrder)[o := id]
             && orders.orders == before.orders[o := before.orders[o].(status := AwaitingPayment)]
      ensures result.Stored? ==> PaymentStore.FindByOrderAndUser(payments.Db(), o, u) == Some(result.payment)
      ensures !result.Stored? ==> payments.Db() == old(payments.Db()) && orders.Db() == old(orders.Db())
      ensures orders.projection == old(orders.projection)
    {
      BlankTrims(u);
      if Blank(u) {
        return InvalidUser;
      }
      var existing := payments.FindByOrderAndUser(o, u);
      if existing.Some? {
        return Stored(existing.value, false);
      }
      OwnPaymentFound(orders.orders, payments.Db(), o, u);
      result := CreatePaymentWorkflow(o, u, id);
    }
  }

  /** The payment of a user's own order is found for that user. */
  lemma OwnPaymentFound(orders: map<OrderId, Order>, db: PaymentsDb, o: OrderId, u: UserId)
    requires IndexOk(db) && Agreement(orders, db)
    ensures o in orders && orders[o].user == u && o in db.byOrder ==> PaymentStore.FindByOrderAndUser(db, o, u).Some?
  {
  }

  /** A new payment agrees with the order whose checkout was just started. */
  lemma {:induction false} NewPaymentAgrees(orders: map<OrderId, Order>, db: PaymentsDb, o: OrderId, id: PaymentId,
      copy: OrderCopy)
    requires IndexOk(db) && Agreement(orders, db) && id !in db.payments && o !in db.byOrder
    requires o in orders && copy.user == orders[o].user && copy.status == AwaitingPayment
    ensures var (db', reply) := PaymentStore.Create(db, id, o, copy);
            && IndexOk(db') && Agreement(orders[o := orders[o].(status := AwaitingPayment)], db')
            && reply == PaymentStored(Payment(id, o, Pending, None, None), true)
            && db'.copies == db.copies[o := copy] && db'.payments == db.payments[id := reply.payment]
            && db'.byOrder == db.byOrder[o := id]
  {
    CreateKeepsIndex(db, id, o, copy);
  }

  /** An order that has a payment and can still be checked out awaits that payment. */
  lemma {:induction false} ReplayFinds(orders: map<OrderId, Order>, db: PaymentsDb, o: OrderId, id: PaymentId,
      copy: OrderCopy)
    requires IndexOk(db) && Agreement(orders, db) && id !in db.payments && o in db.byOrder
    requires o in orders && orders[o].status in {Created, AwaitingPayment}
    ensures PaymentStore.Create(db, id, o, copy) == (db, PaymentStored(db.payments[db.byOrder[o]], false))
    ensures orders[o := orders[o].(status := AwaitingPayment)] == orders
  {
    assert Agrees(db.payments[db.byOrder[o]], orders[o], db.copies[o]);
  }

  /** A payment's outcome once a worker with this configured outcome has claimed it. */
  function Decided(payment: Payment, configured: PaymentStatus): PaymentStatus {
    match payment.outcome
    case Some(outcome) => outcome
    case None => configured
  }

  /** Payment p, and no other, has its outcome, and either a lease or that outcome for its status. */
  ghost predicate ClaimedOrSettled(before: map<PaymentId, Payment>, after: map<PaymentId, Payment>, p: PaymentId,
                                   configured: PaymentStatus, until: Time, settled: bool)
  {
    && p in before && before[p].status == Pending
    && var outcome := Decided(before[p], configured);
       after == before[p := if settled then Payment(p, before[p].order, outcome, Some(outcome), None)
                            else Payment(p, before[p].order, Pending, Some(outcome), Some(until))]
  }

  /** If Orders was asked, order o is Complete after a success, and Canceled and released after a failure. */
  ghost predicate OrderSettled(before: map<OrderId, Order>, after: map<OrderId, Order>, rows: map<TicketId, Row>,
                               rows': map<TicketId, Row>, o: OrderId, outcome: PaymentStatus, asked: bool)
  {
    && o in before && outcome != Pending
    && after == (if asked then before[o := before[o].(status := if outcome == Succeeded then Complete else Canceled)]
                 else before)
    && (if asked && outcome == Failed then OnlyReleased(rows, rows', before[o].ticket, o) else rows' == rows)
  }

  /** How the ResolvePayment call of one round goes: both ways, request lost, or only the answer lost. */
  datatype Rpc = Answered | RequestLost | AnswerLost

  datatype Round = NothingToClaim | NoOutcome | Unanswered | Conflict | NotPending | Settled(payment: PaymentId)

  class SettlementWorker {
    const payments: PaymentRepository
    const orders: ReservationService
    const outcome: PaymentStatus
    const lease: Time

    constructor (payments: PaymentRepository, orders: ReservationService, outcome: PaymentStatus, lease: Time)
      requires outcome != Pending
      ensures this.payments == payments && this.orders == orders && this.outcome == outcome && this.lease == lease
    {
      this.payments, this.orders, this.outcome, this.lease := payments, orders, outcome, lease;
    }

    ghost predicate Valid()
      reads this, payments, orders, orders.orders, orders.tickets
    {
      && outcome != Pending && payments.Valid() && orders.Valid()
      && Agreement(orders.orders.orders, payments.Db())
      && forall o :: o in orders.orders.orders ==> orders.orders.orders[o].ticket in orders.tickets.rows
    }

    /** What holds whatever is asked of Orders. */
    ghost predicate TablesValid()
      reads this, payments, orders, orders.orders, orders.tickets
    {
      && payments.Valid() && orders.Valid()
      && forall o :: o in orders.orders.orders ==> orders.orders.orders[o].ticket in orders.tickets.rows
    }

    /**
      The RPC to Orders; nothing comes back when a message is lost or the workflow failed.
      Orders takes the caller's word for the outcome, so agreement with Payments is kept if no
      payment of that order has another outcome, or none yet.
     */
    method CallResolvePayment(o: OrderId, outcome: PaymentStatus, rpc: Rpc) returns (status: Option<OrderStatus>)
      requires Valid()
      modifies orders.orders, orders.tickets
      ensures TablesValid() && this.outcome != Pending
      ensures orders.orders.orders ==
        if !rpc.RequestLost? && Resolves(old(orders.orders.orders), o, outcome) then
          Resolution(old(orders.orders.orders), o, outcome)
        else old(orders.orders.orders)
      ensures if !rpc.RequestLost? && outcome == Failed && Resolves(old(orders.orders.orders), o, outcome)
              then OnlyReleased(old(orders.tickets.rows), orders.tickets.rows, old(orders.orders.orders)[o].ticket, o)
              else orders.tickets.rows == old(orders.tickets.rows)
      ensures status == if rpc.Answered? && Resolves(old(orders.orders.orders), o, outcome) then
        ExpectedOrderStatus(outcome) else None
      ensures NoOtherOutcome(payments.Db(), o, outcome) ==> Valid()
      ensures o in payments.byOrder && NoOtherOutcome(payments.Db(), o, outcome) && rpc.Answered? ==>
        && status == ExpectedOrderStatus(outcome)
        && o in orders.orders.orders && Some(orders.orders.orders[o].status) == status
    {
      hide Mirrors, IndexOk, Agreement, Agrees, OutcomesTerminal;
      ghost var before, db := orders.orders.orders, payments.Db();
      if NoOtherOutcome(db, o, outcome) { ResolutionAgrees(before, db, o, outcome); }
      if rpc.RequestLost? {
        return None;
      }
      var reply := orders.ResolvePaymentWorkflow(o, outcome);
      if rpc.AnswerLost? || reply.Rejected? {
        return None;
      }
      return Some(reply.order.status);
    }

    /** The part of a round after the claim: resolve in Orders, compare, mark. */
    method SettleClaimed(p: Payment, rpc: Rpc) returns (round: Round)
      requires Valid() && p.id in payments.payments && payments.payments[p.id] == p
      requires p.status == Pending && p.outcome.Some?
      modifies payments, orders.orders, orders.tickets
      ensures Valid()
      ensures round == if rpc.Answered? then Settled(p.id) else Unanswered
      ensures payments.payments == if rpc.Answered?
        then old(payments.payments)[p.id := p.(status := p.outcome.value, lease := None)]
        else old(payments.payments)
      ensures PendingIds(payments.Db()) ==
        if rpc.Answered? then PendingIds(old(payments.Db())) - {p.id} else PendingIds(old(payments.Db()))
      ensures OrderSettled(old(orders.orders.orders), orders.orders.orders, old(orders.tickets.rows),
                           orders.tickets.rows, p.order, p.outcome.value, !rpc.RequestLost?)
    {
      hide ReservationService.Valid, Agreement, Agrees, IndexOk, PaymentStore.MarkResolved, PendingIds, OnlyReleased,
           Resolves, Resolution, OrderSettled, OutcomesTerminal;
      ghost var db, placed, rows := payments.Db(), orders.orders.orders, orders.tickets.rows;
      ClaimedIs(placed, db, p);
      ResolutionAgrees(placed, db, p.order, p.outcome.value);
      var status := CallResolvePayment(p.order, p.outcome.value, rpc);
      ResolutionIs(placed, rows, orders.tickets.rows, p.order, p.outcome.value, !rpc.RequestLost?);
      if status == None {
        return Unanswered;
      }
      if status != ExpectedOrderStatus(p.outcome.value) {
        return Conflict;
      }
      MarkAgrees(orders.orders.orders, db, p.id, p.outcome.value);
      var ok := payments.MarkResolved(p.id, p.outcome.value);
      return if ok then Settled(p.id) else NotPending;
    }

    /**
      One round: claim, resolve in Orders, compare, mark. It never raises the number of
      pending payments, settles exactly the claimed one when Orders answers, and never
      meets a claimed payment without an outcome, a conflicting status, or a payment that
      is no longer pending.
     */
    method SettleOne(now: Time, locked: set<PaymentId>, rpc: Rpc) returns (round: Round)
      requires Valid()
      modifies payments, orders.orders, orders.tickets
      ensures Valid()
      ensures round.NothingToClaim? <==> NonePending(old(payments.Db()), now, locked)
      ensures round.Unanswered? <==> !NonePending(old(payments.Db()), now, locked) && !rpc.Answered?
      ensures round.Settled? <==> !NonePending(old(payments.Db()), now, locked) && rpc.Answered?
      ensures round.Settled? ==>
        && NextPending(old(payments.Db()), now, locked, round.payment)
        && PendingIds(payments.Db()) == PendingIds(old(payments.Db())) - {round.payment}
      ensures !round.Settled? ==> PendingIds(payments.Db()) == PendingIds(old(payments.Db()))
      ensures payments.payments.Keys == old(payments.payments).Keys
      ensures forall p :: p in payments.payments && payments.payments[p] != old(payments.payments)[p] ==>
        NextPending(old(payments.Db()), now, locked, p)
      // The claimed payment keeps its outcome, or gets the worker's; with it Orders settles the order if it is asked.
      ensures forall p :: NextPending(old(payments.Db()), now, locked, p) ==>
        && ClaimedOrSettled(old(payments.payments), payments.payments, p, outcome, now + lease, round.Settled?)
        && OrderSettled(old(orders.orders.orders), orders.orders.orders, old(orders.tickets.rows), orders.tickets.rows,
                        old(payments.payments)[p].order, Decided(old(payments.payments)[p], outcome), !rpc.RequestLost?)
      ensures round.NothingToClaim? ==>
        && payments.payments == old(payments.payments) && orders.orders.orders == old(orders.orders.orders)
        && orders.tickets.rows == old(orders.tickets.rows)
    {
      hide ReservationService.Valid, Agreement, Agrees, NextPending, NonePending, IndexOk, PaymentStore.Claim,
           PaymentStore.MarkResolved, PendingIds, OnlyReleased, Resolves, Resolution, ClaimedOrSettled, OrderSettled;
      hide Decided, OutcomesTerminal, ExpectedOrderStatus, Claimable;
      ghost var db, placed, rows := payments.Db(), orders.orders.orders, orders.tickets.rows;
      NextIsUnique(db, now, locked);
      var claimed, failed := payments.ClaimNextPending(outcome, now + lease, now, locked);
      if claimed == None {
        return NothingToClaim;
      }
      var p := claimed.value;
      NextIsPending(db, now, locked, p.id);
      ClaimAgrees(placed, db, p.id, outcome, now + lease);
      assert ClaimedOrSettled(db.payments, payments.payments, p.id, outcome, now + lease, false) by {
        ClaimIs(db.payments, p, outcome, now + lease);
      }
      if p.outcome == None {
        return NoOutcome;
      }
      SettlementIs(db.payments, payments.payments, p, outcome, now + lease);
      round := SettleClaimed(p, rpc);
    }

    /**
      With every lease of a pending payment expired, no new payments and Orders answering,
      as many rounds as there are pending payments settle them all: every payment is then
      terminal and agrees with its order.
     */
    method Drain(clock: seq<Time>)
      requires Valid() && |clock| == |PendingIds(payments.Db())|
      requires forall k, p :: 0 <= k < |clock| && p in PendingIds(payments.Db()) ==>
        Claimable(payments.payments[p], clock[k])
      modifies payments, orders.orders, orders.tickets
      ensures Valid()
      ensures payments.payments.Keys == old(payments.payments).Keys
      ensures forall p :: p in payments.payments ==>
        && payments.payments[p].status != Pending
        && payments.payments[p].order in orders.orders.orders
        && ExpectedOrderStatus(payments.payments[p].status)
            == Some(orders.orders.orders[payments.payments[p].order].status)
      // Each ends with the outcome it had when this worker came, or else with this worker's.
      ensures forall p :: p in old(payments.payments) ==>
        payments.payments[p].status == Ends(old(payments.payments)[p], outcome)
    {
      hide ReservationService.Valid, Agreement, Agrees, NextPending, NonePending, Claimable, PendingIds;
      hide ClaimedOrSettled, OrderSettled, Settling;
      ghost var start := payments.Db();
      StartsSettling(payments.Db(), outcome);
      for k := 0 to |clock|
        invariant Valid()
        invariant Settling(start.payments, payments.Db(), outcome) && |PendingIds(payments.Db())| == |clock| - k
      {
        ghost var db := payments.Db();
        SomethingPending(start, db, outcome, clock[k]);
        var round := SettleOne(clock[k], {}, Answered);
        OneSettled(start.payments, db, payments.Db(), round.payment, outcome, clock[k] + lease);
      }
      AllEnd(start.payments, payments.Db(), outcome);
      AllSettled(orders.orders.orders, payments.Db());
    }
  }

  /** How a payment ends that this worker alone settles, if it is not settled yet. */
  function Ends(payment: Payment, configured: PaymentStatus): PaymentStatus {
    if payment.status == Pending then Decided(payment, configured) else payment.status
  }

  /** On the way: what is still pending was not touched yet, and all else ended. */
  ghost predicate Settling(before: map<PaymentId, Payment>, db: PaymentsDb, configured: PaymentStatus) {
    && db.payments.Keys == before.Keys
    && forall p :: p in before ==>
         if p in PendingIds(db) then db.payments[p] == before[p]
         else db.payments[p].status == Ends(before[p], configured)
  }

  lemma StartsSettling(db: PaymentsDb, configured: PaymentStatus)
    ensures Settling(db.payments, db, configured)
  {
  }

  /** While payments are pending whose leases had expired, the next round finds one. */
  lemma {:induction false} SomethingPending(start: PaymentsDb, db: PaymentsDb, configured: PaymentStatus, now: Time)
    requires Settling(start.payments, db, configured) && |PendingIds(db)| > 0
    requires forall p :: p in PendingIds(start) ==> Claimable(start.payments[p], now)
    ensures !NonePending(db, now, {})
  {
    var p :| p in PendingIds(db);
    assert p in PendingIds(start);
    assert Claimable(db.payments[p], now);
  }

  /** A round settles one payment, and the others wait unchanged. */
  lemma {:induction false} OneSettled(before: map<PaymentId, Payment>, db: PaymentsDb, db': PaymentsDb, p: PaymentId,
                                      configured: PaymentStatus, until: Time)
    requires Settling(before, db, configured)
    requires ClaimedOrSettled(db.payments, db'.payments, p, configured, until, true)
    requires PendingIds(db') == PendingIds(db) - {p}
    ensures Settling(before, db', configured) && |PendingIds(db')| == |PendingIds(db)| - 1
  {
    assert p in PendingIds(db);
  }

  lemma AllEnd(before: map<PaymentId, Payment>, db: PaymentsDb, configured: PaymentStatus)
    requires Settling(before, db, configured) && |PendingIds(db)| == 0
    ensures db.payments.Keys == before.Keys
    ensures forall p :: p in before ==> db.payments[p].status == Ends(before[p], configured)
  {
  }

  /** No pending payment left: all payments are settled as their orders are. */
  lemma {:induction false} AllSettled(orders: map<OrderId, Order>, db: PaymentsDb)
    requires IndexOk(db) && Agreement(orders, db) && |PendingIds(db)| == 0
    ensures forall p :: p in db.payments ==>
      && db.payments[p].status != Pending && db.payments[p].order in orders
      && ExpectedOrderStatus(db.payments[p].status) == Some(orders[db.payments[p].order].status)
  {
    forall p | p in db.payments
      ensures db.payments[p].status != Pending && db.payments[p].order in orders
      ensures ExpectedOrderStatus(db.payments[p].status) == Some(orders[db.payments[p].order].status)
    {
      assert p !in PendingIds(db);
      assert Agrees(db.payments[db.byOrder[db.payments[p].order]], orders[db.payments[p].order],
          db.copies[db.payments[p].order]);
    }
  }

  /** No payment but p changed. */
  ghost predicate OnlyPayment(db: PaymentsDb, db': PaymentsDb, p: PaymentId) {
    && db'.payments.Keys == db.payments.Keys
    && forall q :: q in db.payments && q != p ==> db'.payments[q] == db.payments[q]
  }

  lemma {:induction false} NextIsPending(db: PaymentsDb, now: Time, locked: set<PaymentId>, p: PaymentId)
    requires NextPending(db, now, locked, p)
    ensures p in db.payments && db.payments[p].status == Pending && !NonePending(db, now, locked)
  {
  }

  /** A claimed payment's order has it as its one payment. */
  lemma ClaimedIs(orders: map<OrderId, Order>, db: PaymentsDb, p: Payment)
    requires IndexOk(db) && Agreement(orders, db) && p.id in db.payments && db.payments[p.id] == p && p.outcome.Some?
    ensures p.order in db.byOrder && db.byOrder[p.order] == p.id && p.outcome.value != Pending
    ensures NoOtherOutcome(db, p.order, p.outcome.value)
  {
    assert p.order in db.byOrder;
  }

  lemma ClaimIs(before: map<PaymentId, Payment>, p: Payment, configured: PaymentStatus, until: Time)
    requires p.id in before && before[p.id].id == p.id && before[p.id].status == Pending
    requires p == Payment(p.id, before[p.id].order, Pending,
                          if before[p.id].outcome == None then Some(configured) else before[p.id].outcome, Some(until))
    ensures ClaimedOrSettled(before, before[p.id := p], p.id, configured, until, false)
  {
  }

  lemma SettlementIs(before: map<PaymentId, Payment>, leased: map<PaymentId, Payment>, p: Payment,
                     configured: PaymentStatus, until: Time)
    requires ClaimedOrSettled(before, leased, p.id, configured, until, false)
    requires leased[p.id] == p && p.outcome.Some?
    ensures ClaimedOrSettled(before, leased[p.id := p.(status := p.outcome.value, lease := None)], p.id, configured,
                             until, true)
    ensures p.outcome.value == Decided(before[p.id], configured)
  {
  }

  lemma ResolutionIs(before: map<OrderId, Order>, rows: map<TicketId, Row>, rows': map<TicketId, Row>, o: OrderId,
                     outcome: PaymentStatus, asked: bool)
    requires Resolves(before, o, outcome)
    requires if asked && outcome == Failed then OnlyReleased(rows, rows', before[o].ticket, o) else rows' == rows
    ensures var after := if asked then Resolution(before, o, outcome) else before;
            OrderSettled(before, after, rows, rows', o, outcome, asked)
  {
  }

  /** Claiming keeps the agreement: the outcome is written once, before Orders is asked. */
  lemma {:induction false} ClaimAgrees(orders: map<OrderId, Order>, db: PaymentsDb, p: PaymentId,
      outcome: PaymentStatus, until: Time)
    requires IndexOk(db) && Agreement(orders, db) && p in db.payments && db.payments[p].status == Pending
        && outcome != Pending
    ensures IndexOk(Claim(db, p, outcome, until)) && Agreement(orders, Claim(db, p, outcome, until))
    ensures db.payments[p].order in db.byOrder && db.byOrder[db.payments[p].order] == p
    ensures Claim(db, p, outcome, until).payments[p].outcome.Some?
    ensures Claim(db, p, outcome, until).payments[p].outcome != Some(Pending)
    ensures PendingIds(Claim(db, p, outcome, until)) == PendingIds(db)
        && OnlyPayment(db, Claim(db, p, outcome, until), p)
    ensures Claim(db, p, outcome, until).byOrder == db.byOrder
        && Claim(db, p, outcome, until).payments[p].status == Pending
    ensures Claim(db, p, outcome, until).payments[p].order == db.payments[p].order
  {
    assert Agrees(db.payments[p], orders[db.payments[p].order], db.copies[db.payments[p].order]);
  }

  lemma {:induction false} MarkSettlesOne(db: PaymentsDb, p: PaymentId, outcome: PaymentStatus)
    requires IndexOk(db) && Resolvable(db, p, outcome) && ExpectedOrderStatus(outcome).Some?
    ensures PendingIds(MarkResolved(db, p, outcome)) == PendingIds(db) - {p}
        && OnlyPayment(db, MarkResolved(db, p, outcome), p)
  {
  }

  /** Marking keeps the agreement once Orders has settled the order accordingly. */
  lemma {:induction false} MarkAgrees(orders: map<OrderId, Order>, db: PaymentsDb, p: PaymentId, outcome: PaymentStatus)
    requires IndexOk(db) && Agreement(orders, db) && Resolvable(db, p, outcome)
    requires db.payments[p].order in orders && Some(orders[db.payments[p].order].status) == ExpectedOrderStatus(outcome)
    ensures IndexOk(MarkResolved(db, p, outcome)) && Agreement(orders, MarkResolved(db, p, outcome))
    ensures PendingIds(MarkResolved(db, p, outcome)) == PendingIds(db) - {p}
        && OnlyPayment(db, MarkResolved(db, p, outcome), p)
  {
    MarkKeepsIndex(db, p, outcome);
    MarkSettlesOne(db, p, outcome);
    hide IndexOk;
    assert Agrees(db.payments[p], orders[db.payments[p].order], db.copies[db.payments[p].order]);
  }

  /** Orders can settle order o with this outcome, or has done so. */
  predicate Resolves(orders: map<OrderId, Order>, o: OrderId, outcome: PaymentStatus) {
    && o in orders && outcome != Pending
    && (orders[o].status == AwaitingPayment || ExpectedOrderStatus(outcome) == Some(orders[o].status))
  }

  function Resolution(orders: map<OrderId, Order>, o: OrderId, outcome: PaymentStatus): map<OrderId, Order>
    requires Resolves(orders, o, outcome)
  {
    orders[o := orders[o].(status := ExpectedOrderStatus(outcome).value)]
  }

  /** The payment of order o, if there is one, has this outcome. */
  ghost predicate NoOtherOutcome(db: PaymentsDb, o: OrderId, outcome: PaymentStatus)
    requires IndexOk(db)
  {
    o in db.byOrder ==> db.payments[db.byOrder[o]].outcome == Some(outcome)
  }

  /** The order of a payment can be resolved with that payment's outcome, and then still agrees with it. */
  lemma {:induction false} ResolutionAgrees(orders: map<OrderId, Order>, db: PaymentsDb, o: OrderId,
      outcome: PaymentStatus)
    requires IndexOk(db) && Agreement(orders, db) && NoOtherOutcome(db, o, outcome)
    ensures o in db.byOrder ==> Resolves(orders, o, outcome)
    ensures Resolves(orders, o, outcome) ==> Agreement(Resolution(orders, o, outcome), db)
  {
    if o in db.byOrder {
      assert Agrees(db.payments[db.byOrder[o]], orders[o], db.copies[o]);
    }
  }
}
