/**
  The tables that the Payments service owns: its snapshot of each order and the
  payments with their settlement lease and write-once processor outcome.
 */
module PaymentStore {
  import opened Domain

  /** Payments' own copy of an order. */
  datatype OrderCopy = OrderCopy(user: UserId, price: int, status: OrderStatus)

  /** byOrder is the UNIQUE(order_id) index on payments. */
  datatype PaymentsDb = PaymentsDb(
    copies: map<OrderId, OrderCopy>,
    payments: map<PaymentId, Payment>,
    byOrder: map<OrderId, PaymentId>)

  /** The primary key and the unique index describe the same rows. */
  ghost predicate IndexOk(db: PaymentsDb) {
    && db.copies.Keys == db.byOrder.Keys
    && (forall p :: p in db.payments ==>
      db.payments[p].id == p && db.payments[p].order in db.byOrder && db.byOrder[db.payments[p].order] == p)
    && (forall o :: o in db.byOrder ==>
      db.byOrder[o] in db.payments && db.payments[db.byOrder[o]].order == o)
  }

  /** CHECK (mock_outcome IS NULL OR mock_outcome IN ('Succeeded', 'Failed')). */
  ghost predicate OutcomesTerminal(db: PaymentsDb) {
    forall p :: p in db.payments ==> db.payments[p].outcome != Some(Pending)
  }

  /**
    A payment, its order in Orders, and Payments' copy of that order agree: no outcome means
    that the order awaits payment, an outcome that it awaits payment or is settled
    accordingly, and a terminal payment that the order and its copy both are.
   */
  ghost predicate Agrees(payment: Payment, order: Order, copy: OrderCopy) {
    && copy.user == order.user
    && (match payment.outcome
        case None => payment.status == Pending && order.status == AwaitingPayment
        case Some(outcome) =>
          && outcome != Pending
          && (order.status == AwaitingPayment || ExpectedOrderStatus(outcome) == Some(order.status))
          && (payment.status == Pending || payment.status == outcome))
    && (payment.status == Pending ==> copy.status == AwaitingPayment)
    && (payment.status != Pending ==>
      order.status == copy.status && ExpectedOrderStatus(payment.status) == Some(order.status))
  }

  /** Insert-or-find of the order copy and the payment; id is the generated payment id. */
  function Create(db: PaymentsDb, id: PaymentId, o: OrderId, copy: OrderCopy): (PaymentsDb, Reply)
    requires IndexOk(db) && id !in db.payments
  {
    var copies := if o in db.copies then db.copies else db.copies[o := copy];
    if o in db.byOrder then
      (db.(copies := copies), PaymentStored(db.payments[db.byOrder[o]], false))
    else
      var payment := Payment(id, o, Pending, None, None);
      (PaymentsDb(copies, db.payments[id := payment], db.byOrder[o := id]), PaymentStored(payment, true))
  }

  function FindByOrderAndUser(db: PaymentsDb, o: OrderId, u: UserId): Option<Payment>
    requires IndexOk(db)
  {
    if o in db.byOrder && db.copies[o].user == u then Some(db.payments[db.byOrder[o]]) else None
  }

  predicate Claimable(payment: Payment, now: Time) {
    payment.status == Pending && (payment.lease == None || payment.lease.value <= now)
  }

  /** mock_outcome := COALESCE(mock_outcome, configured). */
  function Leased(payment: Payment, configured: PaymentStatus, until: Time): Payment {
    payment.(outcome := if payment.outcome.Some? then payment.outcome else Some(configured), lease := Some(until))
  }

  function Claim(db: PaymentsDb, p: PaymentId, configured: PaymentStatus, until: Time): PaymentsDb
    requires p in db.payments
  {
    db.(payments := db.payments[p := Leased(db.payments[p], configured, until)])
  }

  /** FOR UPDATE SKIP LOCKED ORDER BY id LIMIT 1: the lowest claimable id that no one else has locked. */
  ghost predicate NextPending(db: PaymentsDb, now: Time, locked: set<PaymentId>, p: PaymentId) {
    && p in db.payments && Claimable(db.payments[p], now) && p !in locked
    && forall q :: q in db.payments && Claimable(db.payments[q], now) && q !in locked ==> p <= q
  }

  ghost predicate NonePending(db: PaymentsDb, now: Time, locked: set<PaymentId>) {
    forall q :: q in db.payments && q !in locked ==> !Claimable(db.payments[q], now)
  }

  predicate Resolvable(db: PaymentsDb, p: PaymentId, outcome: PaymentStatus) {
    p in db.payments && db.payments[p].status == Pending && db.payments[p].outcome == Some(outcome)
  }

  /** MarkResolved; when the row does not match, the tables stay as they are (ErrPaymentNotPending). */
  function MarkResolved(db: PaymentsDb, p: PaymentId, outcome: PaymentStatus): PaymentsDb
    requires IndexOk(db)
  {
    if !Resolvable(db, p, outcome) || ExpectedOrderStatus(outcome) == None then db
    else
      var payment := db.payments[p].(status := outcome, lease := None);
      var o := payment.order;
      db.(payments := db.payments[p := payment],
          copies := db.copies[o := db.copies[o].(status := ExpectedOrderStatus(outcome).value)])
  }

  function PendingIds(db: PaymentsDb): set<PaymentId> {
    set p | p in db.payments && db.payments[p].status == Pending
  }

  lemma CreateKeepsIndex(db: PaymentsDb, id: PaymentId, o: OrderId, copy: OrderCopy)
    requires IndexOk(db) && id !in db.payments
    ensures IndexOk(Create(db, id, o, copy).0)
  {
  }

  lemma ClaimKeepsIndex(db: PaymentsDb, p: PaymentId, configured: PaymentStatus, until: Time)
    requires IndexOk(db) && p in db.payments
    ensures IndexOk(Claim(db, p, configured, until))
  {
  }

  lemma MarkKeepsIndex(db: PaymentsDb, p: PaymentId, outcome: PaymentStatus)
    requires IndexOk(db)
    ensures IndexOk(MarkResolved(db, p, outcome))
  {
  }
}
