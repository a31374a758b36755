/**
  The tables that the Orders service owns: orders and the projection of tickets.
  Operations that issue two statements (a conditional UPDATE and, when no row matched,
  a separate SELECT) are given statement by statement, together with the atomic
  version that each of them is meant to look like.
 */
module OrderStore {
  import opened Domain

  datatype OrdersDb = OrdersDb(orders: map<OrderId, Order>, projection: map<TicketId, Snapshot>)

  function SetStatus(db: OrdersDb, o: OrderId, s: OrderStatus): OrdersDb
    requires o in db.orders
  {
    db.(orders := db.orders[o := db.orders[o].(status := s)])
  }

  /* ---- ReserveTicket: lock, find, insert, commit ---- */

  /** Every order that is not Canceled blocks its ticket, overdue or not. */
  predicate Blocks(db: OrdersDb, t: TicketId, o: OrderId) {
    o in db.orders && db.orders[o].ticket == t && db.orders[o].status != Canceled
  }

  /** ORDER BY: Complete orders first, then the latest expiry. */
  predicate RanksBefore(a: Order, b: Order) {
    if a.status == Complete && b.status != Complete then true
    else if a.status != Complete && b.status == Complete then false
    else a.expiresAt >= b.expiresAt
  }

  /** What findBlockingOrder may return: a first blocking row, or none when nothing blocks. */
  ghost predicate FindsBlocking(db: OrdersDb, t: TicketId, found: Option<OrderId>) {
    match found
    case None => forall o :: o in db.orders ==> !Blocks(db, t, o)
    case Some(o) => Blocks(db, t, o) && forall p :: p in db.orders && Blocks(db, t, p) ==>
      RanksBefore(db.orders[o], db.orders[p])
  }

  /** The reply when a blocking order was found: join one's own open order, else refuse. */
  function BlockedReply(existing: Order, user: UserId): Reply {
    if existing.user == user && existing.status != Complete then Reserved(false, existing)
    else Rejected(TicketReserved)
  }

  function NewOrder(input: ReservationInput): Order {
    Order(input.order, input.expiresAt, input.user, input.ticket, Created)
  }

  /** ReserveTicket as one atomic step; no reply stands for the retried primary-key failure. */
  function ReserveTicket(db: OrdersDb, input: ReservationInput, found: Option<OrderId>): (OrdersDb, Option<Reply>)
    requires found.Some? ==> found.value in db.orders
  {
    if input.ticket !in db.projection then (db, Some(Rejected(TicketNotFound)))
    else if found.Some? then (db, Some(BlockedReply(db.orders[found.value], input.user)))
    else if input.order in db.orders then (db, None)
    else (db.(orders := db.orders[input.order := NewOrder(input)]), Some(Reserved(true, NewOrder(input))))
  }

  /**
    A reservation that is repeated after its order was inserted never inserts again. It is
    told of its own order, as not created, while that is open, and gets no answer, only the
    primary-key failure, exactly while nothing blocks the ticket: its order was canceled.
   */
  lemma {:induction false} ReservationRetryAnswersIff(db: OrdersDb, input: ReservationInput, found: Option<OrderId>)
    requires FindsBlocking(db, input.ticket, found) && input.ticket in db.projection
    requires input.order in db.orders
        && db.orders[input.order] == NewOrder(input).(status := db.orders[input.order].status)
    ensures ReserveTicket(db, input, found).0 == db
    ensures ReserveTicket(db, input, found).1 == None <==> forall p :: p in db.orders ==> !Blocks(db, input.ticket, p)
    ensures ReserveTicket(db, input, found).1 == None ==> db.orders[input.order].status == Canceled
    ensures db.orders[input.order].status in {Created, AwaitingPayment} ==>
      (forall p :: Blocks(db, input.ticket, p) ==> p == input.order) ==>
      ReserveTicket(db, input, found).1 == Some(Reserved(false, db.orders[input.order]))
  {
    assert db.orders[input.order].status != Canceled ==> Blocks(db, input.ticket, input.order);
  }

  /* ---- Two-statement operations ---- */

  predicate TwoStatement(activity: Activity) {
    activity.CancelOrder? || activity.ExpireOrder? || activity.StartOrderPayment?
    || activity.ResolvePayment? || activity.ProjectTicket?
  }

  predicate CancelMatches(db: OrdersDb, o: OrderId, u: UserId) {
    o in db.orders && db.orders[o].user == u && db.orders[o].status == Created
  }

  predicate ExpireMatches(db: OrdersDb, o: OrderId, now: Time) {
    o in db.orders && db.orders[o].status == Created && db.orders[o].expiresAt <= now
  }

  predicate StartMatches(db: OrdersDb, o: OrderId, u: UserId) {
    CancelMatches(db, o, u) && db.orders[o].ticket in db.projection
  }

  predicate ResolveMatches(db: OrdersDb, o: OrderId) {
    o in db.orders && db.orders[o].status == AwaitingPayment
  }

  /** First insert of any version, or exactly the next one. */
  predicate ProjectMatches(db: OrdersDb, s: Snapshot) {
    s.ticket in db.projection ==> db.projection[s.ticket].version == s.version - 1
  }

  predicate ValidProjection(s: Snapshot) {
    ValidTicketData(s.title, s.price) && s.version >= 1
  }

  /** First statement. A reply means that it decided the operation; none means that no row matched. */
  function Update(db: OrdersDb, now: Time, activity: Activity): (OrdersDb, Option<Reply>)
    requires TwoStatement(activity)
  {
    match activity
    case CancelOrder(o, u) =>
      if CancelMatches(db, o, u) then
        var db' := SetStatus(db, o, Canceled);
        (db', Some(CanceledOrder(db'.orders[o])))
      else (db, None)
    case ExpireOrder(o) =>
      if ExpireMatches(db, o, now) then
        var db' := SetStatus(db, o, Canceled);
        (db', Some(Expired(db'.orders[o], true)))
      else (db, None)
    case StartOrderPayment(o, u) =>
      if StartMatches(db, o, u) then
        (SetStatus(db, o, AwaitingPayment), Some(CheckoutStarted(o, u, db.projection[db.orders[o].ticket].price)))
      else (db, None)
    case ResolvePayment(o, outcome) =>
      if outcome == Pending then (db, Some(Rejected(OrderNotPayable)))
      else if ResolveMatches(db, o) then
        var db' := SetStatus(db, o, if outcome == Succeeded then Complete else Canceled);
        (db', Some(Resolved(db'.orders[o], outcome == Failed)))
      else (db, None)
    case ProjectTicket(s) =>
      if !ValidProjection(s) then (db, Some(Rejected(InvalidProjection)))
      else if ProjectMatches(db, s) then (db.(projection := db.projection[s.ticket := s]), Some(Projected))
      else (db, None)
  }

  /** Second statement, after the first matched no row. No reply means a transient error. */
  function ReadBack(db: OrdersDb, activity: Activity): Option<Reply>
    requires TwoStatement(activity)
  {
    match activity
    case CancelOrder(o, u) =>
      if o !in db.orders || db.orders[o].user != u then Some(Rejected(OrderNotFound))
      else if db.orders[o].status == Canceled then Some(CanceledOrder(db.orders[o]))
      else Some(Rejected(OrderNotCancelable))
    case ExpireOrder(o) =>
      if o !in db.orders then Some(Rejected(OrderNotFound))
      else Some(Expired(db.orders[o], db.orders[o].status == Canceled))
    case StartOrderPayment(o, u) =>
      if o !in db.orders || db.orders[o].user != u || db.orders[o].ticket !in db.projection then
        Some(Rejected(OrderNotFound))
      else if db.orders[o].status != AwaitingPayment then Some(Rejected(OrderNotPayable))
      else Some(CheckoutStarted(o, u, db.projection[db.orders[o].ticket].price))
    case ResolvePayment(o, outcome) =>
      if o !in db.orders then Some(Rejected(OrderNotFound))
      else if ExpectedOrderStatus(outcome) == Some(db.orders[o].status) then
        Some(Resolved(db.orders[o], outcome == Failed))
      else Some(Rejected(OrderNotPayable))
    case ProjectTicket(s) =>
      if s.ticket !in db.projection then None
      else
        var existing := db.projection[s.ticket];
        if existing.version == s.version && existing.title == s.title && existing.price == s.price then Some(Projected)
        else if existing.version < s.version then None
        else Some(Rejected(InvalidProjection))
  }

  /** Both statements at one instant. */
  function Atomic(db: OrdersDb, now: Time, activity: Activity): (OrdersDb, Option<Reply>)
    requires TwoStatement(activity)
  {
    var (db', reply) := Update(db, now, activity);
    if reply.Some? then (db', reply) else (db, ReadBack(db, activity))
  }

  /* ---- How the tables may evolve ---- */

  /** Orders keep everything but their status, which only moves forward; projections only advance. */
  ghost predicate Evolves(db: OrdersDb, db': OrdersDb) {
    && (forall o :: o in db.orders ==>
      && o in db'.orders
      && db'.orders[o] == db.orders[o].(status := db'.orders[o].status)
      && Reaches(db.orders[o].status, db'.orders[o].status))
    && (forall t :: t in db.projection ==>
      t in db'.projection && db.projection[t].version <= db'.projection[t].version)
  }

  /** The order a two-statement operation addresses, if it addresses one, exists. */
  ghost predicate Addresses(db: OrdersDb, activity: Activity)
    requires TwoStatement(activity)
  {
    match activity
    case CancelOrder(o, _) => o in db.orders
    case ExpireOrder(o) => o in db.orders
    case StartOrderPayment(o, _) => o in db.orders && db.orders[o].ticket in db.projection
    case ResolvePayment(o, _) => o in db.orders
    case ProjectTicket(_) => true
  }

  /**
    A two-statement operation whose UPDATE missed at one instant and whose SELECT ran at a
    later one returns what the atomic version returns, without changing anything, at one of
    those two instants.
   */
  lemma TwoStatementsLookAtomic(db: OrdersDb, now: Time, db': OrdersDb, now': Time, activity: Activity)
    requires TwoStatement(activity)
    requires Evolves(db, db') && Addresses(db, activity)
    requires Update(db, now, activity).1 == None
    ensures || Atomic(db, now, activity) == (db, ReadBack(db', activity))
            || Atomic(db', now', activity) == (db', ReadBack(db', activity))
  {
  }

  /** The missed UPDATE at db and the SELECT at db' look like the atomic operation at one of the two instants. */
  ghost predicate LooksAtomic(db: OrdersDb, now: Time, db': OrdersDb, now': Time, activity: Activity)
    requires TwoStatement(activity)
  {
    || Atomic(db, now, activity) == (db, ReadBack(db', activity))
    || Atomic(db', now', activity) == (db', ReadBack(db', activity))
  }

  /**
    Exactly when a missed UPDATE and a later SELECT look atomic, for all five operations: the
    row addressed was there at the UPDATE, or the UPDATE would have missed at the SELECT too.
   */
  lemma {:induction false} LooksAtomicIff(db: OrdersDb, now: Time, db': OrdersDb, now': Time, activity: Activity)
    requires TwoStatement(activity) && Evolves(db, db')
    requires Update(db, now, activity).1 == None
    ensures LooksAtomic(db, now, db', now', activity) <==>
        Addresses(db, activity) || Update(db', now', activity).1 == None
  {
    if Addresses(db, activity) {
      TwoStatementsLookAtomic(db, now, db', now', activity);
    } else if Update(db', now', activity).1.Some? {
      AppearsBetween(db, db', now', activity);
    }
  }

  /** A row that appears between the statements, open for the operation, is reported as if it were not. */
  lemma {:induction false} AppearsBetween(db: OrdersDb, db': OrdersDb, now': Time, activity: Activity)
    requires TwoStatement(activity) && !Addresses(db, activity) && !activity.ProjectTicket?
    requires activity.ResolvePayment? ==> activity.outcome != Pending
    requires Update(db', now', activity).1.Some?
    ensures ReadBack(db, activity) == Some(Rejected(OrderNotFound)) != ReadBack(db', activity)
    ensures Update(db', now', activity).0 != db'
  {
    var o := activity.order;
    assert Update(db', now', activity).0.orders[o].status != db'.orders[o].status;
  }

  /** Cancel reports an order that appeared, still Created, between its statements as not cancelable. */
  lemma CancelOfAbsentOrderIsNotAtomic(o: OrderId, u: UserId, s: Snapshot, now: Time)
    ensures var db := OrdersDb(map[], map[s.ticket := s]);
            var db' := OrdersDb(map[o := Order(o, now, u, s.ticket, Created)], map[s.ticket := s]);
            var activity := CancelOrder(o, u);
            && Evolves(db, db') && Update(db, now, activity).1 == None
            && ReadBack(db', activity) == Some(Rejected(OrderNotCancelable))
            && Atomic(db, now, activity).1 == Some(Rejected(OrderNotFound))
            && Atomic(db', now, activity).1 == Some(CanceledOrder(Order(o, now, u, s.ticket, Canceled)))
  {
  }

  /* ---- Checkout price replay ---- */

  /**
    A replayed StartPayment reads the projection again. It repeats the price of the first
    call exactly when the projected price did not change in between.
   */
  lemma CheckoutReplayRepeatsPriceIff(db: OrdersDb, db': OrdersDb, now: Time, o: OrderId, u: UserId)
    requires StartMatches(db, o, u)
    requires Evolves(Update(db, now, StartOrderPayment(o, u)).0, db')
    requires db'.orders[o].status == AwaitingPayment
    ensures var first := Update(db, now, StartOrderPayment(o, u)).1;
            var replay := Atomic(db', now, StartOrderPayment(o, u));
            && replay.0 == db' && replay.1.Some? && replay.1.value.CheckoutStarted?
            && (replay.1 == first <==>
                db'.projection[db.orders[o].ticket].price == db.projection[db.orders[o].ticket].price)
  {
  }

  /** A concrete replay that returns another price: one projected edit between the two calls. */
  lemma CheckoutReplayCanChangePrice()
    ensures var order := Order(1, 900, "buyer", 7, Created);
            var db := OrdersDb(map[1 := order], map[7 := Snapshot(7, "Concert", 100, 1)]);
            var started := Update(db, 0, StartOrderPayment(1, "buyer"));
            var edited := Update(started.0, 0, ProjectTicket(Snapshot(7, "Concert", 120, 2)));
            && started.1 == Some(CheckoutStarted(1, "buyer", 100))
            && Atomic(edited.0, 0, StartOrderPayment(1, "buyer")).1 == Some(CheckoutStarted(1, "buyer", 120))
  {
    assert !IsSpace("Concert"[0]);
    assert ValidTicketData("Concert", 120);
  }

  /* ---- The query behind findBlockingOrder always has an answer ---- */

  lemma {:induction false} FirstOf(db: OrdersDb, candidates: set<OrderId>) returns (o: OrderId)
    requires candidates != {} && candidates <= db.orders.Keys
    ensures o in candidates && forall p :: p in candidates ==> RanksBefore(db.orders[o], db.orders[p])
    decreases candidates
  {
    var some :| some in candidates;
    o := some;
    if candidates != {some} {
      var first := FirstOf(db, candidates - {some});
      o := if RanksBefore(db.orders[some], db.orders[first]) then some else first;
      forall p | p in candidates
        ensures RanksBefore(db.orders[o], db.orders[p])
      {
        if p != some {
          assert p in candidates - {some};
          assert RanksBefore(db.orders[first], db.orders[p]);
        }
      }
    }
  }

  lemma BlockingQueryAnswers(db: OrdersDb, t: TicketId) returns (found: Option<OrderId>)
    ensures FindsBlocking(db, t, found)
  {
    var candidates := set o | o in db.orders && Blocks(db, t, o);
    if candidates == {} {
      found := None;
      forall o | o in db.orders
        ensures !Blocks(db, t, o)
      {
        assert o !in candidates;
      }
    } else {
      var o := FirstOf(db, candidates);
      found := Some(o);
      forall p | p in db.orders && Blocks(db, t, p)
        ensures RanksBefore(db.orders[o], db.orders[p])
      {
        assert p in candidates;
      }
    }
  }
}
