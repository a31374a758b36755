/**
  The deadline of a new order: once its creation has reported success, its expiry workflow
  runs until the order is no longer Created, whatever is repeated, lost or late.
 */
module Expiry {
  import opened Domain
  import opened TicketStore
  import opened OrderStore
  import opened Saga
  import opened Evolution
  import opened Invariant
  import opened Preservation
  import opened Frames
  import opened Theorems

  ghost predicate NotCreated(w: World, o: OrderId) {
    o in w.orders.orders && w.orders.orders[o].status != Created
  }

  /** Expiry is only scheduled for overdue orders; once an attempt got past its UPDATE, the order is not Created. */
  ghost predicate ExpiryTaskOk(w: World, i: nat)
    requires i < |w.tasks|
  {
    w.tasks[i].activity.ExpireOrder? ==>
      && w.tasks[i].activity.order in w.orders.orders
      && w.orders.orders[w.tasks[i].activity.order].expiresAt <= w.now
      && (w.tasks[i].missed || w.tasks[i].replies != {} ==> NotCreated(w, w.tasks[i].activity.order))
  }

  /** The expiry workflow starts when creation completes, sleeps until the deadline, and ends with the order settled. */
  ghost predicate ExpiryFlowOk(w: World, o: OrderId) {
    var create, expire := CreateOrderFlow(o), ExpireOrderFlow(o);
    && (expire in w.flows ==> create in w.flows && w.flows[create].Completed?)
    && (expire in w.flows && w.flows[expire].Sleeping? ==>
         o in w.orders.orders && w.flows[expire].until == w.orders.orders[o].expiresAt)
    && (expire in w.flows && w.flows[expire].Closed() ==> NotCreated(w, o))
    && (create in w.flows && w.flows[create].Completed? && w.flows[create].result.Reserved?
        && w.flows[create].result.created ==>
         expire in w.flows)
  }

  ghost predicate TasksMeetDeadlines(w: World) {
    forall i :: 0 <= i < |w.tasks| ==> ExpiryTaskOk(w, i)
  }

  ghost predicate FlowsMeetDeadlines(w: World) {
    forall o :: ExpiryFlowOk(w, o)
  }

  lemma {:induction false} NotCreatedStays(w: World, w': World, o: OrderId)
    requires Evolves(w.orders, w'.orders) && NotCreated(w, o)
    ensures NotCreated(w', o)
  {
  }

  lemma {:induction false} ExpiryAttempted(w: World, i: nat, w': World)
    requires StepAttempt(w, i, w') && i < |w.tasks| && w.tasks[i].activity.ExpireOrder? && ExpiryTaskOk(w, i)
    ensures NotCreated(w', w.tasks[i].activity.order)
  {
  }

  lemma {:induction false} TaskStaysTimely(w: World, a: Action, w': World, i: nat)
    requires Step(w, a, w') && i < |w.tasks| <= |w'.tasks| && ExpiryTaskOk(w, i)
    requires Evolves(w.orders, w'.orders) && w.now <= w'.now && w'.tasks[i].activity == w.tasks[i].activity
    ensures ExpiryTaskOk(w', i)
  {
    hide Step, Evolves, NotCreated, StepAttempt, StepReadBack;
    if w.tasks[i].activity.ExpireOrder? {
      var o := w.tasks[i].activity.order;
      DeadlineStays(w.orders, w'.orders, o);
      if NotCreated(w, o) {
        NotCreatedStays(w, w', o);
      } else if AttemptLike(a) {
        AttemptShape(w, a, w');
        if a == Attempt(i) {
          StepIs(w, a, w');
          ExpiryAttempted(w, i, w');
        } else if a == AttemptReadBack(i) {
          ReadBackMissed(w, i, w');
        } else if Attempted(w, a) == Some(i) {
          OtherAttempts(w, a, w', i);
        }
      } else {
        MoveRests(w, a, w');
      }
    }
  }

  lemma DeadlineStays(db: OrdersDb, db': OrdersDb, o: OrderId)
    requires Evolves(db, db') && o in db.orders
    ensures o in db'.orders && db'.orders[o].expiresAt == db.orders[o].expiresAt
  {
  }

  lemma ReadBackMissed(w: World, i: nat, w': World)
    requires Step(w, AttemptReadBack(i), w') && i < |w.tasks|
    ensures w.tasks[i].missed
  {
  }

  /** Only the timer schedules an expiry. */
  lemma {:induction false} NewExpiry(w: World, a: Action, w': World, i: nat)
    requires Step(w, a, w') && |w.tasks| <= i < |w'.tasks| && w'.tasks[i].activity.ExpireOrder?
    ensures a.FireTimer? && StepFireTimer(w, a.order, w') && a.order == w'.tasks[i].activity.order
  {
    hide Step, StepFireTimer, HasReply;
    if AttemptLike(a) {
      AttemptShape(w, a, w');
    } else if a.Deliver? {
      StepIs(w, a, w');
      DeliverSchedules(w, a.flow, a.reply, w', i);
    } else {
      StartSchedules(w, a, w', i);
      TimerIs(w, a, w');
    }
  }

  lemma TimerIs(w: World, a: Action, w': World)
    requires Step(w, a, w') && a.FireTimer?
    ensures StepFireTimer(w, a.order, w')
  {
    hide StepFireTimer;
  }

  lemma {:induction false} NewTaskTimely(w: World, a: Action, w': World, i: nat)
    requires Step(w, a, w') && |w.tasks| <= i < |w'.tasks| && FlowsMeetDeadlines(w)
    ensures ExpiryTaskOk(w', i)
  {
    hide Step;
    if w'.tasks[i].activity.ExpireOrder? {
      NewExpiry(w, a, w', i);
      assert ExpiryFlowOk(w, a.order);
    }
  }

  lemma {:induction false} TasksStayTimely(w: World, a: Action, w': World)
    requires Step(w, a, w') && Later(w, w') && TasksMeetDeadlines(w) && FlowsMeetDeadlines(w)
    ensures TasksMeetDeadlines(w')
  {
    hide Step, RowsEvolve, LedgerGrows, HistoryGrows, PaymentsEvolve, CheckoutsEvolve, Evolves, ExpiryTaskOk,
         FlowsMeetDeadlines;
    forall i | 0 <= i < |w'.tasks|
      ensures ExpiryTaskOk(w', i)
    {
      if i < |w.tasks| { TaskStaysTimely(w, a, w', i); } else { NewTaskTimely(w, a, w', i); }
    }
  }

  /* ---- Workflows ---- */

  lemma {:induction false} SameFlowsTimely(w: World, w': World, o: OrderId)
    requires ExpiryFlowOk(w, o) && Evolves(w.orders, w'.orders)
    requires CreateOrderFlow(o) in w.flows <==> CreateOrderFlow(o) in w'.flows
    requires ExpireOrderFlow(o) in w.flows <==> ExpireOrderFlow(o) in w'.flows
    requires CreateOrderFlow(o) in w.flows ==> w'.flows[CreateOrderFlow(o)] == w.flows[CreateOrderFlow(o)]
    requires ExpireOrderFlow(o) in w.flows ==> w'.flows[ExpireOrderFlow(o)] == w.flows[ExpireOrderFlow(o)]
    ensures ExpiryFlowOk(w', o)
  {
  }

  lemma {:induction false} CreateDelivered(w: World, reply: Reply, w': World, o: OrderId)
    requires StepDeliver(w, CreateOrderFlow(o), reply, w') && FlowOk(w, CreateOrderFlow(o), w.flows[CreateOrderFlow(o)])
    requires ReplyOk(w, w.tasks[w.flows[CreateOrderFlow(o)].task].activity, reply)
    requires ExpiryFlowOk(w, o)
    ensures ExpiryFlowOk(w', o)
  {
  }

  lemma {:induction false} ExpiryDelivered(w: World, reply: Reply, w': World, o: OrderId)
    requires StepDeliver(w, ExpireOrderFlow(o), reply, w') && FlowOk(w, ExpireOrderFlow(o), w.flows[ExpireOrderFlow(o)])
    requires TaskOk(w, w.tasks[w.flows[ExpireOrderFlow(o)].task].activity)
        && ExpiryTaskOk(w, w.flows[ExpireOrderFlow(o)].task)
    requires ExpiryFlowOk(w, o)
    ensures ExpiryFlowOk(w', o)
  {
  }

  lemma {:induction false} OtherDelivered(w: World, f: FlowId, reply: Reply, w': World, o: OrderId)
    requires StepDeliver(w, f, reply, w') && f != CreateOrderFlow(o) && f != ExpireOrderFlow(o) && ExpiryFlowOk(w, o)
    ensures ExpiryFlowOk(w', o)
  {
    hide Advance;
  }

  lemma {:induction false} DeliverTimely(w: World, f: FlowId, reply: Reply, w': World, o: OrderId)
    requires Inv(w) && TasksMeetDeadlines(w) && StepDeliver(w, f, reply, w') && ExpiryFlowOk(w, o)
    ensures ExpiryFlowOk(w', o)
  {
    DeliveryFacts(w, f, reply, w');
    assert ExpiryTaskOk(w, w.flows[f].task);
    hide Inv, TasksMeetDeadlines, StepDeliver, ExpiryFlowOk, ExpiryTaskOk, FlowOk, ReplyOk, TaskOk;
    if f == CreateOrderFlow(o) {
      CreateDelivered(w, reply, w', o);
    } else if f == ExpireOrderFlow(o) {
      ExpiryDelivered(w, reply, w', o);
    } else {
      OtherDelivered(w, f, reply, w', o);
    }
  }

  lemma {:induction false} ChildTimely(w: World, o: OrderId, w': World, p: OrderId)
    requires Inv(w) && StepStartExpiryChild(w, o, w') && ExpiryFlowOk(w, p) && ExpiryFlowOk(w, o)
    ensures ExpiryFlowOk(w', p)
  {
    hide Inv;
    ChildIsOwn(w, o);
  }

  /** The child that a creating workflow starts watches the order that it inserted. */
  lemma {:induction false} ChildIsOwn(w: World, o: OrderId)
    requires Inv(w) && CreateOrderFlow(o) in w.flows && w.flows[CreateOrderFlow(o)].StartingExpiry?
    ensures var result := w.flows[CreateOrderFlow(o)].result;
            && result.Reserved? && result.created && result.order.id == o
            && o in w.orders.orders && w.orders.orders[o].expiresAt == result.order.expiresAt
  {
    assert FlowOk(w, CreateOrderFlow(o), w.flows[CreateOrderFlow(o)]);
  }

  lemma {:induction false} StartsTimely(w: World, a: Action, w': World, o: OrderId)
    requires Step(w, a, w') && !AttemptLike(a) && !a.Deliver? && !a.StartExpiryChild? && ExpiryFlowOk(w, o)
    ensures ExpiryFlowOk(w', o)
  {
    if a.DeliverEdit? {
      hide Step, StepDeliverEdit, ExpiryFlowOk;
      StepIs(w, a, w');
      EditsTimely(w, a.ticket, a.reply, w', o);
    } else {
      hide KeyOf, RunOf;
    }
  }

  lemma EditsTimely(w: World, t: TicketId, reply: Reply, w': World, o: OrderId)
    requires StepDeliverEdit(w, t, reply, w') && ExpiryFlowOk(w, o)
    ensures ExpiryFlowOk(w', o)
  {
  }

  lemma {:induction false} FlowStaysTimely(w: World, a: Action, w': World, o: OrderId)
    requires Inv(w) && TasksMeetDeadlines(w) && FlowsMeetDeadlines(w) && Step(w, a, w') && Evolves(w.orders, w'.orders)
    ensures ExpiryFlowOk(w', o)
  {
    assert ExpiryFlowOk(w, o);
    hide Inv, TasksMeetDeadlines, Evolves, ExpiryFlowOk, StepDeliver, StepStartExpiryChild;
    if AttemptLike(a) {
      AttemptShape(w, a, w');
      hide Step;
      SameFlowsTimely(w, w', o);
    } else if a.Deliver? {
      DeliverTimely(w, a.flow, a.reply, w', o);
    } else if a.StartExpiryChild? {
      assert ExpiryFlowOk(w, a.order);
      ChildTimely(w, a.order, w', o);
    } else {
      hide Step;
      StartsTimely(w, a, w', o);
    }
  }

  lemma {:induction false} FlowsStayTimely(w: World, a: Action, w': World)
    requires Inv(w) && TasksMeetDeadlines(w) && FlowsMeetDeadlines(w) && Step(w, a, w') && Evolves(w.orders, w'.orders)
    ensures FlowsMeetDeadlines(w')
  {
    forall o: OrderId
      ensures ExpiryFlowOk(w', o)
    {
      hide *;
      FlowStaysTimely(w, a, w', o);
    }
  }

  lemma InitTimely(w: World)
    requires Init(w)
    ensures TasksMeetDeadlines(w) && FlowsMeetDeadlines(w)
  {
  }

  lemma {:induction false} TimelyReachable(ws: seq<World>, acts: seq<Action>, i: nat)
    requires Run(ws, acts) && i < |ws|
    ensures TasksMeetDeadlines(ws[i]) && FlowsMeetDeadlines(ws[i]) && Inv(ws[i])
  {
    hide Inv, Step, TasksMeetDeadlines, FlowsMeetDeadlines, RowsEvolve, LedgerGrows, HistoryGrows, PaymentsEvolve,
         CheckoutsEvolve, Evolves;
    Reachable(ws, acts, i);
    if i == 0 {
      InitTimely(ws[0]);
    } else {
      TimelyReachable(ws, acts, i - 1);
      RunsForward(ws, acts, i - 1, i);
      assert Step(ws[i - 1], acts[i - 1], ws[i]);
      TasksStayTimely(ws[i - 1], acts[i - 1], ws[i]);
      FlowsStayTimely(ws[i - 1], acts[i - 1], ws[i]);
    }
  }

  /**
    Every order whose creation reported Created = true is watched: from then on its expiry
    workflow exists, and when that has ended the order is no longer Created.
   */
  lemma {:induction false} DeadlineIsKept(ws: seq<World>, acts: seq<Action>, i: nat, o: OrderId)
    requires Run(ws, acts) && i < |ws|
    requires CreateOrderFlow(o) in ws[i].flows && ws[i].flows[CreateOrderFlow(o)].Completed?
    requires ws[i].flows[CreateOrderFlow(o)].result.Reserved? && ws[i].flows[CreateOrderFlow(o)].result.created
    ensures ExpireOrderFlow(o) in ws[i].flows
    ensures ws[i].flows[ExpireOrderFlow(o)].Closed() ==> NotCreated(ws[i], o)
  {
    hide Inv, Run, TasksMeetDeadlines, NotCreated;
    TimelyReachable(ws, acts, i);
    assert ExpiryFlowOk(ws[i], o);
  }

  /** The expiry child of an order is started at most once, so its workflow ID is always free when creation needs it. */
  lemma {:induction false} ExpiryStartsOnce(ws: seq<World>, acts: seq<Action>, i: nat, o: OrderId)
    requires Run(ws, acts) && i < |ws|
    requires CreateOrderFlow(o) in ws[i].flows && ws[i].flows[CreateOrderFlow(o)].StartingExpiry?
    ensures ExpireOrderFlow(o) !in ws[i].flows
    ensures ws[i].flows[CreateOrderFlow(o)].result.Reserved? && ws[i].flows[CreateOrderFlow(o)].result.order.id == o
  {
    TimelyReachable(ws, acts, i);
    assert ExpiryFlowOk(ws[i], o);
    ChildIsOwn(ws[i], o);
  }

  /** No order is ever expired before its deadline. */
  lemma {:induction false} NoEarlyExpiry(ws: seq<World>, acts: seq<Action>, n: nat, o: OrderId)
    requires Run(ws, acts) && n < |acts| && o in ws[n].orders.orders && ws[n].orders.orders[o].status == Created
    requires o in ws[n + 1].orders.orders && ws[n + 1].orders.orders[o].status == Canceled
    requires acts[n].Attempt? && acts[n].task < |ws[n].tasks| && ws[n].tasks[acts[n].task].activity.ExpireOrder?
    ensures ws[n].orders.orders[o].expiresAt <= ws[n].now
  {
    assert Step(ws[n], acts[n], ws[n + 1]);
    hide Step;
    OrdersFrame(ws[n], acts[n], ws[n + 1]);
  }

  /* ---- The order as it was requested ---- */

  /** Every reservation belongs to the creating workflow of its order. */
  ghost predicate ReservationsOwned(w: World) {
    forall i :: 0 <= i < |w.tasks| && w.tasks[i].activity.ReserveOrder? ==>
      CreateOrderFlow(w.tasks[i].activity.reservation.order) in w.flows
  }

  /** The only reservation of this order ID is this request, and so is the order, but for its status. */
  ghost predicate AsRequested(w: World, input: ReservationInput) {
    && CreateOrderFlow(input.order) in w.flows
    && (forall i :: 0 <= i < |w.tasks| && w.tasks[i].activity.ReserveOrder? ==>
         w.tasks[i].activity.reservation.order == input.order ==>
         w.tasks[i].activity.reservation == input)
    && (input.order in w.orders.orders ==>
         w.orders.orders[input.order] == NewOrder(input).(status := w.orders.orders[input.order].status))
  }

  /** Only a request schedules a reservation, and its workflow ID was never used. */
  lemma {:induction false} NewReservation(w: World, a: Action, w': World, i: nat)
    requires Step(w, a, w') && |w.tasks| <= i < |w'.tasks| && w'.tasks[i].activity.ReserveOrder?
    ensures a == StartCreateOrder(w'.tasks[i].activity.reservation)
    ensures CreateOrderFlow(a.input.order) !in w.flows && CreateOrderFlow(a.input.order) in w'.flows
  {
    hide Step, HasReply;
    if AttemptLike(a) {
      AttemptShape(w, a, w');
    } else if a.Deliver? {
      StepIs(w, a, w');
      DeliverSchedules(w, a.flow, a.reply, w', i);
    } else {
      StartSchedules(w, a, w', i);
      RequestIsNew(w, a, w');
    }
  }

  lemma {:induction false} RequestIsNew(w: World, a: Action, w': World)
    requires Step(w, a, w') && a.StartCreateOrder?
    ensures CreateOrderFlow(a.input.order) !in w.flows && CreateOrderFlow(a.input.order) in w'.flows
    ensures a.input.order !in w.orders.orders && w'.orders == w.orders
    ensures a.input.expiresAt == w.now + EXPIRATION_WINDOW
  {
  }

  lemma {:induction false} ReservationsStayOwned(w: World, a: Action, w': World)
    requires Step(w, a, w') && TasksEvolve(w, w') && ReservationsOwned(w)
    ensures ReservationsOwned(w')
  {
    hide Step;
    FlowsStay(w, a, w');
    forall i | |w.tasks| <= i < |w'.tasks| && w'.tasks[i].activity.ReserveOrder?
      ensures CreateOrderFlow(w'.tasks[i].activity.reservation.order) in w'.flows
    {
      NewReservation(w, a, w', i);
    }
  }

  /** New orders are inserted as some reservation asked for them. */
  lemma {:induction false} NewOrderAsked(w: World, a: Action, w': World, o: OrderId)
    requires Step(w, a, w') && o !in w.orders.orders && o in w'.orders.orders
    ensures exists i :: 0 <= i < |w.tasks| && w.tasks[i].activity.ReserveOrder?
              && w.tasks[i].activity.reservation.order == o
              && w'.orders.orders[o] == NewOrder(w.tasks[i].activity.reservation)
  {
    hide Step, Update;
    OrdersFrame(w, a, w');
    if a.Attempt? && TwoStatement(w.tasks[a.task].activity) {
      UpdateKeepsOrders(w.orders, w.now, w.tasks[a.task].activity);
    } else {
      assert w.tasks[w.locks[a.ticket].task].activity.reservation.order == o;
    }
  }

  lemma UpdateKeepsOrders(db: OrdersDb, now: Time, activity: Activity)
    requires TwoStatement(activity)
    ensures Update(db, now, activity).0.orders.Keys == db.orders.Keys
  {
  }

  lemma {:induction false} StaysAsRequested(w: World, a: Action, w': World, input: ReservationInput)
    requires Step(w, a, w') && Evolves(w.orders, w'.orders) && TasksEvolve(w, w') && AsRequested(w, input)
    ensures AsRequested(w', input)
  {
    hide Step;
    FlowsStay(w, a, w');
    forall i | |w.tasks| <= i < |w'.tasks| && w'.tasks[i].activity.ReserveOrder?
      ensures w'.tasks[i].activity.reservation.order != input.order
    {
      NewReservation(w, a, w', i);
    }
    if input.order in w'.orders.orders && input.order !in w.orders.orders {
      NewOrderAsked(w, a, w', input.order);
    }
  }

  lemma {:induction false} RequestTaken(w: World, a: Action, w': World)
    requires Step(w, a, w') && a.StartCreateOrder? && ReservationsOwned(w) && TasksEvolve(w, w')
    ensures AsRequested(w', a.input)
  {
    hide Step;
    RequestIsNew(w, a, w');
    forall i | |w.tasks| <= i < |w'.tasks| && w'.tasks[i].activity.ReserveOrder?
      ensures w'.tasks[i].activity.reservation == a.input
    {
      NewReservation(w, a, w', i);
    }
  }

  lemma {:induction false} OwnedReachable(ws: seq<World>, acts: seq<Action>, i: nat)
    requires Run(ws, acts) && i < |ws|
    ensures ReservationsOwned(ws[i])
  {
    hide Inv, Step, Evolves, RowsEvolve, LedgerGrows, HistoryGrows, PaymentsEvolve, CheckoutsEvolve, TasksEvolve;
    if i > 0 {
      OwnedReachable(ws, acts, i - 1);
      RunsForward(ws, acts, i - 1, i);
      assert Step(ws[i - 1], acts[i - 1], ws[i]);
      ReservationsStayOwned(ws[i - 1], acts[i - 1], ws[i]);
    }
  }

  /**
    From the request on, an order under its ID is the requested one in everything but its
    status: for that ticket and user, with a deadline 15 minutes after the request.
   */
  lemma {:induction false} OrderAsRequested(ws: seq<World>, acts: seq<Action>, n: nat, j: nat)
    requires Run(ws, acts) && n < j < |ws| && acts[n].StartCreateOrder?
    ensures AsRequested(ws[j], acts[n].input)
    ensures acts[n].input.expiresAt == ws[n].now + 15 * 60
    decreases j
  {
    hide Inv, Step, AsRequested, ReservationsOwned, Evolves, RowsEvolve, LedgerGrows, HistoryGrows, PaymentsEvolve,
         CheckoutsEvolve, TasksEvolve;
    RunsForward(ws, acts, j - 1, j);
    assert Step(ws[j - 1], acts[j - 1], ws[j]) && Step(ws[n], acts[n], ws[n + 1]);
    RequestIsNew(ws[n], acts[n], ws[n + 1]);
    if j == n + 1 {
      OwnedReachable(ws, acts, n);
      RequestTaken(ws[n], acts[n], ws[n + 1]);
    } else {
      OrderAsRequested(ws, acts, n, j - 1);
      StaysAsRequested(ws[j - 1], acts[j - 1], ws[j], acts[n].input);
    }
  }

  /** No expiry cancels an order before 15 minutes have passed since its request. */
  lemma {:induction false} FullWindow(ws: seq<World>, acts: seq<Action>, n: nat, m: nat)
    requires Run(ws, acts) && n < m < |acts| && acts[n].StartCreateOrder?
    requires acts[n].input.order in ws[m].orders.orders && acts[n].input.order in ws[m + 1].orders.orders
    requires ws[m].orders.orders[acts[n].input.order].status == Created
    requires ws[m + 1].orders.orders[acts[n].input.order].status == Canceled
    requires acts[m].Attempt? && acts[m].task < |ws[m].tasks| && ws[m].tasks[acts[m].task].activity.ExpireOrder?
    ensures ws[n].now + 15 * 60 <= ws[m].now
  {
    hide Step;
    OrderAsRequested(ws, acts, n, m);
    NoEarlyExpiry(ws, acts, m, acts[n].input.order);
  }

  /**
    The two clocks must agree: a workflow that looks at a Created order ends its watch
    without effect exactly when the database thinks that the deadline has not come.
   */
  lemma {:induction false} EarlyLookEndsWatch(db: OrdersDb, now: Time, o: OrderId)
    requires o in db.orders && db.orders[o].status == Created
    ensures var (db', reply) := Atomic(db, now, ExpireOrder(o));
            && reply.Some?
            && (Advance(None, reply.value).Finish? && db' == db <==> now < db.orders[o].expiresAt)
            && (db'.orders[o].status == Canceled && Advance(None, reply.value).Do? <==> db.orders[o].expiresAt <= now)
  {
  }
}
