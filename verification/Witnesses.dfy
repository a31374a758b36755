/**
  The states that the code's exceptions start from are real: concrete runs lead to them from
  the empty system. One ticket is put on sale, and one buyer reserves it.
 */
module Witnesses {
  import opened Domain
  import opened TicketStore
  import opened OrderStore
  import opened Saga
  import opened Evolution
  import opened Frames
  import opened Theorems
  import opened Retry
  import opened NoLeak
  import opened Lag
  import opened Paths
  import Progress
  import PaymentStore

  const LISTING := TicketInput(7, "Concert", 100, "seller")
  const SALE := Snapshot(7, "Concert", 100, 1)
  const SELLING := CreateTicketFlow(Keyed("seller", "listing"))
  const BOOKING := ReservationInput(1, 7, "buyer", 900)
  const BUYING := CreateOrderFlow(1)
  const CANCELING := CancelOrderFlow(1)

  function Booked(status: OrderStatus): Order {
    Order(1, 900, "buyer", 7, status)
  }

  function Waits(owner: FlowId, activity: Activity): Task {
    Task(owner, activity, {}, None, false, false)
  }

  function Answered(owner: FlowId, activity: Activity, reply: Reply): Task {
    Task(owner, activity, {reply}, Some(reply), false, false)
  }

  function Done(owner: FlowId, activity: Activity, reply: Reply): Task {
    Task(owner, activity, {reply}, Some(reply), false, true)
  }

  /** The ticket is not there yet. */
  function Before(tasks: seq<Task>, updates: map<TicketId, UpdateRun>): World {
    Empty().(tasks := tasks, updates := updates)
  }

  /** The ticket is on sale, unedited, with the given claim and the given order of it. */
  function Scene(claim: Option<OrderId>, order: Option<OrderStatus>, tasks: seq<Task>,
                 flows: map<FlowId, Flow>, updates: map<TicketId, UpdateRun>): World
  {
    World(0, TicketsDb(map[7 := Row("Concert", 100, "seller", 1, claim)], map[]),
          OrdersDb(if order.Some? then map[1 := Booked(order.value)] else map[], map[7 := SALE]),
          PaymentStore.PaymentsDb(map[], map[], map[]), map[], tasks, flows, updates, {}, {}, map[7 := [SALE]])
  }

  lemma SaleIsValid()
    ensures ValidTicketData("Concert", 100)
  {
    assert !IsSpace("Concert"[0]);
  }

  lemma Last(s: seq<Task>, x: Task, y: Task)
    ensures (s + [x])[|s|] == x && (s + [x])[|s| := y] == s + [y]
  {
  }

  lemma Second(s: seq<Task>, x: Task, y: Task, z: Task)
    ensures (s + [x, y])[|s| + 1] == y && (s + [x, y])[|s| + 1 := z] == s + [x, z] && s + [x] + [y] == s + [x, y]
  {
  }

  lemma FirstAnswer(w: World, i: nat, owner: FlowId, activity: Activity, reply: Reply)
    requires i < |w.tasks| && w.tasks[i] == Waits(owner, activity)
    ensures Answer(w, i, reply).tasks == w.tasks[i := Answered(owner, activity, reply)]
  {
    assert {} + {reply} == {reply};
  }

  /* ---- Creation of the ticket ---- */

  const LISTED := Done(SELLING, PersistTicket(LISTING), TicketStored(SALE))
  const SHOWN := Done(SELLING, ProjectTicket(SALE), Projected)
  const SOLD := Completed(TicketStored(SALE))

  /** The ticket is created and projected. */
  lemma {:induction false} Lists(w0: World, tasks: seq<Task>, updates: map<TicketId, UpdateRun>)
    requires Leads(w0, Before(tasks, updates)) && forall i :: 0 <= i < |tasks| ==> !tasks[i].activity.PersistTicket?
    ensures Leads(w0, Scene(None, None, tasks + [LISTED, SHOWN], map[SELLING := SOLD], updates))
  {
    hide Leads;
    var w := Stores(w0, tasks, updates);
    Shows(w0, tasks, updates, w);
  }

  lemma {:induction false} Stores(w0: World, tasks: seq<Task>, updates: map<TicketId, UpdateRun>) returns (w: World)
    requires Leads(w0, Before(tasks, updates)) && forall i :: 0 <= i < |tasks| ==> !tasks[i].activity.PersistTicket?
    ensures w == Scene(None, None, tasks + [LISTED, Waits(SELLING, ProjectTicket(SALE))],
                       map[SELLING := Waiting(|tasks| + 1, Some(TicketStored(SALE)))], updates)
                   .(orders := OrdersDb(map[], map[]))
    ensures Leads(w0, w)
  {
    hide Leads, ValidTicketData;
    SaleIsValid();
    TicketStarts(w0, Before(tasks, updates), Keyed("seller", "listing"), LISTING);
    var w1 := Before(tasks + [Waits(SELLING, PersistTicket(LISTING))],
        updates).(flows := map[SELLING := Waiting(|tasks|, None)]);
    assert w1 == Schedule(Before(tasks, updates), SELLING, PersistTicket(LISTING), None);
    Attempts(w0, w1, |tasks|);
    FirstAnswer(w1, |tasks|, SELLING, PersistTicket(LISTING), TicketStored(SALE));
    var w2 := AfterAttempt(w1, |tasks|);
    Delivers(w0, w2, SELLING, |tasks|, TicketStored(SALE));
    w := AfterDelivery(w2, SELLING, TicketStored(SALE));
    var answered := Answered(SELLING, PersistTicket(LISTING), TicketStored(SALE));
    Last(tasks, Waits(SELLING, PersistTicket(LISTING)), answered);
    Last(tasks, answered, LISTED);
    Second(tasks, LISTED, Waits(SELLING, ProjectTicket(SALE)), SHOWN);
    assert w.tasks == tasks + [LISTED, Waits(SELLING, ProjectTicket(SALE))];
  }

  lemma {:induction false} Shows(w0: World, tasks: seq<Task>, updates: map<TicketId, UpdateRun>, w: World)
    requires Leads(w0, w)
    requires w == Scene(None, None, tasks + [LISTED, Waits(SELLING, ProjectTicket(SALE))],
                        map[SELLING := Waiting(|tasks| + 1, Some(TicketStored(SALE)))], updates)
                    .(orders := OrdersDb(map[], map[]))
    ensures Leads(w0, Scene(None, None, tasks + [LISTED, SHOWN], map[SELLING := SOLD], updates))
  {
    hide Leads, ValidTicketData;
    SaleIsValid();
    Updates(w0, w, |tasks| + 1);
    FirstAnswer(w, |tasks| + 1, SELLING, ProjectTicket(SALE), Projected);
    var w1 := AfterUpdate(w, |tasks| + 1);
    Delivers(w0, w1, SELLING, |tasks| + 1, Projected);
    var w2 := AfterDelivery(w1, SELLING, Projected);
    var answered := Answered(SELLING, ProjectTicket(SALE), Projected);
    Second(tasks, LISTED, Waits(SELLING, ProjectTicket(SALE)), answered);
    Second(tasks, LISTED, answered, SHOWN);
    assert w2.tasks == tasks + [LISTED, SHOWN];
    assert w2 == Scene(None, None, tasks + [LISTED, SHOWN], map[SELLING := SOLD], updates);
  }

  lemma {:induction false} OnSale()
    ensures Leads(Empty(), Scene(None, None, [LISTED, SHOWN], map[SELLING := SOLD], map[]))
  {
    hide Leads;
    Stays(Empty());
    assert Empty() == Before([], map[]);
    Lists(Empty(), [], map[]);
    assert [] + [LISTED, SHOWN] == [LISTED, SHOWN];
  }

  /* ---- The order ---- */

  /** The order is reserved; the workflow has yet to hear of it. */
  lemma {:induction false} Reserves(w0: World, tasks: seq<Task>, flows: map<FlowId, Flow>,
      updates: map<TicketId, UpdateRun>)
    requires Leads(w0, Scene(None, None, tasks, flows, updates)) && BUYING !in flows
    ensures Leads(w0, Scene(None, Some(Created),
        tasks + [Answered(BUYING, ReserveOrder(BOOKING), Reserved(true, Booked(Created)))],
                            flows[BUYING := Waiting(|tasks|, None)], updates))
  {
    hide Leads;
    var i := |tasks|;
    OrderStarts(w0, Scene(None, None, tasks, flows, updates), BOOKING);
    var w1 := Scene(None, None, tasks + [Waits(BUYING, ReserveOrder(BOOKING))], flows[BUYING := Waiting(i, None)],
        updates);
    assert w1 == Schedule(Scene(None, None, tasks, flows, updates), BUYING, ReserveOrder(BOOKING), None);
    Locks(w0, w1, i);
    var w2 := w1.(locks := map[7 := Locked(i)]);
    assert AfterLock(w1, i) == w2 by { assert AfterLock(w1, i).tasks == w2.tasks; }
    FindsNone(w0, w2, i, 7);
    var w3 := w1.(locks := map[7 := Checked(i)]);
    assert w2.(locks := w2.locks[7 := Checked(i)]) == w3;
    Inserts(w0, w3, i, 7);
    var w4 := w1.(locks := map[7 := Inserted(i)]);
    assert w3.(locks := w3.locks[7 := Inserted(i)]) == w4;
    Commits(w0, w4, i, 7);
    FirstAnswer(w4, i, BUYING, ReserveOrder(BOOKING), Reserved(true, Booked(Created)));
    var w5 := AfterCommit(w4, i, 7);
    Last(tasks, Waits(BUYING, ReserveOrder(BOOKING)),
        Answered(BUYING, ReserveOrder(BOOKING), Reserved(true, Booked(Created))));
    assert w5.tasks == tasks + [Answered(BUYING, ReserveOrder(BOOKING), Reserved(true, Booked(Created)))];
    assert w5.locks == map[] && w5.orders.orders == map[1 := Booked(Created)];
  }

  /** The reservation is retried, and now joins its own open order. */
  lemma {:induction false} Rejoins(w0: World, tasks: seq<Task>, i: nat, flows: map<FlowId, Flow>,
      updates: map<TicketId, UpdateRun>)
    requires Leads(w0, Scene(None, Some(Created), tasks, flows, updates)) && i < |tasks|
    requires tasks[i].activity == ReserveOrder(BOOKING) && !tasks[i].acked && !tasks[i].missed
    ensures var r := Reserved(false, Booked(Created));
            Leads(w0, Scene(None, Some(Created),
                tasks[i := tasks[i].(replies := tasks[i].replies + {r}, last := Some(r))], flows, updates))
  {
    hide Leads;
    var r := Reserved(false, Booked(Created));
    var w := Scene(None, Some(Created), tasks, flows, updates);
    Locks(w0, w, i);
    var w1 := AfterLock(w, i);
    assert FindsBlocking(w1.orders, 7, Some(1));
    FindsOne(w0, w1, i, 7, 1);
    var w2 := Answer(w1.(locks := w1.locks - {7}), i, r);
    assert w2.locks == map[];
    assert w2.tasks == tasks[i := tasks[i].(replies := tasks[i].replies + {r}, last := Some(r))];
  }

  /* ---- Cancellation ---- */

  const CANCEL := CancelOrder(1, "buyer")
  const CANCELED := CanceledOrder(Booked(Canceled))
  const RELEASE := ReleaseTicket(7, 1)

  /** The owner's cancel takes effect; its workflow has yet to hear of it. */
  lemma {:induction false} Cancels(w0: World, tasks: seq<Task>, flows: map<FlowId, Flow>,
      updates: map<TicketId, UpdateRun>)
    requires Leads(w0, Scene(None, Some(Created), tasks, flows, updates)) && CANCELING !in flows
    ensures Leads(w0, Scene(None, Some(Canceled),
        tasks + [Answered(CANCELING, CANCEL, CanceledOrder(Booked(Canceled)))],
                            flows[CANCELING := Waiting(|tasks|, None)], updates))
  {
    hide Leads;
    var w := Scene(None, Some(Created), tasks, flows, updates);
    CancelStarts(w0, w, 1, "buyer");
    var w1 := Schedule(w, CANCELING, CANCEL, None);
    Updates(w0, w1, |tasks|);
    var r := CanceledOrder(Booked(Canceled));
    FirstAnswer(w1, |tasks|, CANCELING, CANCEL, r);
    Last(tasks, Waits(CANCELING, CANCEL), Answered(CANCELING, CANCEL, r));
    var w2 := AfterUpdate(w1, |tasks|);
    assert w2.orders.orders == map[1 := Booked(Canceled)];
    assert w2 == Scene(None, Some(Canceled), tasks + [Answered(CANCELING, CANCEL, r)],
        flows[CANCELING := Waiting(|tasks|, None)], updates);
  }

  /** The cancel workflow goes on to release the ticket, which carries no claim yet. */
  lemma {:induction false} GoesToRelease(w0: World, tasks: seq<Task>, flows: map<FlowId, Flow>,
                                         updates: map<TicketId, UpdateRun>)
    requires Leads(w0, Scene(None, Some(Canceled), tasks + [Answered(CANCELING, CANCEL, CANCELED)],
                             flows[CANCELING := Waiting(|tasks|, None)], updates))
    ensures Leads(w0, Scene(None, Some(Canceled),
                            tasks + [Done(CANCELING, CANCEL, CANCELED), Waits(CANCELING, RELEASE)],
                            flows[CANCELING := Waiting(|tasks| + 1, Some(CANCELED))], updates))
  {
    hide Leads;
    var w := Scene(None, Some(Canceled), tasks + [Answered(CANCELING, CANCEL, CANCELED)],
                   flows[CANCELING := Waiting(|tasks|, None)], updates);
    Delivers(w0, w, CANCELING, |tasks|, CANCELED);
    Last(tasks, Answered(CANCELING, CANCEL, CANCELED), Done(CANCELING, CANCEL, CANCELED));
    Second(tasks, Done(CANCELING, CANCEL, CANCELED), Waits(CANCELING, RELEASE), Waits(CANCELING, RELEASE));
    var w1 := AfterDelivery(w, CANCELING, CANCELED);
    assert w1.tasks == tasks + [Done(CANCELING, CANCEL, CANCELED), Waits(CANCELING, RELEASE)];
    assert w1.flows == flows[CANCELING := Waiting(|tasks| + 1, Some(CANCELED))];
  }

  /** It releases nothing, and ends. */
  lemma {:induction false} Releases(w0: World, tasks: seq<Task>, flows: map<FlowId, Flow>,
                                    updates: map<TicketId, UpdateRun>)
    requires Leads(w0, Scene(None, Some(Canceled), tasks + [Answered(CANCELING, CANCEL, CANCELED)],
                             flows[CANCELING := Waiting(|tasks|, None)], updates))
    ensures Leads(w0, Scene(None, Some(Canceled),
                            tasks + [Done(CANCELING, CANCEL, CANCELED), Done(CANCELING, RELEASE, Released)],
                            flows[CANCELING := Completed(CANCELED)], updates))
  {
    hide Leads;
    GoesToRelease(w0, tasks, flows, updates);
    var cancel, i := Done(CANCELING, CANCEL, CANCELED), |tasks| + 1;
    var answered := Answered(CANCELING, RELEASE, Released);
    Second(tasks, cancel, Waits(CANCELING, RELEASE), answered);
    Second(tasks, cancel, answered, Done(CANCELING, RELEASE, Released));
    var w := Scene(None, Some(Canceled), tasks + [cancel, Waits(CANCELING, RELEASE)],
                   flows[CANCELING := Waiting(i, Some(CANCELED))], updates);
    Attempts(w0, w, i);
    FirstAnswer(w, i, CANCELING, RELEASE, Released);
    var w1 := AfterAttempt(w, i);
    assert w1 == w.(tasks := tasks + [cancel, answered]);
    Delivers(w0, w1, CANCELING, i, Released);
    assert AfterDelivery(w1, CANCELING, Released).flows == flows[CANCELING := Completed(CANCELED)];
  }

  /* ---- A claim leaks ---- */

  const FIRST := Reserved(true, Booked(Created))
  const JOINED := Reserved(false, Booked(Created))

  /** The reservation's task after the lost reply and its repetition. */
  function Twice(acked: bool): Task {
    Task(BUYING, ReserveOrder(BOOKING), {FIRST, JOINED}, Some(JOINED), false, acked)
  }

  /** The first reply was lost: the creating workflow hears that it joined an open order, and goes on to claim. */
  lemma {:induction false} JoinsOwn(w0: World, tasks: seq<Task>, flows: map<FlowId, Flow>,
      updates: map<TicketId, UpdateRun>)
    requires Leads(w0, Scene(None, None, tasks, flows, updates)) && BUYING !in flows
    ensures Leads(w0, Scene(None, Some(Created), tasks + [Twice(true), Waits(BUYING, ClaimTicket(7, 1))],
                            flows[BUYING := Waiting(|tasks| + 1, Some(JOINED))], updates))
  {
    hide Leads;
    Reserves(w0, tasks, flows, updates);
    var once := Answered(BUYING, ReserveOrder(BOOKING), FIRST);
    var flows' := flows[BUYING := Waiting(|tasks|, None)];
    Rejoins(w0, tasks + [once], |tasks|, flows', updates);
    assert {FIRST} + {JOINED} == {FIRST, JOINED};
    Last(tasks, once, Twice(false));
    Last(tasks, Twice(false), Twice(true));
    Second(tasks, Twice(true), Waits(BUYING, ClaimTicket(7, 1)), Twice(true));
    var w := Scene(None, Some(Created), tasks + [Twice(false)], flows', updates);
    Delivers(w0, w, BUYING, |tasks|, JOINED);
    assert AfterDelivery(w, BUYING, JOINED)
        == Scene(None, Some(Created), tasks + [Twice(true), Waits(BUYING, ClaimTicket(7, 1))],
                 flows[BUYING := Waiting(|tasks| + 1, Some(JOINED))], updates);
  }

  /** No workflow runs, and the Canceled order holds the ticket: nothing will ever release it. */
  ghost predicate Leaked(w: World) {
    Holds(w, 7, 1) && IsCanceled(w, 1) && forall f :: f in w.flows ==> w.flows[f].Closed()
  }

  /** The joined request still waits to claim; its order is Canceled and every other workflow has ended. */
  function LateClaim(): World {
    Scene(None, Some(Canceled),
          [LISTED, SHOWN, Twice(true), Waits(BUYING, ClaimTicket(7, 1)),
           Done(CANCELING, CANCEL, CANCELED), Done(CANCELING, RELEASE, Released)],
          map[SELLING := SOLD, BUYING := Waiting(3, Some(JOINED)), CANCELING := Completed(CANCELED)], map[])
  }

  lemma {:induction false} LateClaimReached()
    ensures Leads(Empty(), LateClaim())
  {
    hide Leads, Empty;
    OnSale();
    var flows := map[SELLING := SOLD];
    JoinsOwn(Empty(), [LISTED, SHOWN], flows, map[]);
    var tasks := [LISTED, SHOWN, Twice(true), Waits(BUYING, ClaimTicket(7, 1))];
    assert [LISTED, SHOWN] + [Twice(true), Waits(BUYING, ClaimTicket(7, 1))] == tasks;
    Cancels(Empty(), tasks, flows[BUYING := Waiting(3, Some(JOINED))], map[]);
    Releases(Empty(), tasks, flows[BUYING := Waiting(3, Some(JOINED))], map[]);
    assert tasks + [Done(CANCELING, CANCEL, CANCELED), Done(CANCELING, RELEASE, Released)]
        == LateClaim().tasks;
    assert flows[BUYING := Waiting(3, Some(JOINED))][CANCELING := Completed(CANCELED)] == LateClaim().flows;
  }

  /** Nothing covers the order: only the joined request still runs. */
  lemma {:induction false} LateClaimUncovered()
    ensures !Covered(LateClaim(), 1)
  {
    forall f
      ensures !Bound(LateClaim(), f, 1)
    {
    }
  }

  lemma {:induction false} LateClaimLands() returns (w1: World)
    ensures Step(LateClaim(), Attempt(3), w1) && RetryGuard(LateClaim(), Attempt(3))
        && !ClaimGuard(LateClaim(), Attempt(3))
    ensures w1 == AfterAttempt(LateClaim(), 3)
  {
    LateClaimUncovered();
    hide Covered;
    w1 := AfterAttempt(LateClaim(), 3);
  }

  lemma {:induction false} LateClaimLeaks(w1: World) returns (w2: World)
    requires w1 == AfterAttempt(LateClaim(), 3)
    ensures Step(w1, Deliver(BUYING, Claimed), w2) && RetryGuard(w1, Deliver(BUYING, Claimed)) && Leaked(w2)
  {
    w2 := AfterDelivery(w1, BUYING, Claimed);
    assert forall f :: f in w2.flows ==> f == SELLING || f == BUYING || f == CANCELING;
  }

  /** A run of ordinary retries that leaks a claim for good. */
  lemma {:induction false} LeakReached() returns (ws: seq<World>, acts: seq<Action>)
    ensures RetryRun(ws, acts) && |ws| == |acts| + 1 && Leaked(ws[|acts|])
  {
    hide Leads, Empty, LateClaim, Step, RetryGuard, ClaimGuard, RetryRun, Leaked, Run;
    LateClaimReached();
    ws, acts := RunTo(LateClaim());
    var w1 := LateClaimLands();
    var w2 := LateClaimLeaks(w1);
    CarefulRetries(ws, acts);
    RetriesOn(ws, acts, Attempt(3), w1);
    RetriesOn(ws + [w1], acts + [Attempt(3)], Deliver(BUYING, Claimed), w2);
    ws, acts := ws + [w1] + [w2], acts + [Attempt(3)] + [Deliver(BUYING, Claimed)];
  }

  lemma CarefulRetries(ws: seq<World>, acts: seq<Action>)
    requires CarefulRun(ws, acts)
    ensures RetryRun(ws, acts)
  {
  }

  /* ---- A stored edit is dropped ---- */

  const EDIT := EditInput(7, "seller", "edit", "Concert", 120)

  /** The mutex holder is about to store an edit, and the creating workflow is about to claim. */
  function EditAndClaim(): World {
    Scene(None, Some(Created),
          [LISTED, SHOWN, Done(BUYING, ReserveOrder(BOOKING), FIRST), Waits(BUYING, ClaimTicket(7, 1)),
           Waits(UpdateTicketFlow(7), PersistTicketUpdate(EDIT))],
          map[SELLING := SOLD, BUYING := Waiting(3, Some(FIRST))], map[7 := UpdateRun(Some(4), {}, {KeyOf(EDIT)}, 0)])
  }

  /** An edit is requested and gets the free mutex. */
  lemma {:induction false} TakesMutex(w0: World, w: World)
    requires Leads(w0, w) && w.updates == map[]
    ensures Leads(w0, AddTask(w, UpdateTicketFlow(7), PersistTicketUpdate(EDIT))
                        .(updates := map[7 := UpdateRun(Some(|w.tasks|), {}, {KeyOf(EDIT)}, 0)]))
  {
    hide Leads, KeyOf;
    Requests(w0, w, EDIT);
    var w1 := w.(updates := map[7 := UpdateRun(None, {EDIT}, {KeyOf(EDIT)}, 0)]);
    assert {} + {EDIT} == {EDIT} && {} + {KeyOf(EDIT)} == {KeyOf(EDIT)};
    assert map[7 := UpdateRun(None, {EDIT}, {KeyOf(EDIT)}, 0)]
        == w.updates[7 := UpdateRun(None, {EDIT}, {KeyOf(EDIT)}, 0)];
    Grants(w0, w1, EDIT);
    assert {EDIT} - {EDIT} == {};
    assert w1.updates[7 := UpdateRun(Some(|w.tasks|), {}, {KeyOf(EDIT)}, 0)]
        == map[7 := UpdateRun(Some(|w.tasks|), {}, {KeyOf(EDIT)}, 0)];
  }

  lemma {:induction false} EditAndClaimReached()
    ensures Leads(Empty(), EditAndClaim())
  {
    hide Leads, Empty, KeyOf;
    OnSale();
    Reserves(Empty(), [LISTED, SHOWN], map[SELLING := SOLD], map[]);
    var w := Scene(None, Some(Created), [LISTED, SHOWN, Answered(BUYING, ReserveOrder(BOOKING), FIRST)],
                   map[SELLING := SOLD, BUYING := Waiting(2, None)], map[]);
    assert [LISTED, SHOWN] + [Answered(BUYING, ReserveOrder(BOOKING), FIRST)] == w.tasks;
    assert map[SELLING := SOLD][BUYING := Waiting(2, None)] == w.flows;
    Delivers(Empty(), w, BUYING, 2, FIRST);
    var w1 := AfterDelivery(w, BUYING, FIRST);
    TakesMutex(Empty(), w1);
    assert w1.tasks + [Waits(UpdateTicketFlow(7), PersistTicketUpdate(EDIT))] == EditAndClaim().tasks;
    assert w1.flows == EditAndClaim().flows;
  }

  lemma EditAndClaimShape()
    ensures var w := EditAndClaim();
            && EditReady(w, 7, 4) && CaughtUpAt(w, 7)
            && 3 < |w.tasks| && w.tasks[3].activity == ClaimTicket(7, 1) && !w.tasks[3].acked
  {
    assert !IsSpace("Concert"[0]);
  }

  /** A run of ordinary retries that leaves the projection behind with nobody at work on the ticket. */
  lemma {:induction false} LagReached() returns (ws: seq<World>, acts: seq<Action>)
    ensures RetryRun(ws, acts) && |ws| == |acts| + 1
    ensures var w := ws[|acts|];
            MutexFree(w, 7) && 7 in w.tickets.rows && ProjectedVersion(w.orders, 7) == w.tickets.rows[7].version - 1
  {
    hide *;
    EditAndClaimReached();
    ws, acts := RunTo(EditAndClaim());
    CarefulRetries(ws, acts);
    EditAndClaimShape();
    var w1, w2, w3, w4 := ClaimBetweenLeavesLag(EditAndClaim(), 7, 4, 3, 1);
    RetriesOn(ws, acts, Attempt(4), w1);
    ws, acts := ws + [w1], acts + [Attempt(4)];
    RetriesOn(ws, acts, Attempt(3), w2);
    ws, acts := ws + [w2], acts + [Attempt(3)];
    RetriesOn(ws, acts, Attempt(4), w3);
    ws, acts := ws + [w3], acts + [Attempt(4)];
    RetriesOn(ws, acts, DeliverEdit(7, Rejected(EditReserved)), w4);
    ws, acts := ws + [w4], acts + [DeliverEdit(7, Rejected(EditReserved))];
  }

  /* ---- A reservation is superseded ---- */

  /** A careful and tidy run to a reservation that has no answer. */
  lemma {:induction false} SupersededReached() returns (ws: seq<World>, acts: seq<Action>)
    ensures CarefulRun(ws, acts) && TidyRun(ws, acts) && |ws| == |acts| + 1
    ensures 2 < |ws[|acts|].tasks| && Progress.Superseded(ws[|acts|], 2)
  {
    hide Leads, Empty, CarefulRun, TidyRun;
    OnSale();
    Reserves(Empty(), [LISTED, SHOWN], map[SELLING := SOLD], map[]);
    Cancels(Empty(), [LISTED, SHOWN] + [Answered(BUYING, ReserveOrder(BOOKING), FIRST)],
        map[SELLING := SOLD][BUYING := Waiting(2, None)], map[]);
    var w := Scene(None, Some(Canceled),
                   [LISTED, SHOWN] + [Answered(BUYING, ReserveOrder(BOOKING), FIRST)]
                       + [Answered(CANCELING, CANCEL, CANCELED)],
                   map[SELLING := SOLD][BUYING := Waiting(2, None)][CANCELING := Waiting(3, None)], map[]);
    Locks(Empty(), w, 2);
    ws, acts := RunTo(AfterLock(w, 2));
  }

  /* ---- A cancel sees the order at two instants ---- */

  const MISSED := Task(CANCELING, CANCEL, {}, None, true, false)

  /** The order's cancel was requested before the order was there: its UPDATE misses. */
  lemma {:induction false} EarlyCancel()
    ensures var w := Scene(None, None, [LISTED, SHOWN, Waits(CANCELING, CANCEL)],
        map[SELLING := SOLD, CANCELING := Waiting(2, None)], map[]);
            && Leads(Empty(), w)
            && Next(w, Attempt(2), w.(tasks := [LISTED, SHOWN, MISSED]))
  {
    hide Leads, Empty, Next;
    OnSale();
    var w0 := Scene(None, None, [LISTED, SHOWN], map[SELLING := SOLD], map[]);
    var w := Scene(None, None, [LISTED, SHOWN, Waits(CANCELING, CANCEL)],
        map[SELLING := SOLD, CANCELING := Waiting(2, None)], map[]);
    CancelStarts(Empty(), w0, 1, "buyer");
    assert Schedule(w0, CANCELING, CANCEL, None) == w;
    NextUpdate(w, 2);
    assert AfterUpdate(w, 2).tasks == [LISTED, SHOWN, MISSED];
  }

  /**
    On a careful and tidy run a cancel answers that the order is not cancelable, although the
    order was absent at its UPDATE and Created, so cancelable, at its SELECT.
   */
  lemma {:induction false} SplitCancelReached() returns (w1: World, w2: World, w3: World, w4: World)
    ensures Leads(Empty(), w1) && Next(w1, Attempt(2), w2) && Leads(w2, w3) && Next(w3, AttemptReadBack(2), w4)
    ensures 2 < |w4.tasks| && w4.tasks[2].activity == CANCEL && w4.tasks[2].last == Some(Rejected(OrderNotCancelable))
    ensures !LooksAtomic(w1.orders, w1.now, w3.orders, w3.now, CANCEL)
  {
    hide Leads, Empty, Next;
    EarlyCancel();
    var flows := map[SELLING := SOLD, CANCELING := Waiting(2, None)];
    w1 := Scene(None, None, [LISTED, SHOWN, Waits(CANCELING, CANCEL)], flows, map[]);
    w2 := Scene(None, None, [LISTED, SHOWN, MISSED], flows, map[]);
    Stays(w2);
    Reserves(w2, [LISTED, SHOWN, MISSED], flows, map[]);
    w3 := Scene(None, Some(Created), [LISTED, SHOWN, MISSED] + [Answered(BUYING, ReserveOrder(BOOKING), FIRST)],
                flows[BUYING := Waiting(3, None)], map[]);
    NextReadBack(w3, 2, Rejected(OrderNotCancelable));
    w4 := Answer(w3, 2, Rejected(OrderNotCancelable));
  }

  /* ---- Why replies must be the last, and attempts in time ---- */

  const NO_ORDER := Answered(CANCELING, CANCEL, Rejected(OrderNotFound))

  /** A cancel found no order; then the order came, and the joined request holds the ticket for it and ended. */
  function RefusedCancel(): World {
    Scene(Some(1), Some(Created), [LISTED, SHOWN, NO_ORDER, Twice(true), Done(BUYING, ClaimTicket(7, 1), Claimed)],
          map[SELLING := SOLD, CANCELING := Waiting(2, None), BUYING := Completed(JOINED)], map[])
  }

  lemma {:induction false} RefusedCancelReached()
    ensures Leads(Empty(), RefusedCancel())
  {
    hide Leads, Empty, Next;
    EarlyCancel();
    var flows := map[SELLING := SOLD, CANCELING := Waiting(2, None)];
    var w := Scene(None, None, [LISTED, SHOWN, Waits(CANCELING, CANCEL)], flows, map[]);
    var w1 := Scene(None, None, [LISTED, SHOWN, MISSED], flows, map[]);
    Goes(Empty(), w, Attempt(2), w1);
    ReadsBack(Empty(), w1, 2, Rejected(OrderNotFound));
    assert {} + {Rejected(OrderNotFound)} == {Rejected(OrderNotFound)};
    assert Answer(w1, 2, Rejected(OrderNotFound)).tasks == [LISTED, SHOWN, NO_ORDER];
    JoinsOwn(Empty(), [LISTED, SHOWN, NO_ORDER], flows, map[]);
    var tasks := [LISTED, SHOWN, NO_ORDER, Twice(true), Waits(BUYING, ClaimTicket(7, 1))];
    assert [LISTED, SHOWN, NO_ORDER] + [Twice(true), Waits(BUYING, ClaimTicket(7, 1))] == tasks;
    ClaimsJoined(Scene(None, Some(Created), tasks, flows[BUYING := Waiting(4, Some(JOINED))], map[]));
  }

  lemma {:induction false} ClaimsJoined(w: World)
    requires w == Scene(None, Some(Created), [LISTED, SHOWN, NO_ORDER, Twice(true), Waits(BUYING, ClaimTicket(7, 1))],
                        map[SELLING := SOLD, CANCELING := Waiting(2, None)][BUYING := Waiting(4, Some(JOINED))], map[])
    requires Leads(Empty(), w)
    ensures Leads(Empty(), RefusedCancel())
  {
    hide Leads, Empty;
    Attempts(Empty(), w, 4);
    FirstAnswer(w, 4, BUYING, ClaimTicket(7, 1), Claimed);
    var w1 := AfterAttempt(w, 4);
    assert w1 == w.(tickets := w1.tickets, tasks := w.tasks[4 := Answered(BUYING, ClaimTicket(7, 1), Claimed)]);
    Delivers(Empty(), w1, BUYING, 4, Claimed);
    assert AfterDelivery(w1, BUYING, Claimed) == RefusedCancel();
  }

  /** The cancel is retried, and takes effect. */
  lemma {:induction false} RetriedCancel(w: World) returns (w': World)
    requires 2 < |w.tasks| && w.tasks[2].activity == CANCEL && w.orders == RefusedCancel().orders
    ensures Step(w, Attempt(2), w') && ClaimGuard(w, Attempt(2)) && (!w.tasks[2].acked ==> RetryGuard(w, Attempt(2)))
    ensures HandsLast(w, Attempt(2))
    ensures w' == AfterUpdate(w, 2) && IsCanceled(w', 1) && w'.tickets == w.tickets && w'.flows == w.flows
    ensures |w'.tasks| == |w.tasks| && w.tasks[2].replies <= w'.tasks[2].replies
  {
    w' := AfterUpdate(w, 2);
  }

  /** The cancel's workflow is told of the refusal, whatever came later. */
  lemma {:induction false} ToldOfRefusal(w: World) returns (w': World)
    requires w.flows == RefusedCancel().flows && 2 < |w.tasks| && Rejected(OrderNotFound) in w.tasks[2].replies
    ensures var a := Deliver(CANCELING, Rejected(OrderNotFound));
            && Step(w, a, w') && AttemptGuard(w, a) && ClaimGuard(w, a)
            && (w.tasks[2].last == Some(Rejected(OrderNotFound)) ==> RetryGuard(w, a))
    ensures w'.tickets == w.tickets && w'.orders == w.orders && w'.tasks == w.tasks[2 := w.tasks[2].(acked := true)]
    ensures forall f :: f in w'.flows ==> w'.flows[f].Closed()
  {
    w' := AfterDelivery(w, CANCELING, Rejected(OrderNotFound));
  }

  /** Guarded like a careful run except that a workflow may be handed an older reply. */
  ghost predicate StaleRun(ws: seq<World>, acts: seq<Action>) {
    Run(ws, acts) && forall n :: 0 <= n < |acts| ==> AttemptGuard(ws[n], acts[n]) && ClaimGuard(ws[n], acts[n])
  }

  /** Guarded like a careful run except that an attempt may come after the acknowledgment. */
  ghost predicate LateRun(ws: seq<World>, acts: seq<Action>) {
    Run(ws, acts) && forall n :: 0 <= n < |acts| ==> HandsLast(ws[n], acts[n]) && ClaimGuard(ws[n], acts[n])
  }

  lemma {:induction false} StaleOn(ws: seq<World>, acts: seq<Action>, a: Action, w': World)
    requires StaleRun(ws, acts) && |ws| == |acts| + 1 && Step(ws[|acts|], a, w')
    requires AttemptGuard(ws[|acts|], a) && ClaimGuard(ws[|acts|], a)
    ensures StaleRun(ws + [w'], acts + [a])
  {
    RunsOn(ws, acts, a, w');
    hide Run, AttemptGuard, ClaimGuard;
  }

  lemma {:induction false} LateOn(ws: seq<World>, acts: seq<Action>, a: Action, w': World)
    requires LateRun(ws, acts) && |ws| == |acts| + 1 && Step(ws[|acts|], a, w')
    requires HandsLast(ws[|acts|], a) && ClaimGuard(ws[|acts|], a)
    ensures LateRun(ws + [w'], acts + [a])
  {
    RunsOn(ws, acts, a, w');
    hide Run, HandsLast, ClaimGuard;
  }

  lemma CarefulKinds(ws: seq<World>, acts: seq<Action>)
    requires CarefulRun(ws, acts)
    ensures StaleRun(ws, acts) && LateRun(ws, acts)
  {
    hide Run, AttemptGuard, HandsLast, ClaimGuard;
  }

  lemma RefusedCancelHolds()
    ensures var w := RefusedCancel();
            && Holds(w, 7, 1) && 2 < |w.tasks| && w.tasks[2].activity == CANCEL && !w.tasks[2].acked
            && w.tasks[2].last == Some(Rejected(OrderNotFound)) && Rejected(OrderNotFound) in w.tasks[2].replies
  {
  }

  /** A workflow that is handed an older reply than the last one leaks a claim, whatever guards the attempts. */
  lemma {:induction false} StaleReplyLeaks() returns (ws: seq<World>, acts: seq<Action>)
    ensures StaleRun(ws, acts) && |ws| == |acts| + 1 && Leaked(ws[|acts|])
  {
    hide Leads, Empty, Step, AttemptGuard, HandsLast, ClaimGuard, CarefulRun, TidyRun, StaleRun, LateRun,
         RefusedCancel, AfterUpdate;
    RefusedCancelReached();
    RefusedCancelHolds();
    ws, acts := RunTo(RefusedCancel());
    CarefulKinds(ws, acts);
    var w1 := RetriedCancel(RefusedCancel());
    var w2 := ToldOfRefusal(w1);
    StaleOn(ws, acts, Attempt(2), w1);
    StaleOn(ws + [w1], acts + [Attempt(2)], Deliver(CANCELING, Rejected(OrderNotFound)), w2);
    ws, acts := ws + [w1] + [w2], acts + [Attempt(2)] + [Deliver(CANCELING, Rejected(OrderNotFound))];
  }

  /** An attempt after the acknowledgment leaks a claim, although every workflow was handed the last reply. */
  lemma {:induction false} LateAttemptLeaks() returns (ws: seq<World>, acts: seq<Action>)
    ensures LateRun(ws, acts) && |ws| == |acts| + 1 && Leaked(ws[|acts|])
  {
    hide Leads, Empty, Step, AttemptGuard, HandsLast, ClaimGuard, CarefulRun, TidyRun, StaleRun, LateRun,
         RefusedCancel, AfterUpdate;
    RefusedCancelReached();
    RefusedCancelHolds();
    ws, acts := RunTo(RefusedCancel());
    CarefulKinds(ws, acts);
    var w1 := ToldOfRefusal(RefusedCancel());
    var w2 := RetriedCancel(w1);
    LateOn(ws, acts, Deliver(CANCELING, Rejected(OrderNotFound)), w1);
    LateOn(ws + [w1], acts + [Deliver(CANCELING, Rejected(OrderNotFound))], Attempt(2), w2);
    ws, acts := ws + [w1] + [w2], acts + [Deliver(CANCELING, Rejected(OrderNotFound))] + [Attempt(2)];
  }

  /* ---- A late attempt of an edit ---- */

  const NO_TICKET := Done(UpdateTicketFlow(7), PersistTicketUpdate(EDIT), Rejected(EditNotFound))

  /** An edit was refused because the ticket was not there; then the ticket was created. */
  function RefusedEdit(): World {
    Scene(None, None, [NO_TICKET, LISTED, SHOWN], map[SELLING := SOLD], map[7 := UpdateRun(None, {}, {KeyOf(EDIT)}, 0)])
  }

  lemma {:induction false} RefusedEditReached()
    ensures Leads(Empty(), RefusedEdit())
  {
    hide Leads, KeyOf, ValidTicketData;
    Stays(Empty());
    TakesMutex(Empty(), Empty());
    var edit := Waits(UpdateTicketFlow(7), PersistTicketUpdate(EDIT));
    var w := Before([edit], map[7 := UpdateRun(Some(0), {}, {KeyOf(EDIT)}, 0)]);
    assert [] + [edit] == [edit];
    Attempts(Empty(), w, 0);
    FirstAnswer(w, 0, UpdateTicketFlow(7), PersistTicketUpdate(EDIT), Rejected(EditNotFound));
    var w1 := AfterAttempt(w, 0);
    EditIsValid();
    assert w1 == w.(tasks := [Answered(UpdateTicketFlow(7), PersistTicketUpdate(EDIT), Rejected(EditNotFound))]);
    Hears(Empty(), w1, 7, 0, Rejected(EditNotFound));
    var updates := map[7 := UpdateRun(None, {}, {KeyOf(EDIT)}, 0)];
    assert w1.updates[7 := UpdateRun(None, {}, {KeyOf(EDIT)}, 0)] == updates;
    assert AfterHearing(w1, 7, 0, Rejected(EditNotFound)) == Before([NO_TICKET], updates);
    Lists(Empty(), [NO_TICKET], updates);
    assert [NO_TICKET] + [LISTED, SHOWN] == [NO_TICKET, LISTED, SHOWN];
  }

  lemma EditIsValid()
    ensures ValidTicketData("Concert", 120)
  {
    assert !IsSpace("Concert"[0]);
  }

  /** One attempt after the acknowledgment leaves the projection behind, with nobody at work on the ticket. */
  lemma {:induction false} LateEditLags() returns (w: World, w': World)
    ensures Leads(Empty(), w) && Step(w, Attempt(0), w') && HandsLast(w, Attempt(0)) && EditGuard(w, Attempt(0))
        && !DropsEdit(w, Attempt(0))
    ensures MutexFree(w', 7) && 7 in w'.tickets.rows && ProjectedVersion(w'.orders, 7) == w'.tickets.rows[7].version - 1
  {
    hide Leads, Empty, ValidTicketData;
    RefusedEditReached();
    EditIsValid();
    w := RefusedEdit();
    w' := AfterAttempt(w, 0);
  }
}
