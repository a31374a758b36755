/**
  What holds over whole runs, with activities repeated, lost or late in any way.
 */
module Theorems {
  import opened Domain
  import opened TicketStore
  import opened OrderStore
  import opened Saga
  import opened Evolution
  import opened Invariant
  import opened Preservation
  import opened Frames
  import PaymentStore

  lemma {:induction false} Reachable(ws: seq<World>, acts: seq<Action>, i: nat)
    requires Run(ws, acts) && i < |ws|
    ensures Inv(ws[i])
  {
    if i == 0 {
      InitHolds(ws[0]);
    } else {
      Reachable(ws, acts, i - 1);
      StepKeeps(ws[i - 1], acts[i - 1], ws[i]);
    }
  }

  lemma {:induction false} RunsForward(ws: seq<World>, acts: seq<Action>, i: nat, j: nat)
    requires Run(ws, acts) && i <= j < |ws|
    ensures Later(ws[i], ws[j]) && Inv(ws[i]) && Inv(ws[j])
    decreases j - i
  {
    hide Inv, Later, Step;
    Reachable(ws, acts, i);
    if i == j {
      LaterReflexive(ws[i]);
    } else {
      RunsForward(ws, acts, i, j - 1);
      StepKeeps(ws[j - 1], acts[j - 1], ws[j]);
      LaterTransitive(ws[i], ws[j - 1], ws[j]);
    }
  }

  /* ---- Claims ---- */

  /** Order o holds the claim on ticket t. */
  ghost predicate Holds(w: World, t: TicketId, o: OrderId) {
    t in w.tickets.rows && w.tickets.rows[t].reservedBy == Some(o)
  }

  /**
    A claim, and with it the whole source row, stays until its order is Canceled; so a
    Complete order that holds its claim never loses it.
   */
  lemma {:induction false} ClaimRetention(ws: seq<World>, acts: seq<Action>, i: nat, j: nat, t: TicketId, o: OrderId)
    requires Run(ws, acts) && i <= j < |ws| && Holds(ws[i], t, o)
    ensures o in ws[j].orders.orders
    ensures IsCanceled(ws[j], o) || (Holds(ws[j], t, o) && ws[j].tickets.rows[t] == ws[i].tickets.rows[t])
    ensures ws[j].orders.orders[o].status == Complete ==> Holds(ws[j], t, o)
  {
    RunsForward(ws, acts, i, j);
    assert ClaimsOk(ws[i]);
  }

  /** CreateOrderWorkflow has had its claim acknowledged for this order. */
  ghost predicate ClaimAcknowledged(w: World, run: OrderId, order: Order) {
    var f := CreateOrderFlow(run);
    && f in w.flows
    && (w.flows[f].StartingExpiry? || w.flows[f].Completed?)
    && w.flows[f].result.Reserved? && w.flows[f].result.order == order
  }

  /**
    From the moment CreateOrderWorkflow's claim is acknowledged, and in every later state,
    the source ticket is claimed by its order or that order is Canceled, and the source
    row is the same as at acknowledgment for as long as the order is not Canceled.
   */
  lemma {:induction false} CreateOrderContract(ws: seq<World>, acts: seq<Action>, i: nat, j: nat, run: OrderId,
      order: Order)
    requires Run(ws, acts) && i <= j < |ws| && ClaimAcknowledged(ws[i], run, order)
    ensures order.id in ws[j].orders.orders
    ensures IsCanceled(ws[j], order.id) || (
              && Holds(ws[i], order.ticket, order.id) && Holds(ws[j], order.ticket, order.id)
              && ws[j].tickets.rows[order.ticket] == ws[i].tickets.rows[order.ticket])
  {
    hide Inv, Run, Later;
    RunsForward(ws, acts, i, j);
    AcknowledgedHolds(ws[i], run, order);
    HeldRowStays(ws[i], ws[j], order.ticket, order.id);
  }

  lemma {:induction false} AcknowledgedHolds(w: World, run: OrderId, order: Order)
    requires Inv(w) && ClaimAcknowledged(w, run, order)
    ensures order.id in w.orders.orders && HeldOrCanceled(w, order.ticket, order.id)
  {
    assert FlowOk(w, CreateOrderFlow(run), w.flows[CreateOrderFlow(run)]);
  }

  lemma {:induction false} HeldRowStays(w: World, w': World, t: TicketId, o: OrderId)
    requires Later(w, w') && HeldOrCanceled(w, t, o) && o in w.orders.orders
    ensures o in w'.orders.orders
    ensures IsCanceled(w', o) || (Holds(w, t, o) && Holds(w', t, o) && w'.tickets.rows[t] == w.tickets.rows[t])
  {
  }

  /** Two different acknowledged orders that are not Canceled never share a ticket. */
  lemma {:induction false} AcknowledgedOrdersNeverShare(ws: seq<World>, acts: seq<Action>, i: nat,
                                                         run: OrderId, order: Order, run': OrderId, order': Order)
    requires Run(ws, acts) && i < |ws|
    requires ClaimAcknowledged(ws[i], run, order) && ClaimAcknowledged(ws[i], run', order')
    requires order.id != order'.id && !IsCanceled(ws[i], order.id) && !IsCanceled(ws[i], order'.id)
    ensures order.ticket != order'.ticket
  {
    CreateOrderContract(ws, acts, i, i, run, order);
    CreateOrderContract(ws, acts, i, i, run', order');
  }

  /**
    The chain of references: claims name orders of that ticket, payments name orders, orders
    name projected tickets, projected tickets have a source row; so claiming and releasing
    never fail with NotFound.
   */
  lemma {:induction false} ReferenceChain(ws: seq<World>, acts: seq<Action>, i: nat)
    requires Run(ws, acts) && i < |ws|
    ensures var w := ws[i];
            && (forall t, o :: Holds(w, t, o) ==> o in w.orders.orders && w.orders.orders[o].ticket == t)
            && (forall o :: o in w.payments.byOrder ==> o in w.orders.orders)
            && (forall o :: o in w.orders.orders ==> w.orders.orders[o].ticket in w.orders.projection)
            && (forall t :: t in w.orders.projection ==> t in w.tickets.rows)
            && (forall k ::
                 0 <= k < |w.tasks| && (w.tasks[k].activity.ClaimTicket? || w.tasks[k].activity.ReleaseTicket?) ==>
                 Rejected(TicketNotFound) !in w.tasks[k].replies)
  {
    Reachable(ws, acts, i);
    hide *;
    TableReferences(ws[i]);
    PaymentReferences(ws[i]);
    ClaimReplies(ws[i]);
  }

  lemma {:induction false} TableReferences(w: World)
    requires Inv(w)
    ensures forall t, o :: Holds(w, t, o) ==> o in w.orders.orders && w.orders.orders[o].ticket == t
    ensures forall o :: o in w.orders.orders ==> w.orders.orders[o].ticket in w.orders.projection
    ensures forall t :: t in w.orders.projection ==> t in w.tickets.rows
  {
    hide LedgerOk, DataOk, UniqueOk, LocksOk, PaymentsOk, TasksOk, RepliesOk, MissesOk, CreationsOk, FlowsOk, WorkersOk;
  }

  lemma {:induction false} PaymentReferences(w: World)
    requires Inv(w)
    ensures forall o :: o in w.payments.byOrder ==> o in w.orders.orders
  {
    InvPayments(w);
    hide Inv;
    forall o | o in w.payments.byOrder
      ensures o in w.orders.orders
    {
      assert PaymentAgrees(w, o);
    }
  }

  lemma {:induction false} ClaimReplies(w: World)
    requires Inv(w)
    ensures forall k ::
              0 <= k < |w.tasks| && (w.tasks[k].activity.ClaimTicket? || w.tasks[k].activity.ReleaseTicket?) ==>
              Rejected(TicketNotFound) !in w.tasks[k].replies
  {
    InvReplies(w);
    hide Inv;
    forall k, r | 0 <= k < |w.tasks| && (w.tasks[k].activity.ClaimTicket? || w.tasks[k].activity.ReleaseTicket?)
                  && r in w.tasks[k].replies
      ensures r != Rejected(TicketNotFound)
    {
      assert ReplyOk(w, w.tasks[k].activity, r);
    }
  }

  lemma InvReplies(w: World)
    requires Inv(w)
    ensures RepliesOk(w)
  {
  }

  /* ---- Reservations ---- */

  /** At most one order blocks a ticket, so the blocking query has exactly one possible answer. */
  lemma {:induction false} OneBlockingOrder(ws: seq<World>, acts: seq<Action>, i: nat, t: TicketId)
    requires Run(ws, acts) && i < |ws|
    ensures forall o, p :: Blocks(ws[i].orders, t, o) && Blocks(ws[i].orders, t, p) ==> o == p
    ensures forall found, found' :: FindsBlocking(ws[i].orders, t, found) && FindsBlocking(ws[i].orders, t, found') ==>
      found == found'
  {
    Reachable(ws, acts, i);
    hide Inv;
    assert UniqueOk(ws[i].orders) by { InvUnique(ws[i]); }
    forall o, p | Blocks(ws[i].orders, t, o) && Blocks(ws[i].orders, t, p)
      ensures o == p
    {
      assert Blocks(ws[i].orders, ws[i].orders.orders[o].ticket, p);
    }
  }

  lemma InvUnique(w: World)
    requires Inv(w)
    ensures UniqueOk(w.orders)
  {
  }

  predicate ReservationStep(a: Action) {
    a.ReserveLock? || a.ReserveFind? || a.ReserveInsert? || a.ReserveCommit? || a.ReserveRollback?
  }

  /** Task i got the reply, and Orders the effect, of one atomic ReserveTicket in state w. */
  ghost predicate AtomicReservation(w: World, w': World, i: nat, found: Option<OrderId>) {
    && i < |w.tasks| && w.tasks[i].activity.ReserveOrder?
    && var input := w.tasks[i].activity.reservation;
       && FindsBlocking(w.orders, input.ticket, found)
       && var (db, reply) := ReserveTicket(w.orders, input, found);
          w'.orders == db && reply.Some? && w'.tasks == Answer(w, i, reply.value).tasks
  }

  /** Orders stays as it is and nobody gets a new reply. */
  ghost predicate Silent(w: World, w': World) {
    && w'.orders == w.orders && |w'.tasks| == |w.tasks|
    && forall k :: 0 <= k < |w.tasks| ==> w'.tasks[k] == w.tasks[k].(last := w'.tasks[k].last)
  }

  ghost predicate IsAtomicReservation(w: World, w': World) {
    exists i, found :: AtomicReservation(w, w', i, found)
  }

  lemma InvLock(w: World, t: TicketId)
    requires Inv(w) && t in w.locks
    ensures LockOk(w, t)
  {
  }

  lemma {:induction false} LockStepIsAtomic(w: World, i: nat, w': World)
    requires StepReserveLock(w, i, w')
    ensures Silent(w, w') || IsAtomicReservation(w, w')
  {
    if w.tasks[i].activity.reservation.ticket !in w.orders.projection {
      var found := BlockingQueryAnswers(w.orders, w.tasks[i].activity.reservation.ticket);
      assert AtomicReservation(w, w', i, found);
    }
  }

  lemma {:induction false} FindStepIsAtomic(w: World, t: TicketId, found: Option<OrderId>, w': World)
    requires LockOk(w, t) && StepReserveFind(w, t, found, w')
    ensures Silent(w, w') || IsAtomicReservation(w, w')
  {
    if found.Some? {
      assert AtomicReservation(w, w', w.locks[t].task, found);
    }
  }

  lemma {:induction false} CommitStepIsAtomic(w: World, t: TicketId, w': World)
    requires LockOk(w, t) && StepReserveCommit(w, t, w')
    ensures IsAtomicReservation(w, w')
  {
    assert AtomicReservation(w, w', w.locks[t].task, None);
  }

  /**
    The reservation transaction, split into its statements and interleaved with anything,
    refines one atomic reservation: each of its steps either shows nothing or is exactly
    ReserveTicket at that instant.
   */
  lemma {:induction false} SplitReservationIsAtomic(ws: seq<World>, acts: seq<Action>, n: nat)
    requires Run(ws, acts) && n < |acts| && ReservationStep(acts[n])
    ensures Silent(ws[n], ws[n + 1]) || IsAtomicReservation(ws[n], ws[n + 1])
  {
    hide Inv, LockOk, IsAtomicReservation, FindsBlocking;
    var w, w' := ws[n], ws[n + 1];
    Reachable(ws, acts, n);
    assert Step(w, acts[n], w');
    match acts[n]
    case ReserveLock(i) => LockStepIsAtomic(w, i, w');
    case ReserveFind(t, found) =>
      InvLock(w, t);
      FindStepIsAtomic(w, t, found, w');
    case ReserveCommit(t) =>
      InvLock(w, t);
      CommitStepIsAtomic(w, t, w');
    case ReserveInsert(t) =>
    case ReserveRollback(t) =>
  }

  /* ---- Order status ---- */

  ghost function StatusAt(w: World, o: OrderId): OrderStatus
    requires o in w.orders.orders
  {
    w.orders.orders[o].status
  }

  /** The activity entitled to change order o's status from s to s'. */
  ghost predicate Entitled(activity: Activity, order: Order, s': OrderStatus) {
    match (order.status, s')
    case (Created, Canceled) => activity == ExpireOrder(order.id) || activity == CancelOrder(order.id, order.user)
    case (Created, AwaitingPayment) => activity == StartOrderPayment(order.id, order.user)
    case (AwaitingPayment, Complete) => activity == ResolvePayment(order.id, Succeeded)
    case (AwaitingPayment, Canceled) => activity == ResolvePayment(order.id, Failed)
    case _ => false
  }

  lemma {:induction false} UpdateChangesStatus(db: OrdersDb, now: Time, activity: Activity, o: OrderId)
    requires TwoStatement(activity) && o in db.orders && db.orders[o].id == o
    ensures var db' := Update(db, now, activity).0;
            && o in db'.orders
            && (db'.orders[o].status != db.orders[o].status ==>
                 StatusStep(db.orders[o].status, db'.orders[o].status)
                     && Entitled(activity, db.orders[o], db'.orders[o].status))
  {
  }

  /** A status changes by one legal step at a time, through an attempt of the one activity entitled to it. */
  lemma {:induction false} StatusChanges(w: World, a: Action, w': World, o: OrderId)
    requires Step(w, a, w') && o in w.orders.orders && w.orders.orders[o].id == o
    ensures o in w'.orders.orders
    ensures StatusAt(w', o) != StatusAt(w, o) ==>
      && StatusStep(StatusAt(w, o), StatusAt(w', o))
      && a.Attempt? && a.task < |w.tasks| && Entitled(w.tasks[a.task].activity, w.orders.orders[o], StatusAt(w', o))
  {
    hide Step, Update, Entitled, StatusStep;
    OrdersFrame(w, a, w');
    if a.Attempt? && TwoStatement(w.tasks[a.task].activity) {
      UpdateChangesStatus(w.orders, w.now, w.tasks[a.task].activity, o);
    }
  }

  /**
    One winner: once an order has left Created (or AwaitingPayment) it never does so again,
    so of all attempts to cancel, expire or check out an order at most one takes effect, and
    of all resolutions at most one; the first to act decides, and a started checkout is
    never undone by cancel or expiry.
   */
  lemma {:induction false} OneWinner(ws: seq<World>, acts: seq<Action>, i: nat, j: nat, o: OrderId)
    requires Run(ws, acts) && i < j < |acts| && o in ws[i].orders.orders
    requires o in ws[i + 1].orders.orders && StatusAt(ws[i], o) != StatusAt(ws[i + 1], o)
    ensures acts[i].Attempt? && acts[i].task < |ws[i].tasks|
    ensures Entitled(ws[i].tasks[acts[i].task].activity, ws[i].orders.orders[o], StatusAt(ws[i + 1], o))
    ensures o in ws[j].orders.orders && o in ws[j + 1].orders.orders
    ensures StatusAt(ws[j], o) != StatusAt(ws[i], o)
    ensures StatusAt(ws[j], o) != StatusAt(ws[j + 1], o) ==>
      && StatusAt(ws[i], o) == Created
      && StatusAt(ws[i + 1], o) == StatusAt(ws[j], o) == AwaitingPayment
      && acts[j].Attempt? && acts[j].task < |ws[j].tasks|
      && Entitled(ws[j].tasks[acts[j].task].activity, ws[j].orders.orders[o], StatusAt(ws[j + 1], o))
  {
    hide Inv, Step, Entitled, RowsEvolve, LedgerGrows, HistoryGrows, PaymentsEvolve, CheckoutsEvolve, TasksEvolve;
    assert Step(ws[i], acts[i], ws[i + 1]) && Step(ws[j], acts[j], ws[j + 1]);
    RunsForward(ws, acts, i, j);
    RunsForward(ws, acts, i + 1, j);
    OrderKeys(ws[i], o);
    OrderKeys(ws[j], o);
    StatusChanges(ws[i], acts[i], ws[i + 1], o);
    StatusChanges(ws[j], acts[j], ws[j + 1], o);
  }

  lemma OrderKeys(w: World, o: OrderId)
    requires Inv(w) && o in w.orders.orders
    ensures w.orders.orders[o].id == o
  {
  }

  /* ---- Two-statement operations ---- */

  /**
    An Orders operation whose UPDATE matched nothing at step a and whose SELECT ran at step b
    got the reply that the atomic operation gives, without effect, at some instant from a to
    b, whatever happened in between.
   */
  lemma {:induction false} TwoStatementsLinearize(ws: seq<World>, acts: seq<Action>, a: nat, b: nat, task: nat)
    requires Run(ws, acts) && a < b < |acts|
    requires acts[a] == Attempt(task) && acts[b] == AttemptReadBack(task)
    requires task < |ws[a].tasks| && TwoStatement(ws[a].tasks[task].activity)
    requires Update(ws[a].orders, ws[a].now, ws[a].tasks[task].activity).1 == None
    requires Addresses(ws[a].orders, ws[a].tasks[task].activity)
    ensures |ws[b + 1].tasks| == |ws[b].tasks| && task < |ws[b].tasks|
    ensures exists k | a <= k <= b ::
      Atomic(ws[k].orders, ws[k].now, ws[a].tasks[task].activity) == (ws[k].orders, ws[b + 1].tasks[task].last)
  {
    hide Inv, Init, Step, Later, Addresses, Atomic, Update, ReadBack;
    RunsForward(ws, acts, a, b);
    var activity := ws[a].tasks[task].activity;
    LaterOrders(ws[a], ws[b], task);
    assert Step(ws[b], acts[b], ws[b + 1]);
    ReadBackIs(ws[b], task, ws[b + 1]);
    TwoStatementsLookAtomic(ws[a].orders, ws[a].now, ws[b].orders, ws[b].now, activity);
    var k := if Atomic(ws[a].orders, ws[a].now, activity) == (ws[a].orders, ReadBack(ws[b].orders, activity)) then a
        else b;
    assert Atomic(ws[k].orders, ws[k].now, activity) == (ws[k].orders, ws[b + 1].tasks[task].last);
  }

  lemma LaterOrders(w: World, w': World, task: nat)
    requires Later(w, w') && task < |w.tasks|
    ensures Evolves(w.orders, w'.orders) && task < |w'.tasks| && w'.tasks[task].activity == w.tasks[task].activity
  {
    hide Evolves;
  }

  lemma ReadBackIs(w: World, task: nat, w': World)
    requires Step(w, AttemptReadBack(task), w')
    ensures task < |w.tasks| == |w'.tasks| && TwoStatement(w.tasks[task].activity)
    ensures w'.tasks[task].last == ReadBack(w.orders, w.tasks[task].activity)
  {
    hide ReadBack;
  }

  /* ---- Versions, the edit ledger and the projection ---- */

  /** Exactly one ledger row of ticket t holds version v, and it is that version's published snapshot. */
  ghost predicate OneLedgerRow(w: World, t: TicketId, v: nat) {
    && (exists k :: k in w.tickets.ledger && k.ticket == t && w.tickets.ledger[k].version == v)
    && (forall k, k' | k in w.tickets.ledger && k' in w.tickets.ledger ::
         k.ticket == t == k'.ticket && w.tickets.ledger[k].version == v == w.tickets.ledger[k'].version ==> k == k')
    && (forall k :: k in w.tickets.ledger && k.ticket == t && w.tickets.ledger[k].version == v ==>
         WasPublished(w.history, w.tickets.ledger[k]))
  }

  /**
    In every reachable state the ledger rows of a ticket correspond one to one with its
    versions from 2 up to the current one, the version counts them, and the current row is
    the newest published snapshot.
   */
  lemma {:induction false} LedgerBijection(ws: seq<World>, acts: seq<Action>, i: nat, t: TicketId)
    requires Run(ws, acts) && i < |ws| && t in ws[i].tickets.rows
    ensures ws[i].tickets.rows[t].version == 1 + |LedgerOf(ws[i].tickets, t)|
    ensures forall v :: 2 <= v <= ws[i].tickets.rows[t].version ==> OneLedgerRow(ws[i], t, v)
    ensures forall k :: k in LedgerOf(ws[i].tickets, t) ==>
      2 <= ws[i].tickets.ledger[k].version <= ws[i].tickets.rows[t].version
    ensures WasPublished(ws[i].history, SnapshotOf(t, ws[i].tickets.rows[t]))
  {
    hide Inv, Run, Consistent, WasPublished;
    Reachable(ws, acts, i);
    InvConsistent(ws[i]);
    LedgerFacts(ws[i].tickets, ws[i].history, t);
    forall v | 2 <= v <= ws[i].tickets.rows[t].version
      ensures OneLedgerRow(ws[i], t, v)
    {
      assert HasVersion(ws[i].tickets, t, v);
    }
  }

  lemma InvConsistent(w: World)
    requires Inv(w)
    ensures Consistent(w.tickets, w.history)
  {
  }

  lemma {:induction false} LedgerFacts(db: TicketsDb, h: History, t: TicketId)
    requires Consistent(db, h) && t in db.rows
    ensures db.rows[t].version == 1 + |LedgerOf(db, t)|
    ensures LedgerInjective(db)
    ensures forall v :: 2 <= v <= db.rows[t].version ==> HasVersion(db, t, v)
    ensures forall k :: k in db.ledger && k.ticket == t ==>
      WasPublished(h, db.ledger[k]) && 2 <= db.ledger[k].version <= db.rows[t].version
    ensures WasPublished(h, SnapshotOf(t, db.rows[t]))
  {
  }

  /**
    Idempotent edits: any two successful calls with the same ticket, user and key return the
    same snapshot, whatever their bodies and whatever happened between them.
   */
  lemma {:induction false} EditReplayRepeats(ws: seq<World>, acts: seq<Action>, i: nat, j: nat, a: nat, b: nat,
                                             input: EditInput, input': EditInput, s: Snapshot, s': Snapshot)
    requires Run(ws, acts) && i <= j < |ws| && a < |ws[i].tasks| && b < |ws[j].tasks|
    requires ws[i].tasks[a].activity == PersistTicketUpdate(input) && TicketStored(s) in ws[i].tasks[a].replies
    requires ws[j].tasks[b].activity == PersistTicketUpdate(input') && TicketStored(s') in ws[j].tasks[b].replies
    requires KeyOf(input) == KeyOf(input')
    ensures s == s'
  {
    RunsForward(ws, acts, i, j);
    assert ReplyOk(ws[i], PersistTicketUpdate(input), TicketStored(s));
    assert ReplyOk(ws[j], PersistTicketUpdate(input'), TicketStored(s'));
  }

  /**
    From the moment a ticket is claimed until the claiming order is Canceled, every attempt to
    edit it is refused, also the replay of an edit that once succeeded, and its versions and
    ledger rows are those of that moment.
   */
  lemma {:induction false} NoEditWhileClaimed(ws: seq<World>, acts: seq<Action>, i: nat, n: nat, task: nat,
      t: TicketId, o: OrderId)
    requires Run(ws, acts) && i <= n < |acts| && Holds(ws[i], t, o) && !IsCanceled(ws[n], o) && acts[n] == Attempt(task)
    requires task < |ws[n].tasks| && ws[n].tasks[task].activity.PersistTicketUpdate?
        && ws[n].tasks[task].activity.edit.ticket == t
    ensures ws[n + 1].tickets == ws[n].tickets && ws[n + 1].history == ws[n].history
    ensures |ws[n + 1].tasks| == |ws[n].tasks| && ws[n + 1].tasks[task].last.Some?
        && ws[n + 1].tasks[task].last.value.Rejected?
    ensures t in ws[i].history && t in ws[n].history && ws[n].history[t] == ws[i].history[t]
    ensures LedgerOf(ws[n].tickets, t) == LedgerOf(ws[i].tickets, t)
  {
    hide Inv, Later, StepAttempt, IsCanceled, Consistent;
    assert Step(ws[n], acts[n], ws[n + 1]);
    ClaimRetention(ws, acts, i, n, t, o);
    RunsForward(ws, acts, i, n);
    ClaimedVersions(ws[i], ws[n], t);
    ClaimedEdit(ws[n], task, ws[n + 1], t);
  }

  /** While the version of a ticket stands still, so do its history and its ledger rows. */
  lemma {:induction false} ClaimedVersions(w: World, w': World, t: TicketId)
    requires Inv(w) && Inv(w') && Later(w, w') && t in w.tickets.rows && t in w'.tickets.rows
    requires w'.tickets.rows[t].version == w.tickets.rows[t].version
    ensures t in w.history && t in w'.history && w'.history[t] == w.history[t]
    ensures LedgerOf(w'.tickets, t) == LedgerOf(w.tickets, t)
  {
    hide Inv, Later, HistoryOk, LedgerOk, DataOk;
    InvConsistent(w);
    InvConsistent(w');
    LaterVersions(w, w', t);
    SameLedgerRows(w.tickets, w.history, w'.tickets, w'.history, t);
  }

  lemma {:induction false} SameLedgerRows(db: TicketsDb, h: History, db': TicketsDb, h': History, t: TicketId)
    requires Consistent(db, h) && Consistent(db', h') && t in db.rows && t in db'.rows
    requires db'.rows[t].version == db.rows[t].version
    requires forall k :: k in db.ledger ==> k in db'.ledger && db'.ledger[k] == db.ledger[k]
    ensures LedgerOf(db', t) == LedgerOf(db, t)
  {
    hide Consistent, WasPublished;
    LedgerFacts(db, h, t);
    LedgerFacts(db', h', t);
    forall k | k in LedgerOf(db', t)
      ensures k in LedgerOf(db, t)
    {
      assert HasVersion(db, t, db'.ledger[k].version);
      var j :| j in db.ledger && j.ticket == t && db.ledger[j].version == db'.ledger[k].version;
      assert j in db'.ledger && j == k;
    }
  }

  lemma LaterVersions(w: World, w': World, t: TicketId)
    requires Later(w, w') && HistoryOk(w.tickets, w.history) && HistoryOk(w'.tickets, w'.history)
    requires t in w.tickets.rows && t in w'.tickets.rows && w'.tickets.rows[t].version == w.tickets.rows[t].version
    ensures t in w.history && t in w'.history && w'.history[t] == w.history[t]
    ensures forall k :: k in w.tickets.ledger ==> k in w'.tickets.ledger && w'.tickets.ledger[k] == w.tickets.ledger[k]
  {
    assert w.history[t] <= w'.history[t];
  }

  lemma {:induction false} ClaimedEdit(w: World, i: nat, w': World, t: TicketId)
    requires StepAttempt(w, i, w') && i < |w.tasks| && w.tasks[i].activity.PersistTicketUpdate?
        && w.tasks[i].activity.edit.ticket == t
    requires t in w.tickets.rows && w.tickets.rows[t].reservedBy.Some?
    ensures w'.tickets == w.tickets && w'.history == w.history
    ensures |w'.tasks| == |w.tasks| && w'.tasks[i].last.Some? && w'.tasks[i].last.value.Rejected?
  {
  }

  /**
    Projection agreement: what Orders projects is exactly a published version, never ahead of
    the source; versions never go back, equal versions mean equal data, now or later.
   */
  lemma {:induction false} ProjectionAgreement(ws: seq<World>, acts: seq<Action>, i: nat, j: nat, t: TicketId)
    requires Run(ws, acts) && i <= j < |ws| && t in ws[i].orders.projection
    ensures t in ws[j].orders.projection && t in ws[i].tickets.rows && t in ws[i].history
    ensures var s, s' := ws[i].orders.projection[t], ws[j].orders.projection[t];
            && 1 <= s.version <= ws[i].tickets.rows[t].version && s.version <= |ws[i].history[t]|
            && s == ws[i].history[t][s.version - 1]
            && s.version <= s'.version
            && (s.version == s'.version ==> s == s')
  {
    RunsForward(ws, acts, i, j);
    var s, s' := ws[i].orders.projection[t], ws[j].orders.projection[t];
    assert WasPublished(ws[i].history, s) && WasPublished(ws[j].history, s');
    assert ws[i].history[t] <= ws[j].history[t];
  }

  lemma {:induction false} UpdateMovesProjection(db: OrdersDb, now: Time, activity: Activity, t: TicketId)
    requires TwoStatement(activity) && t in db.projection
    ensures var db' := Update(db, now, activity).0;
            && t in db'.projection
            && (db'.projection[t] == db.projection[t] || db'.projection[t].version == db.projection[t].version + 1)
  {
  }

  /** After the first insert a projection moves by exactly one version at a time. */
  lemma {:induction false} ProjectionMovesByOne(ws: seq<World>, acts: seq<Action>, n: nat, t: TicketId)
    requires Run(ws, acts) && n < |acts| && t in ws[n].orders.projection
    ensures t in ws[n + 1].orders.projection
    ensures ws[n + 1].orders.projection[t] == ws[n].orders.projection[t]
      || ws[n + 1].orders.projection[t].version == ws[n].orders.projection[t].version + 1
  {
    hide Step, Update;
    var w := ws[n];
    assert Step(w, acts[n], ws[n + 1]);
    OrdersFrame(w, acts[n], ws[n + 1]);
    if acts[n].Attempt? && TwoStatement(w.tasks[acts[n].task].activity) {
      UpdateMovesProjection(w.orders, w.now, w.tasks[acts[n].task].activity, t);
    }
  }

  lemma InvTask(w: World, i: nat)
    requires Inv(w) && i < |w.tasks|
    ensures TaskOk(w, w.tasks[i].activity) && ReferencesOk(w)
    ensures HistoryOk(w.tickets, w.history) && DataOk(w.history)
  {
  }

  /** The same-version-different-data conflict cannot arise: such a projection is already applied. */
  lemma {:induction false} NoSameVersionConflict(ws: seq<World>, acts: seq<Action>, i: nat, task: nat, s: Snapshot)
    requires Run(ws, acts) && i < |ws| && task < |ws[i].tasks| && ws[i].tasks[task].activity == ProjectTicket(s)
    ensures s.ticket in ws[i].orders.projection && ws[i].orders.projection[s.ticket].version == s.version ==>
      ws[i].orders.projection[s.ticket] == s
  {
    hide Inv, HistoryOk;
    Reachable(ws, acts, i);
    InvTask(ws[i], task);
    if s.ticket in ws[i].orders.projection {
      assert WasPublished(ws[i].history, ws[i].orders.projection[s.ticket]);
    }
  }

  /**
    A replayed edit goes through the workflow exactly when the snapshot it gets back is the
    projected version or the next one; an older snapshot is refused as a conflict.
   */
  lemma {:induction false} ProjectionAcceptedIff(ws: seq<World>, acts: seq<Action>, i: nat, task: nat, s: Snapshot)
    requires Run(ws, acts) && i < |ws| && task < |ws[i].tasks| && ws[i].tasks[task].activity == ProjectTicket(s)
    requires s.ticket in ws[i].orders.projection
    ensures var v := ws[i].orders.projection[s.ticket].version;
            var reply := Atomic(ws[i].orders, ws[i].now, ProjectTicket(s)).1;
            && (reply == Some(Projected) <==> v == s.version || v == s.version - 1)
            && (reply == Some(Rejected(InvalidProjection)) <==> s.version < v)
            && (reply == None <==> v < s.version - 1)
  {
    hide Inv, HistoryOk, WasPublished, ReferencesOk;
    NoSameVersionConflict(ws, acts, i, task, s);
    Reachable(ws, acts, i);
    InvTask(ws[i], task);
    PublishedIsValid(ws[i], s);
  }

  lemma {:induction false} PublishedIsValid(w: World, s: Snapshot)
    requires DataOk(w.history) && WasPublished(w.history, s)
    ensures ValidProjection(s)
  {
    assert w.history[s.ticket][s.version - 1] == s;
  }

  /**
    Creation replay: a successful PersistTicket returned the source's true version 1, and
    repeating it at any later time returns the same reply and changes nothing.
   */
  lemma {:induction false} CreationReplay(ws: seq<World>, acts: seq<Action>, i: nat, j: nat, task: nat,
      input: TicketInput, reply: Reply)
    requires Run(ws, acts) && i <= j < |ws| && task < |ws[i].tasks|
        && ws[i].tasks[task].activity == PersistTicket(input)
    requires reply in ws[i].tasks[task].replies && reply.TicketStored?
    ensures reply == TicketStored(FirstVersion(input))
    ensures WasPublished(ws[j].history, FirstVersion(input))
    ensures Perform(ws[j].tickets, PersistTicket(input)) == (ws[j].tickets, reply)
  {
    RunsForward(ws, acts, i, j);
    assert ReplyOk(ws[i], PersistTicket(input), reply);
    StaysPublished(ws[i].history, ws[j].history, FirstVersion(input));
    assert ws[j].tasks[task].activity == PersistTicket(input);
    assert CreationOk(ws[j], input);
    assert input.ticket in ws[j].tickets.rows;
  }

  /* ---- Payments ---- */

  /**
    Payments and Orders agree, for any number of workers, restarts, expired leases and
    changed configured outcomes: every resolution in flight carries the payment's one stored
    outcome; a payment without outcome belongs to an order awaiting payment; one with an
    outcome to an order awaiting payment or settled accordingly; a terminal payment to an
    order, and a copy in Payments, that both are ExpectedOrderStatus of it. No resolution is
    ever refused, and no worker is ever told a conflicting status.
   */
  lemma {:induction false} SettlementAgreement(ws: seq<World>, acts: seq<Action>, i: nat)
    requires Run(ws, acts) && i < |ws|
    ensures forall o :: o in ws[i].payments.byOrder ==> PaymentAgrees(ws[i], o)
    ensures forall k :: 0 <= k < |ws[i].tasks| && ws[i].tasks[k].activity.ResolvePayment? ==>
      && HasOutcome(ws[i].payments, ws[i].tasks[k].activity.order, ws[i].tasks[k].activity.outcome)
      && forall e :: Rejected(e) !in ws[i].tasks[k].replies
    ensures forall a :: a in ws[i].answers ==> ExpectedOrderStatus(a.0.outcome) == Some(a.1)
  {
    hide Inv, Run, PaymentAgrees, HasOutcome;
    Reachable(ws, acts, i);
    InvPayments(ws[i]);
    ResolutionsCarryOutcome(ws[i]);
    AnswersAsExpected(ws[i]);
  }

  lemma InvPayments(w: World)
    requires Inv(w)
    ensures forall o :: o in w.payments.byOrder ==> PaymentAgrees(w, o)
  {
    hide PaymentAgrees;
  }

  lemma {:induction false} ResolutionsCarryOutcome(w: World)
    requires Inv(w)
    ensures forall k :: 0 <= k < |w.tasks| && w.tasks[k].activity.ResolvePayment? ==>
      && HasOutcome(w.payments, w.tasks[k].activity.order, w.tasks[k].activity.outcome)
      && forall e :: Rejected(e) !in w.tasks[k].replies
  {
    hide Consistent, ReferencesOk, ClaimsOk, UniqueOk, LocksOk, PaymentsOk, MissesOk, CreationsOk, FlowsOk, WorkersOk;
    forall k | 0 <= k < |w.tasks| && w.tasks[k].activity.ResolvePayment?
      ensures HasOutcome(w.payments, w.tasks[k].activity.order, w.tasks[k].activity.outcome)
      ensures forall e :: Rejected(e) !in w.tasks[k].replies
    {
      assert TaskOk(w, w.tasks[k].activity);
      forall r | r in w.tasks[k].replies
        ensures !r.Rejected?
      {
        assert ReplyOk(w, w.tasks[k].activity, r);
      }
    }
  }

  lemma {:induction false} AnswersAsExpected(w: World)
    requires Inv(w)
    ensures forall a :: a in w.answers ==> ExpectedOrderStatus(a.0.outcome) == Some(a.1)
  {
    forall a | a in w.answers
      ensures ExpectedOrderStatus(a.0.outcome) == Some(a.1)
    {
      assert AnswerOk(w, a.0, a.1);
    }
  }

  /**
    An order has at most one payment, forever the same one: every CreatePayment by its owner
    finds that payment, also after settlement, and every stored reply names it.
   */
  lemma {:induction false} OnePaymentPerOrder(ws: seq<World>, acts: seq<Action>, i: nat, j: nat, p: PaymentId)
    requires Run(ws, acts) && i <= j < |ws| && p in ws[i].payments.payments
    ensures PaymentStore.IndexOk(ws[j].payments)
    ensures var o := ws[i].payments.payments[p].order;
            && p in ws[j].payments.payments && ws[j].payments.payments[p].order == o
            && (forall q :: q in ws[j].payments.payments && ws[j].payments.payments[q].order == o ==> q == p)
            && o in ws[j].orders.orders
            && PaymentStore.FindByOrderAndUser(ws[j].payments, o, ws[j].orders.orders[o].user)
                == Some(ws[j].payments.payments[p])
            && (forall k | 0 <= k < |ws[j].tasks| && ws[j].tasks[k].activity.PersistPayment? ::
                 ws[j].tasks[k].activity.order == o ==> RepliesName(ws[j].tasks[k].replies, p))
  {
    hide Inv, Later, PaymentAgrees;
    RunsForward(ws, acts, i, j);
    PaymentStays(ws[i], ws[j], p);
    var o := ws[i].payments.payments[p].order;
    forall k | 0 <= k < |ws[j].tasks| && ws[j].tasks[k].activity.PersistPayment? && ws[j].tasks[k].activity.order == o
      ensures RepliesName(ws[j].tasks[k].replies, p)
    {
      PersistRepliesName(ws[j], k);
    }
  }

  ghost predicate RepliesName(replies: set<Reply>, p: PaymentId) {
    forall r :: r in replies ==> r.PaymentStored? && r.payment.id == p
  }

  lemma {:induction false} PaymentStays(w: World, w': World, p: PaymentId)
    requires Inv(w') && Later(w, w') && p in w.payments.payments
    ensures PaymentStore.IndexOk(w'.payments)
    ensures p in w'.payments.payments
    ensures var o := w.payments.payments[p].order;
            && w'.payments.payments[p].order == o && o in w'.payments.byOrder && w'.payments.byOrder[o] == p
            && o in w'.orders.orders && w'.payments.copies[o].user == w'.orders.orders[o].user
  {
    assert PaymentAgrees(w', w.payments.payments[p].order);
  }

  lemma {:induction false} PersistRepliesName(w: World, k: nat)
    requires Inv(w) && k < |w.tasks| && w.tasks[k].activity.PersistPayment?
    ensures w.tasks[k].activity.order in w.payments.byOrder ==>
      RepliesName(w.tasks[k].replies, w.payments.byOrder[w.tasks[k].activity.order])
  {
    forall r | r in w.tasks[k].replies
      ensures ReplyOk(w, w.tasks[k].activity, r)
    {
    }
  }

  /** All claims of one payment, by any worker with any configured outcome, return the first claim's outcome. */
  lemma {:induction false} ClaimsRepeatOutcome(ws: seq<World>, acts: seq<Action>, i: nat, j: nat, c: SettlementClaim,
      c': SettlementClaim)
    requires Run(ws, acts) && i <= j < |ws| && c in ws[i].claims && c' in ws[j].claims && c.payment == c'.payment
    ensures c == c'
  {
    RunsForward(ws, acts, i, j);
    assert ClaimOk(ws[j], c) && ClaimOk(ws[j], c');
  }

  /**
    The first claim of a payment decides it: from then on its outcome is the one that the
    claiming worker was configured with, its status is Pending or that outcome, and its order
    awaits payment or is Complete for a success and Canceled for a failure.
   */
  lemma {:induction false} FirstClaimDecides(ws: seq<World>, acts: seq<Action>, i: nat, j: nat)
    requires Run(ws, acts) && i < j < |ws| && acts[i].ClaimPayment? && acts[i].payment in ws[i].payments.payments
    requires ws[i].payments.payments[acts[i].payment].outcome == None
    ensures acts[i].payment in ws[j].payments.payments
    ensures var payment, configured := ws[j].payments.payments[acts[i].payment], acts[i].configured;
            && payment.outcome == Some(configured) && configured in {Succeeded, Failed}
            && payment.status in {Pending, configured}
            && payment.order == ws[i].payments.payments[acts[i].payment].order
            && payment.order in ws[j].orders.orders
            && ws[j].orders.orders[payment.order].status in
                 {AwaitingPayment, if configured == Succeeded then Complete else Canceled}
            && (payment.status == configured ==> ws[j].orders.orders[payment.order].status != AwaitingPayment)
  {
    hide Inv, Init, Evolves, RowsEvolve, LedgerGrows, HistoryGrows, CheckoutsEvolve, TasksEvolve;
    var p := acts[i].payment;
    assert Step(ws[i], acts[i], ws[i + 1]);
    ClaimWrites(ws[i], acts[i], ws[i + 1]);
    RunsForward(ws, acts, i + 1, j);
    Reachable(ws, acts, j);
    InvPaymentOf(ws[j], p);
  }

  lemma ClaimWrites(w: World, a: Action, w': World)
    requires Step(w, a, w') && a.ClaimPayment? && a.payment in w.payments.payments
    requires w.payments.payments[a.payment].outcome == None
    ensures a.configured != Pending && a.payment in w'.payments.payments
    ensures w'.payments.payments[a.payment].outcome == Some(a.configured)
    ensures w'.payments.payments[a.payment].order == w.payments.payments[a.payment].order
  {
    hide PaymentStore.NextPending;
  }

  lemma InvPaymentOf(w: World, p: PaymentId)
    requires Inv(w) && p in w.payments.payments
    ensures var o := w.payments.payments[p].order;
            && PaymentAgrees(w, o) && w.payments.byOrder[o] == p
  {
    hide PaymentAgrees, Consistent, TaskOk, ReplyOk, FlowOk, LockOk;
  }

  /** Payment p is terminal, or still under the lease that ends at until, or that lease's end has passed. */
  ghost predicate LeaseRespected(w: World, p: PaymentId, until: Time) {
    && p in w.payments.payments
    && (w.payments.payments[p].status != Pending || w.payments.payments[p].lease == Some(until) || until <= w.now)
  }

  lemma {:induction false} LeaseStep(w: World, a: Action, w': World, p: PaymentId, until: Time)
    requires Step(w, a, w') && w.now <= w'.now && LeaseRespected(w, p, until)
    ensures LeaseRespected(w', p, until)
  {
    hide StepAttempt, LeaseRespected;
    PaymentsFrame(w, a, w');
    match a
    case AttemptPayment(i, id) => CreateKeepsLease(w, w', p, until, w.tasks[i].activity, id);
    case ClaimPayment(q, configured, end, locked) => ClaimKeepsLease(w, w', p, until, q, configured, end, locked);
    case MarkPayment(c) => MarkKeepsLease(w, w', p, until, c);
    case _ => SamePaymentsKeepLease(w, w', p, until);
  }

  lemma SamePaymentsKeepLease(w: World, w': World, p: PaymentId, until: Time)
    requires w'.payments == w.payments && w.now <= w'.now && LeaseRespected(w, p, until)
    ensures LeaseRespected(w', p, until)
  {
  }

  lemma CreateKeepsLease(w: World, w': World, p: PaymentId, until: Time, activity: Activity, id: PaymentId)
    requires PaymentStore.IndexOk(w.payments) && id !in w.payments.payments && activity.PersistPayment?
    requires w'.payments
        == PaymentStore.Create(w.payments, id, activity.order,
            PaymentStore.OrderCopy(activity.user, activity.price, AwaitingPayment)).0
    requires w.now <= w'.now && LeaseRespected(w, p, until)
    ensures LeaseRespected(w', p, until)
  {
  }

  lemma ClaimKeepsLease(w: World, w': World, p: PaymentId, until: Time, q: PaymentId, configured: PaymentStatus,
      end: Time, locked: set<PaymentId>)
    requires StepClaimPayment(w, q, configured, end, locked, w')
    requires w.now <= w'.now && LeaseRespected(w, p, until)
    ensures LeaseRespected(w', p, until)
  {
  }

  lemma MarkKeepsLease(w: World, w': World, p: PaymentId, until: Time, c: SettlementClaim)
    requires StepMarkPayment(w, c, w')
    requires w.now <= w'.now && LeaseRespected(w, p, until)
    ensures LeaseRespected(w', p, until)
  {
  }

  lemma {:induction false} LeaseLasts(ws: seq<World>, acts: seq<Action>, i: nat, j: nat, p: PaymentId, until: Time)
    requires Run(ws, acts) && i <= j < |ws| && LeaseRespected(ws[i], p, until)
    ensures LeaseRespected(ws[j], p, until)
    decreases j - i
  {
    hide Inv, Step, LeaseRespected, Evolves, RowsEvolve, LedgerGrows, HistoryGrows, PaymentsEvolve, CheckoutsEvolve,
         TasksEvolve;
    if i < j {
      LeaseLasts(ws, acts, i, j - 1, p, until);
      RunsForward(ws, acts, j - 1, j);
      LeaseStep(ws[j - 1], acts[j - 1], ws[j], p, until);
    }
  }

  /** Two claims of one payment are separated by the database clock reaching the end of the earlier lease. */
  lemma {:induction false} LeasesDoNotOverlap(ws: seq<World>, acts: seq<Action>, i: nat, j: nat)
    requires Run(ws, acts) && i < j < |acts| && acts[i].ClaimPayment? && acts[j].ClaimPayment?
    requires acts[i].payment == acts[j].payment
    ensures acts[i].until <= ws[j].now
  {
    hide Inv, Later;
    assert Step(ws[i], acts[i], ws[i + 1]) && Step(ws[j], acts[j], ws[j + 1]);
    assert LeaseRespected(ws[i + 1], acts[i].payment, acts[i].until);
    LeaseLasts(ws, acts, i + 1, j, acts[i].payment, acts[i].until);
  }

  /* ---- Runs of the update workflow ---- */

  /** No run of a ticket's update workflow has ever completed a hundred edits: it continued as new at the hundredth. */
  lemma {:induction false} UpdateRunsStayShort(ws: seq<World>, acts: seq<Action>, i: nat, t: TicketId)
    requires Run(ws, acts) && i < |ws| && t in ws[i].updates
    ensures ws[i].updates[t].completed < 100
  {
    hide Init, Step;
    if i > 0 {
      assert Step(ws[i - 1], acts[i - 1], ws[i]);
      CompletedMoves(ws[i - 1], acts[i - 1], ws[i], t);
      if t in ws[i - 1].updates { UpdateRunsStayShort(ws, acts, i - 1, t); }
    } else {
      NoUpdatesYet(ws[0]);
    }
  }

  lemma NoUpdatesYet(w: World)
    requires Init(w)
    ensures w.updates == map[]
  {
  }

  lemma {:induction false} CompletedMoves(w: World, a: Action, w': World, t: TicketId)
    requires Step(w, a, w') && t in w'.updates
    ensures w'.updates[t].completed < 100 || (t in w.updates && w'.updates[t].completed == w.updates[t].completed)
  {
    hide Step;
    if AttemptLike(a) {
      AttemptShape(w, a, w');
    } else if a.Deliver? || a.DeliverEdit? {
      StepIs(w, a, w');
      HearingMoves(w, a, w', t);
    } else {
      OtherMoves(w, a, w', t);
    }
  }

  lemma HearingMoves(w: World, a: Action, w': World, t: TicketId)
    requires t in w'.updates
    requires if a.DeliverEdit? then StepDeliverEdit(w, a.ticket, a.reply, w')
             else a.Deliver? && StepDeliver(w, a.flow, a.reply, w')
    ensures w'.updates[t].completed < 100 || (t in w.updates && w'.updates[t].completed == w.updates[t].completed)
  {
    hide Advance;
  }

  lemma {:induction false} OtherMoves(w: World, a: Action, w': World, t: TicketId)
    requires Step(w, a, w') && !AttemptLike(a) && !a.Deliver? && !a.DeliverEdit? && t in w'.updates
    ensures w'.updates[t].completed < 100 || (t in w.updates && w'.updates[t].completed == w.updates[t].completed)
  {
    hide KeyOf, CanStart, StepDeliver, StepDeliverEdit;
  }

  /* ---- The charged price ---- */

  /**
    The price that Payments stores for an order never changes, and it is the price of some
    published version of that order's ticket.
   */
  lemma {:induction false} ChargedPriceWasPublished(ws: seq<World>, acts: seq<Action>, i: nat, j: nat, o: OrderId)
    requires Run(ws, acts) && i <= j < |ws| && o in ws[i].payments.copies
    ensures o in ws[j].payments.copies && ws[j].payments.copies[o].price == ws[i].payments.copies[o].price
    ensures o in ws[j].orders.orders
    ensures PublishedPrice(ws[j].history, ws[j].orders.orders[o].ticket, ws[i].payments.copies[o].price)
  {
    RunsForward(ws, acts, i, j);
    assert o in ws[i].payments.byOrder;
    assert PaymentAgrees(ws[j], o);
  }

  /** Order o holds its ticket's row as it is, and the projection has caught up with it. */
  ghost predicate PinnedRow(w: World, o: OrderId, t: TicketId, row: Row) {
    && o in w.orders.orders && w.orders.orders[o].ticket == t && w.orders.orders[o].status != Created
    && t in w.tickets.rows && w.tickets.rows[t] == row && row.reservedBy == Some(o)
    && t in w.orders.projection && w.orders.projection[t] == SnapshotOf(t, row)
  }

  /** The row stays pinned until the order is Canceled. */
  ghost predicate Charged(w: World, o: OrderId, t: TicketId, row: Row) {
    PinnedRow(w, o, t, row) || IsCanceled(w, o)
  }

  /** Every price seen for order o is this one. */
  ghost predicate PinnedPrice(w: World, o: OrderId, price: int) {
    && (o in w.payments.copies ==> w.payments.copies[o].price == price)
    && (forall i :: 0 <= i < |w.tasks| && w.tasks[i].activity.PersistPayment? && w.tasks[i].activity.order == o ==>
         w.tasks[i].activity.price == price)
    && (forall i, r :: 0 <= i < |w.tasks| && r in w.tasks[i].replies ==> PinnedReply(r, o, price))
  }

  ghost predicate PinnedReply(r: Reply, o: OrderId, price: int) {
    r.CheckoutStarted? && r.orderId == o ==> r.price == price
  }

  lemma {:induction false} PinnedRowStays(w: World, w': World, o: OrderId, t: TicketId, row: Row)
    requires Inv(w') && Later(w, w') && PinnedRow(w, o, t, row) && !IsCanceled(w', o)
    ensures PinnedRow(w', o, t, row)
  {
    hide PaymentsOk, TasksOk, RepliesOk, MissesOk, CreationsOk, FlowsOk, WorkersOk, LocksOk, UniqueOk, ClaimsOk,
         LedgerOk;
    hide PaymentsEvolve, CheckoutsEvolve, LedgerGrows, HistoryGrows, TasksEvolve;
    CaughtUp(w', t);
  }

  /** A projection whose version is the source's is the source's snapshot. */
  lemma {:induction false} CaughtUp(w: World, t: TicketId)
    requires HistoryOk(w.tickets, w.history) && ReferencesOk(w) && t in w.orders.projection
    ensures t in w.tickets.rows && w.orders.projection[t].version <= w.tickets.rows[t].version
    ensures w.orders.projection[t].version == w.tickets.rows[t].version ==>
      w.orders.projection[t] == SnapshotOf(t, w.tickets.rows[t])
  {
    assert WasPublished(w.history, w.orders.projection[t]);
  }

  lemma {:induction false} ComputedPrice(w: World, i: nat, r: Reply, o: OrderId, t: TicketId, row: Row)
    requires Inv(w) && JustComputed(w, i, r) && Charged(w, o, t, row)
    ensures PinnedReply(r, o, row.price)
  {
    hide Inv, WasPublished;
  }

  lemma {:induction false} PinnedPriceStays(w: World, a: Action, w': World, o: OrderId, t: TicketId, row: Row)
    requires Inv(w) && Step(w, a, w') && Later(w, w') && Charged(w, o, t, row) && PinnedPrice(w, o, row.price)
    ensures PinnedPrice(w', o, row.price)
  {
    hide Inv, Step, Charged, PinnedReply, JustComputed, HasReply;
    hide RowsEvolve, LedgerGrows, HistoryGrows, CheckoutsEvolve, Evolves;
    forall i, r | 0 <= i < |w'.tasks| && r in w'.tasks[i].replies
      ensures PinnedReply(r, o, row.price)
    {
      if i >= |w.tasks| {
        NewTaskSilent(w, a, w', i);
      } else if r !in w.tasks[i].replies {
        NewReplyPinned(w, a, w', i, r, o, t, row);
      }
    }
    forall i | 0 <= i < |w'.tasks| && w'.tasks[i].activity.PersistPayment? && w'.tasks[i].activity.order == o
      ensures w'.tasks[i].activity.price == row.price
    {
      if i >= |w.tasks| {
        NewPaymentTask(w, a, w', i);
        PinnedHasReply(w, o, w'.tasks[i].activity.user, w'.tasks[i].activity.price, row.price);
      }
    }
    if o in w'.payments.copies && o !in w.payments.copies {
      PaymentCopyPinned(w, a, w', o);
    }
  }

  lemma {:induction false} NewReplyPinned(w: World, a: Action, w': World, i: nat, r: Reply, o: OrderId, t: TicketId,
      row: Row)
    requires Inv(w) && Step(w, a, w') && i < |w.tasks| <= |w'.tasks| && Charged(w, o, t, row)
    requires r in w'.tasks[i].replies && r !in w.tasks[i].replies
    ensures PinnedReply(r, o, row.price)
  {
    hide Inv, Step, Charged, JustComputed;
    if r.CheckoutStarted? {
      NewReply(w, a, w', i, r);
      ComputedPrice(w, i, r, o, t, row);
    }
  }

  lemma {:induction false} PinnedHasReply(w: World, o: OrderId, u: UserId, price: int, pinned: int)
    requires HasReply(w, CheckoutStarted(o, u, price)) && PinnedPrice(w, o, pinned)
    ensures price == pinned
  {
    var k :| 0 <= k < |w.tasks| && CheckoutStarted(o, u, price) in w.tasks[k].replies;
    assert PinnedReply(CheckoutStarted(o, u, price), o, pinned);
  }

  lemma {:induction false} PaymentCopyPinned(w: World, a: Action, w': World, o: OrderId)
    requires Inv(w) && Step(w, a, w') && o !in w.payments.copies && o in w'.payments.copies
    ensures exists i | 0 <= i < |w.tasks| ::
      w.tasks[i].activity.PersistPayment? && w.tasks[i].activity.order == o
          && w.tasks[i].activity.price == w'.payments.copies[o].price
  {
    hide Step, Consistent, ReferencesOk, ClaimsOk, UniqueOk, LocksOk, TasksOk, RepliesOk, MissesOk, CreationsOk,
         FlowsOk, WorkersOk, PaymentAgrees;
    NewCopy(w, a, w', o);
  }

  /** Checkout of o takes effect at step n, while o holds its ticket's claim and the projection has caught up. */
  ghost predicate CheckoutTakesEffect(w: World, a: Action, w': World, o: OrderId) {
    && o in w.orders.orders && o in w'.orders.orders
    && w.orders.orders[o].status == Created && w'.orders.orders[o].status == AwaitingPayment
    && Holds(w, w.orders.orders[o].ticket, o)
    && w.orders.orders[o].ticket in w.orders.projection
    && w.orders.projection[w.orders.orders[o].ticket].version == w.tickets.rows[w.orders.orders[o].ticket].version
  }

  lemma {:induction false} CheckoutPins(w: World, a: Action, w': World, o: OrderId)
    requires Inv(w) && Step(w, a, w') && CheckoutTakesEffect(w, a, w', o)
    ensures var t := w.orders.orders[o].ticket;
            PinnedRow(w', o, t, w.tickets.rows[t]) && PinnedPrice(w', o, w.tickets.rows[t].price)
  {
    hide Inv, Step, StepAttempt, HistoryOk, ReferencesOk, PinnedPrice;
    var t := w.orders.orders[o].ticket;
    InvTablesOnly(w, o);
    CaughtUp(w, t);
    CheckoutIsAttempt(w, a, w', o);
    NoCheckoutYet(w, o);
    CheckoutStep(w, a, w', o);
  }

  /** Only an attempt of StartOrderPayment by the order's user starts its checkout. */
  lemma {:induction false} CheckoutIsAttempt(w: World, a: Action, w': World, o: OrderId)
    requires Step(w, a, w') && CheckoutTakesEffect(w, a, w', o) && w.orders.orders[o].id == o
    ensures a.Attempt? && a.task < |w.tasks| && StepAttempt(w, a.task, w')
    ensures w.tasks[a.task].activity == StartOrderPayment(o, w.orders.orders[o].user)
  {
    hide Step, StepAttempt;
    StatusChanges(w, a, w', o);
    StepIs(w, a, w');
  }

  lemma InvTablesOnly(w: World, o: OrderId)
    requires Inv(w)
    ensures ReferencesOk(w) && HistoryOk(w.tickets, w.history)
    ensures o in w.orders.orders ==> w.orders.orders[o].id == o
  {
  }

  /** Before checkout took effect, no price was seen anywhere. */
  lemma {:induction false} NoCheckoutYet(w: World, o: OrderId)
    requires Inv(w) && o in w.orders.orders && w.orders.orders[o].status == Created
    ensures o !in w.payments.copies
    ensures forall i :: 0 <= i < |w.tasks| && w.tasks[i].activity.PersistPayment? ==> w.tasks[i].activity.order != o
    ensures forall i, r :: 0 <= i < |w.tasks| && r in w.tasks[i].replies && r.CheckoutStarted? ==> r.orderId != o
  {
    hide Inv;
    NoPaymentYet(w, o);
    InvReplies(w);
    forall i | 0 <= i < |w.tasks| && w.tasks[i].activity.PersistPayment?
      ensures w.tasks[i].activity.order != o
    {
      InvTask(w, i);
    }
    forall i, r | 0 <= i < |w.tasks| && r in w.tasks[i].replies && r.CheckoutStarted?
      ensures r.orderId != o
    {
      assert ReplyOk(w, w.tasks[i].activity, r);
    }
  }

  lemma {:induction false} NoPaymentYet(w: World, o: OrderId)
    requires Inv(w) && o in w.orders.orders && w.orders.orders[o].status == Created
    ensures o !in w.payments.copies
  {
    hide Consistent, ReferencesOk, ClaimsOk, UniqueOk, LocksOk, TasksOk, RepliesOk, MissesOk, CreationsOk, FlowsOk,
         WorkersOk;
    forall p | p in w.payments.byOrder
      ensures w.orders.orders[p].status != Created
    {
      assert PaymentAgrees(w, p);
    }
  }

  lemma {:induction false} CheckoutStep(w: World, a: Action, w': World, o: OrderId)
    requires a.Attempt? && a.task < |w.tasks| && StepAttempt(w, a.task, w') && o in w.orders.orders
    requires w.tasks[a.task].activity == StartOrderPayment(o, w.orders.orders[o].user)
    requires w.orders.orders[o].status == Created && w.orders.orders[o].ticket in w.orders.projection
    requires o !in w.payments.copies
    requires forall i :: 0 <= i < |w.tasks| && w.tasks[i].activity.PersistPayment? ==> w.tasks[i].activity.order != o
    requires forall i, r :: 0 <= i < |w.tasks| && r in w.tasks[i].replies && r.CheckoutStarted? ==> r.orderId != o
    ensures PinnedPrice(w', o, w.orders.projection[w.orders.orders[o].ticket].price)
    ensures w'.orders.projection == w.orders.projection && w'.tickets == w.tickets
    ensures o in w'.orders.orders && w'.orders.orders[o].ticket == w.orders.orders[o].ticket
  {
  }

  /**
    If the claim was held and the projection had caught up when checkout took effect, then
    the price that Payments ever stores for the order is the source row's price at that
    moment, and the source row stays as it was for as long as the order is not Canceled.
   */
  lemma {:induction false} ChargedPriceIsSourcePrice(ws: seq<World>, acts: seq<Action>, n: nat, j: nat, o: OrderId)
    requires Run(ws, acts) && n < j < |ws| && CheckoutTakesEffect(ws[n], acts[n], ws[n + 1], o)
    ensures var t := ws[n].orders.orders[o].ticket;
            && (o in ws[j].payments.copies ==> ws[j].payments.copies[o].price == ws[n].tickets.rows[t].price)
            && (!IsCanceled(ws[j], o) ==> t in ws[j].tickets.rows && ws[j].tickets.rows[t] == ws[n].tickets.rows[t])
  {
    hide Inv, Later, Step, PinnedReply;
    PinnedFrom(ws, acts, n, j, o);
    assert PinnedPrice(ws[j], o, ws[n].tickets.rows[ws[n].orders.orders[o].ticket].price);
  }

  /** Under the same condition every reply that a checkout of the order ever gets carries that price. */
  lemma {:induction false} CheckoutRepeatsPrice(ws: seq<World>, acts: seq<Action>, n: nat, j: nat, o: OrderId, i: nat,
      reply: Reply)
    requires Run(ws, acts) && n < j < |ws| && CheckoutTakesEffect(ws[n], acts[n], ws[n + 1], o)
    requires i < |ws[j].tasks| && reply in ws[j].tasks[i].replies && reply.CheckoutStarted? && reply.orderId == o
    ensures reply.price == ws[n].tickets.rows[ws[n].orders.orders[o].ticket].price
  {
    hide Inv, Later, Step, Charged;
    PinnedFrom(ws, acts, n, j, o);
    assert PinnedReply(reply, o, ws[n].tickets.rows[ws[n].orders.orders[o].ticket].price);
  }

  lemma {:induction false} PinnedFrom(ws: seq<World>, acts: seq<Action>, n: nat, j: nat, o: OrderId)
    requires Run(ws, acts) && n < j < |ws| && CheckoutTakesEffect(ws[n], acts[n], ws[n + 1], o)
    ensures var t := ws[n].orders.orders[o].ticket;
            Charged(ws[j], o, t, ws[n].tickets.rows[t]) && PinnedPrice(ws[j], o, ws[n].tickets.rows[t].price)
    decreases j
  {
    hide Inv, Later, Step, PinnedRow, PinnedPrice, IsCanceled;
    var t := ws[n].orders.orders[o].ticket;
    RunsForward(ws, acts, j - 1, j);
    assert Step(ws[j - 1], acts[j - 1], ws[j]);
    if j == n + 1 {
      CheckoutPins(ws[n], acts[n], ws[n + 1], o);
    } else {
      PinnedFrom(ws, acts, n, j - 1, o);
      if IsCanceled(ws[j - 1], o) {
        CancelStays(ws[j - 1], ws[j], o);
      } else if !IsCanceled(ws[j], o) {
        PinnedRowStays(ws[j - 1], ws[j], o, t, ws[n].tickets.rows[t]);
      }
      PinnedPriceStays(ws[j - 1], acts[j - 1], ws[j], o, t, ws[n].tickets.rows[t]);
    }
  }

  lemma CancelStays(w: World, w': World, o: OrderId)
    requires Later(w, w') && IsCanceled(w, o)
    ensures IsCanceled(w', o)
  {
  }

  /* ---- Workflows ---- */

  /** What a finished workflow reported stays true in every later state. */
  lemma {:induction false} ResultsStayTrue(ws: seq<World>, acts: seq<Action>, i: nat, j: nat, f: FlowId)
    requires Run(ws, acts) && i <= j < |ws| && f in ws[i].flows && ws[i].flows[f].Completed?
    ensures ResultOk(ws[j], f, ws[i].flows[f].result)
  {
    RunsForward(ws, acts, i, j);
    assert FlowOk(ws[i], f, ws[i].flows[f]);
    ResultStaysOk(ws[i], ws[j], f, ws[i].flows[f].result);
  }

  /** Creation tasks belong to the run of their key, one each. */
  ghost predicate CreationOwners(w: World) {
    && (forall i :: 0 <= i < |w.tasks| && w.tasks[i].activity.PersistTicket? ==>
         w.tasks[i].owner.CreateTicketFlow? && w.tasks[i].owner in w.flows)
    && (forall i, j ::
         0 <= i < j < |w.tasks| && w.tasks[i].activity.PersistTicket? && w.tasks[j].activity.PersistTicket? ==>
         w.tasks[i].owner != w.tasks[j].owner)
  }

  lemma {:induction false} OwnersReachable(ws: seq<World>, acts: seq<Action>, i: nat)
    requires Run(ws, acts) && i < |ws|
    ensures CreationOwners(ws[i])
  {
    hide Inv, Step, Evolves, RowsEvolve, LedgerGrows, HistoryGrows, PaymentsEvolve, CheckoutsEvolve;
    if i > 0 {
      OwnersReachable(ws, acts, i - 1);
      RunsForward(ws, acts, i - 1, i);
      var w, a, w' := ws[i - 1], acts[i - 1], ws[i];
      assert Step(w, a, w');
      FlowsStay(w, a, w');
      forall k | |w.tasks| <= k < |w'.tasks| && w'.tasks[k].activity.PersistTicket?
        ensures k == |w.tasks| && w'.tasks[k].owner.CreateTicketFlow? && w'.tasks[k].owner !in w.flows
            && w'.tasks[k].owner in w'.flows
      {
        NewCreationTask(w, a, w', k);
      }
    }
  }

  /**
    One ticket per creation key: within the runs that are retained, all creation attempts
    under one (user, key) belong to one task, so they name one ticket ID.
   */
  lemma {:induction false} OneTicketPerKey(ws: seq<World>, acts: seq<Action>, i: nat, j: nat, a: nat, b: nat,
      key: CreationKey)
    requires Run(ws, acts) && i <= j < |ws| && a < |ws[i].tasks| && b < |ws[j].tasks|
    requires ws[i].tasks[a].activity.PersistTicket? && ws[i].tasks[a].owner == CreateTicketFlow(key)
    requires ws[j].tasks[b].activity.PersistTicket? && ws[j].tasks[b].owner == CreateTicketFlow(key)
    ensures a == b && ws[i].tasks[a].activity == ws[j].tasks[b].activity
  {
    hide Inv;
    RunsForward(ws, acts, i, j);
    OwnersReachable(ws, acts, j);
  }
}
