/**
  Which workflows can go on: from every state that a tidy run reaches, every workflow that
  waits can be carried to its next delivery by a few more steps of ordinary retries, except
  a reservation that runs into its own canceled order; that one has no answer for as long as
  nothing else blocks the ticket.
 */
module Progress {
  import opened Domain
  import opened TicketStore
  import opened OrderStore
  import opened Saga
  import opened Evolution
  import opened Invariant
  import opened Frames
  import opened Theorems
  import opened Retry
  import opened Lag
  import PaymentStore

  ghost predicate TidyStep(w: World, a: Action, w': World) {
    Step(w, a, w') && RetryGuard(w, a) && EditGuard(w, a)
  }

  /** More steps of a tidy run, from ws[0] on. */
  ghost predicate Path(ws: seq<World>, acts: seq<Action>) {
    |ws| == |acts| + 1 && forall n :: 0 <= n < |acts| ==> TidyStep(ws[n], acts[n], ws[n + 1])
  }

  lemma {:induction false} Extend(ws: seq<World>, acts: seq<Action>, a: Action, w': World)
    requires Path(ws, acts) && TidyStep(ws[|acts|], a, w')
    ensures Path(ws + [w'], acts + [a])
  {
    hide TidyStep;
    var ws', acts' := ws + [w'], acts + [a];
    forall n | 0 <= n < |acts'|
      ensures TidyStep(ws'[n], acts'[n], ws'[n + 1])
    {
      if n < |acts| { assert TidyStep(ws[n], acts[n], ws[n + 1]); }
    }
  }

  /** Activity i is still unacknowledged, and now has an answer; no workflow and no update handler moved meanwhile. */
  ghost predicate AnswerReady(w: World, w': World, i: nat) {
    && i < |w.tasks| <= |w'.tasks| && w'.flows == w.flows && w'.updates == w.updates
    && !w'.tasks[i].acked && w'.tasks[i].last.Some? && w'.tasks[i].last.value in w'.tasks[i].replies
  }

  /* ---- One activity ---- */

  lemma {:induction false} TicketsAnswer(w: World, i: nat) returns (w': World)
    requires i < |w.tasks| && TicketsSide(w.tasks[i].activity) && !w.tasks[i].acked
    requires w.tasks[i].last == None
    ensures TidyStep(w, Attempt(i), w') && AnswerReady(w, w', i)
  {
    hide Perform, Record, TicketOf;
    w' := AfterAttempt(w, i);
  }

  lemma {:induction false} StatementsAnswer(w: World, i: nat) returns (ws: seq<World>, acts: seq<Action>)
    requires i < |w.tasks| && TwoStatement(w.tasks[i].activity) && !w.tasks[i].acked
    requires Atomic(w.orders, w.now, w.tasks[i].activity).1.Some?
    ensures Path(ws, acts) && ws[0] == w && |acts| <= 2 && AnswerReady(w, ws[|acts|], i)
  {
    hide Update, ReadBack;
    var (db, reply) := Update(w.orders, w.now, w.tasks[i].activity);
    if reply.Some? {
      var w' := Answer(w.(orders := db), i, reply.value);
      ws, acts := [w, w'], [Attempt(i)];
    } else {
      var missed := w.(tasks := w.tasks[i := w.tasks[i].(missed := true, last := None)]);
      var w' := Answer(missed, i, ReadBack(w.orders, w.tasks[i].activity).value);
      assert TidyStep(w, Attempt(i), missed);
      assert TidyStep(missed, AttemptReadBack(i), w');
      ws, acts := [w, missed, w'], [Attempt(i), AttemptReadBack(i)];
    }
  }

  /** Only a projection can be told to try again later. */
  lemma {:induction false} AtomicAnswers(db: OrdersDb, now: Time, activity: Activity)
    requires TwoStatement(activity) && !activity.ProjectTicket?
    ensures Atomic(db, now, activity).1.Some?
  {
  }

  lemma {:induction false} PaymentAnswer(w: World, i: nat) returns (id: PaymentId, w': World)
    requires PaymentStore.IndexOk(w.payments)
    requires i < |w.tasks| && w.tasks[i].activity.PersistPayment? && !w.tasks[i].acked
    ensures TidyStep(w, AttemptPayment(i, id), w') && AnswerReady(w, w', i)
  {
    id := UnusedId(w.payments.payments.Keys);
    var PersistPayment(o, u, price) := w.tasks[i].activity;
    var (db, reply) := PaymentStore.Create(w.payments, id, o, PaymentStore.OrderCopy(u, price, AwaitingPayment));
    w' := Answer(w.(payments := db), i, reply);
    hide PaymentStore.IndexOk, PaymentStore.Create;
  }

  lemma {:induction false} UnusedId(ids: set<PaymentId>) returns (id: PaymentId)
    ensures id !in ids
    ensures forall p :: p in ids ==> p < id
    decreases ids
  {
    if ids == {} {
      id := 0;
    } else {
      var p :| p in ids;
      var above := UnusedId(ids - {p});
      id := if above <= p then p + 1 else above;
      forall q | q in ids
        ensures q < id
      {
        assert q == p || q in ids - {p};
      }
    }
  }

  /* ---- Reservations ---- */

  /**
    A reservation whose reply was lost and whose order was canceled since: its order ID is
    taken, nothing blocks the ticket, and it has no answer.
   */
  ghost predicate Superseded(w: World, i: nat)
    requires i < |w.tasks|
  {
    var activity := w.tasks[i].activity;
    && activity.ReserveOrder? && w.tasks[i].last == None
    && activity.reservation.order in w.orders.orders && activity.reservation.ticket in w.orders.projection
    && NothingBlocks(w.orders, activity.reservation.ticket)
  }

  /** Takes the row lock, after whoever holds it has rolled back. */
  lemma {:induction false} LockTicket(w: World, i: nat) returns (ws: seq<World>, acts: seq<Action>)
    requires i < |w.tasks| && w.tasks[i].activity.ReserveOrder? && !w.tasks[i].acked
    requires w.tasks[i].activity.reservation.ticket in w.orders.projection
    ensures Path(ws, acts) && ws[0] == w && |acts| <= 2
    ensures ws[|acts|] == w.(locks := w.locks[w.tasks[i].activity.reservation.ticket := Locked(i)],
                             tasks := w.tasks[i := w.tasks[i].(last := None)])
  {
    var t := w.tasks[i].activity.reservation.ticket;
    var locked := w.(locks := w.locks[t := Locked(i)], tasks := w.tasks[i := w.tasks[i].(last := None)]);
    if t in w.locks {
      var free := w.(locks := w.locks - {t});
      assert free.locks[t := Locked(i)] == locked.locks;
      assert TidyStep(w, ReserveRollback(t), free);
      assert TidyStep(free, ReserveLock(i), locked);
      ws, acts := [w, free, locked], [ReserveRollback(t), ReserveLock(i)];
    } else {
      assert TidyStep(w, ReserveLock(i), locked);
      ws, acts := [w, locked], [ReserveLock(i)];
    }
  }

  /** Under the lock the reservation is answered: from the blocking order, or by inserting its own. */
  lemma {:induction false} ReserveLocked(w: World, i: nat, t: TicketId) returns (ws: seq<World>, acts: seq<Action>)
    requires i < |w.tasks| && w.tasks[i].activity.ReserveOrder? && !w.tasks[i].acked
    requires w.tasks[i].activity.reservation.ticket == t && t in w.locks && w.locks[t] == Locked(i)
    requires w.tasks[i].activity.reservation.order in w.orders.orders ==> !NothingBlocks(w.orders, t)
    ensures Path(ws, acts) && ws[0] == w && |acts| <= 3 && AnswerReady(w, ws[|acts|], i)
  {
    hide TidyStep, FindsBlocking, NothingBlocks;
    var found := BlockingQueryAnswers(w.orders, t);
    if found.Some? {
      FoundExists(w.orders, t, found);
      var w' := FoundAnswer(w, i, t, found);
      ws, acts := [w, w'], [ReserveFind(t, found)];
    } else {
      NoneBlocks(w.orders, t);
      var checked := w.(locks := w.locks[t := Checked(i)]);
      var inserted := checked.(locks := checked.locks[t := Inserted(i)]);
      FindsNothing(w, i, t);
      Inserts(checked, i, t);
      var w' := Commits(inserted, i, t);
      ws, acts := [w, checked, inserted, w'], [ReserveFind(t, None), ReserveInsert(t), ReserveCommit(t)];
    }
  }

  lemma {:induction false} FoundAnswer(w: World, i: nat, t: TicketId, found: Option<OrderId>) returns (w': World)
    requires i < |w.tasks| && w.tasks[i].activity.ReserveOrder? && !w.tasks[i].acked && t in w.locks
        && w.locks[t] == Locked(i)
    requires found.Some? && found.value in w.orders.orders && FindsBlocking(w.orders, t, found)
    ensures TidyStep(w, ReserveFind(t, found), w') && AnswerReady(w, w', i)
  {
    hide FindsBlocking, BlockedReply;
    w' := Answer(w.(locks := w.locks - {t}), i,
        BlockedReply(w.orders.orders[found.value], w.tasks[i].activity.reservation.user));
  }

  lemma {:induction false} FindsNothing(w: World, i: nat, t: TicketId)
    requires i < |w.tasks| && w.tasks[i].activity.ReserveOrder? && !w.tasks[i].acked && t in w.locks
        && w.locks[t] == Locked(i)
    requires FindsBlocking(w.orders, t, None)
    ensures TidyStep(w, ReserveFind(t, None), w.(locks := w.locks[t := Checked(i)]))
  {
    hide FindsBlocking;
  }

  lemma {:induction false} Inserts(w: World, i: nat, t: TicketId)
    requires i < |w.tasks| && w.tasks[i].activity.ReserveOrder? && !w.tasks[i].acked && t in w.locks
        && w.locks[t] == Checked(i)
    requires w.tasks[i].activity.reservation.order !in w.orders.orders
    ensures TidyStep(w, ReserveInsert(t), w.(locks := w.locks[t := Inserted(i)]))
  {
  }

  lemma {:induction false} Commits(w: World, i: nat, t: TicketId) returns (w': World)
    requires i < |w.tasks| && w.tasks[i].activity.ReserveOrder? && !w.tasks[i].acked && t in w.locks
        && w.locks[t] == Inserted(i)
    requires w.tasks[i].activity.reservation.order !in w.orders.orders
    ensures TidyStep(w, ReserveCommit(t), w') && AnswerReady(w, w', i)
  {
    hide NewOrder;
    var input := w.tasks[i].activity.reservation;
    var db := w.orders.(orders := w.orders.orders[input.order := NewOrder(input)]);
    w' := Answer(w.(orders := db, locks := w.locks - {t}), i, Reserved(true, NewOrder(input)));
  }

  lemma NoneBlocks(db: OrdersDb, t: TicketId)
    requires FindsBlocking(db, t, None)
    ensures NothingBlocks(db, t)
  {
  }

  lemma FoundExists(db: OrdersDb, t: TicketId, found: Option<OrderId>)
    requires FindsBlocking(db, t, found)
    ensures found.Some? ==> found.value in db.orders
  {
  }

  lemma {:induction false} Join(ws: seq<World>, acts: seq<Action>, more: seq<World>, moves: seq<Action>)
    requires Path(ws, acts) && Path(more, moves) && more[0] == ws[|acts|]
    ensures Path(ws + more[1..], acts + moves) && (ws + more[1..])[|acts| + |moves|] == more[|moves|]
  {
    hide TidyStep;
    var all, both := ws + more[1..], acts + moves;
    forall n | 0 <= n < |both|
      ensures TidyStep(all[n], both[n], all[n + 1])
    {
      if n < |acts| {
        assert TidyStep(ws[n], acts[n], ws[n + 1]);
      } else {
        assert TidyStep(more[n - |acts|], moves[n - |acts|], more[n - |acts| + 1]);
      }
    }
  }

  lemma {:induction false} ReservationAnswer(w: World, i: nat) returns (ws: seq<World>, acts: seq<Action>)
    requires i < |w.tasks| && w.tasks[i].activity.ReserveOrder? && !w.tasks[i].acked
    requires w.tasks[i].last == None && !Superseded(w, i)
    ensures Path(ws, acts) && ws[0] == w && |acts| <= 5 && AnswerReady(w, ws[|acts|], i)
  {
    var t := w.tasks[i].activity.reservation.ticket;
    if t !in w.orders.projection {
      var w' := Answer(w, i, Rejected(TicketNotFound));
      assert TidyStep(w, ReserveLock(i), w');
      ws, acts := [w, w'], [ReserveLock(i)];
    } else {
      hide TidyStep, NothingBlocks;
      ws, acts := LockTicket(w, i);
      var more, moves := ReserveLocked(ws[|acts|], i, t);
      Join(ws, acts, more, moves);
      ws, acts := ws + more[1..], acts + moves;
    }
  }

  lemma LastReplied(w: World, k: nat)
    requires WaitInv(w) && k < |w.tasks| && w.tasks[k].last.Some?
    ensures w.tasks[k].last.value in w.tasks[k].replies
  {
  }

  /* ---- Whole workflows ---- */

  lemma {:induction false} Deliverable(w: World, f: FlowId) returns (reply: Reply, w': World)
    requires f in w.flows && w.flows[f].Waiting? && w.flows[f].task < |w.tasks|
    requires w.tasks[w.flows[f].task].last.Some?
        && w.tasks[w.flows[f].task].last.value in w.tasks[w.flows[f].task].replies
    ensures TidyStep(w, Deliver(f, reply), w')
  {
    hide Proceed, Advance;
    var i := w.flows[f].task;
    reply := w.tasks[i].last.value;
    w' := Proceed(Ack(w, i), f, Advance(w.flows[f].saved, reply));
  }

  /** Everything that the last state of a tidy run owes to its past. */
  ghost predicate Tidy(w: World) {
    && Inv(w) && WaitInv(w)
    && forall i :: 0 <= i < |w.tasks| && w.tasks[i].activity.ProjectTicket? ==>
         Atomic(w.orders, w.now, w.tasks[i].activity).1.Some?
  }

  lemma {:induction false} TidyReachable(ws: seq<World>, acts: seq<Action>, i: nat)
    requires TidyRun(ws, acts) && i < |ws|
    ensures Tidy(ws[i])
  {
    hide Inv, WaitInv, LagRun, Atomic, Step, RetryGuard, EditGuard;
    Reachable(ws, acts, i);
    WaitsReachable(ws, acts, i);
    TidyRunsKeepUp(ws, acts);
    forall k | 0 <= k < |ws[i].tasks| && ws[i].tasks[k].activity.ProjectTicket?
      ensures Atomic(ws[i].orders, ws[i].now, ws[i].tasks[k].activity).1.Some?
    {
      NeverOutOfOrder(ws, acts, i, k, ws[i].tasks[k].activity.snapshot);
    }
  }

  /** The activity that a workflow waits for can be answered. */
  lemma {:induction false} CanBeAnswered(w: World, f: FlowId) returns (ws: seq<World>, acts: seq<Action>)
    requires Tidy(w) && f in w.flows && w.flows[f].Waiting?
    requires w.flows[f].task < |w.tasks| ==> !Superseded(w, w.flows[f].task)
    ensures Path(ws, acts) && ws[0] == w && |acts| <= 5
    ensures w.flows[f].task < |w.tasks| && AnswerReady(w, ws[|acts|], w.flows[f].task)
  {
    hide Inv, WaitInv, Atomic, TidyStep, Superseded;
    FlowAwaits(w, f);
    var i := w.flows[f].task;
    if w.tasks[i].last.Some? {
      LastReplied(w, i);
      ws, acts := [w], [];
    } else if w.tasks[i].activity.ReserveOrder? {
      ws, acts := ReservationAnswer(w, i);
    } else if TicketsSide(w.tasks[i].activity) {
      var w' := TicketsAnswer(w, i);
      ws, acts := [w, w'], [Attempt(i)];
    } else if TwoStatement(w.tasks[i].activity) {
      if !w.tasks[i].activity.ProjectTicket? { AtomicAnswers(w.orders, w.now, w.tasks[i].activity); }
      ws, acts := StatementsAnswer(w, i);
    } else {
      TidyIndex(w);
      var id, w' := PaymentAnswer(w, i);
      ws, acts := [w, w'], [AttemptPayment(i, id)];
    }
  }

  lemma TidyIndex(w: World)
    requires Inv(w)
    ensures PaymentStore.IndexOk(w.payments)
  {
  }

  lemma {:induction false} FlowAwaits(w: World, f: FlowId)
    requires Inv(w) && WaitInv(w) && f in w.flows && w.flows[f].Waiting?
    ensures w.flows[f].task < |w.tasks| && !w.tasks[w.flows[f].task].acked
    ensures !w.tasks[w.flows[f].task].activity.PersistTicketUpdate?
  {
    assert FlowWaits(w, f) && FlowOk(w, f, w.flows[f]);
  }

  /**
    Workflows are never stuck, but for superseded reservations: wherever a tidy run has got
    to, at most six more steps of it carry any other waiting workflow to its next delivery.
   */
  lemma {:induction false} NeverStuck(ws: seq<World>, acts: seq<Action>, f: FlowId)
    returns (more: seq<World>, moves: seq<Action>)
    requires TidyRun(ws, acts) && f in ws[|acts|].flows && ws[|acts|].flows[f].Waiting?
    requires ws[|acts|].flows[f].task < |ws[|acts|].tasks| ==> !Superseded(ws[|acts|], ws[|acts|].flows[f].task)
    ensures TidyRun(ws + more, acts + moves) && 1 <= |moves| <= 6
    ensures moves[|moves| - 1].Deliver? && moves[|moves| - 1].flow == f
  {
    hide Tidy, TidyStep, Step, RetryGuard, EditGuard, Inv, WaitInv, Superseded;
    var w := ws[|acts|];
    TidyReachable(ws, acts, |acts|);
    var steps, todo := CanBeAnswered(w, f);
    var reply, w' := Deliverable(steps[|todo|], f);
    Extend(steps, todo, Deliver(f, reply), w');
    more, moves := (steps + [w'])[1..], todo + [Deliver(f, reply)];
    TidyRunGoesOn(ws, acts, steps + [w'], moves);
  }

  lemma {:induction false} TidyRunGoesOn(ws: seq<World>, acts: seq<Action>, more: seq<World>, moves: seq<Action>)
    requires TidyRun(ws, acts) && Path(more, moves) && more[0] == ws[|acts|]
    ensures TidyRun(ws + more[1..], acts + moves)
  {
    assert Path(ws, acts) by {
      forall n | 0 <= n < |acts|
        ensures TidyStep(ws[n], acts[n], ws[n + 1])
      {
        assert Step(ws[n], acts[n], ws[n + 1]);
        hide Step, RetryGuard, EditGuard;
      }
    }
    Join(ws, acts, more, moves);
    hide Step, RetryGuard, EditGuard, Init;
    var all, both := ws + more[1..], acts + moves;
    forall n | 0 <= n < |both|
      ensures Step(all[n], both[n], all[n + 1]) && RetryGuard(all[n], both[n]) && EditGuard(all[n], both[n])
    {
      assert TidyStep(all[n], both[n], all[n + 1]);
    }
  }

  lemma {:induction false} EditDeliverable(w: World, t: TicketId) returns (reply: Reply, w': World)
    requires t in w.updates && w.updates[t].holder.Some? && w.updates[t].holder.value < |w.tasks|
    requires var task := w.tasks[w.updates[t].holder.value]; task.last.Some? && task.last.value in task.replies
    ensures TidyStep(w, DeliverEdit(t, reply), w')
  {
    var run := w.updates[t];
    var i := run.holder.value;
    reply := w.tasks[i].last.value;
    var acked := Ack(w, i);
    match reply
    case TicketStored(s) =>
      w' := AddTask(acked, UpdateTicketFlow(t),
          ProjectTicket(s)).(updates := w.updates[t := run.(holder := Some(|w.tasks|))]);
    case Projected =>
      var run' := run.(holder := None, completed := run.completed + 1);
      w' := acked.(updates := w.updates[t := if run'.completed >= MAX_UPDATES_PER_WORKFLOW then FRESH_RUN else run']);
    case _ =>
      w' := acked.(updates := w.updates[t := run.(holder := None)]);
  }

  lemma {:induction false} EditCanBeAnswered(w: World, t: TicketId) returns (ws: seq<World>, acts: seq<Action>)
    requires Tidy(w) && t in w.updates && w.updates[t].holder.Some?
    ensures Path(ws, acts) && ws[0] == w && |acts| <= 2
    ensures w.updates[t].holder.value < |w.tasks| && AnswerReady(w, ws[|acts|], w.updates[t].holder.value)
  {
    hide Inv, WaitInv, Atomic, TidyStep, Superseded;
    HolderAwaits(w, t);
    var i := w.updates[t].holder.value;
    if w.tasks[i].last.Some? {
      LastReplied(w, i);
      ws, acts := [w], [];
    } else if w.tasks[i].activity.ProjectTicket? {
      ws, acts := StatementsAnswer(w, i);
    } else {
      var w' := TicketsAnswer(w, i);
      ws, acts := [w, w'], [Attempt(i)];
    }
  }

  lemma HolderAwaits(w: World, t: TicketId)
    requires WaitInv(w) && t in w.updates && w.updates[t].holder.Some?
    ensures w.updates[t].holder.value < |w.tasks| && !w.tasks[w.updates[t].holder.value].acked
    ensures var activity := w.tasks[w.updates[t].holder.value].activity;
            activity.PersistTicketUpdate? || activity.ProjectTicket?
  {
    assert HolderWaits(w, t);
  }

  lemma Grantable(w: World, t: TicketId, edit: EditInput) returns (w': World)
    requires t in w.updates && w.updates[t].holder == None && edit in w.updates[t].queue && edit.ticket == t
    ensures TidyStep(w, GrantMutex(edit), w')
  {
    w' := AddTask(w, UpdateTicketFlow(t), PersistTicketUpdate(edit))
            .(updates := w.updates[t :=
              w.updates[t].(holder := Some(|w.tasks|), queue := w.updates[t].queue - {edit})]);
  }

  /**
    Nor is the update handler: while the mutex of a ticket is held, at most three more steps
    deliver the holder's next answer; while it is free, any waiting edit can take it.
   */
  lemma {:induction false} EditNeverStuck(ws: seq<World>, acts: seq<Action>, t: TicketId)
    returns (more: seq<World>, moves: seq<Action>)
    requires TidyRun(ws, acts) && t in ws[|acts|].updates
    ensures ws[|acts|].updates[t].holder.Some? ==>
      && TidyRun(ws + more, acts + moves) && 1 <= |moves| <= 3
      && moves[|moves| - 1].DeliverEdit? && moves[|moves| - 1].ticket == t
    ensures ws[|acts|].updates[t].holder == None ==>
      forall edit :: edit in ws[|acts|].updates[t].queue && edit.ticket == t ==>
        exists w' :: TidyStep(ws[|acts|], GrantMutex(edit), w')
  {
    hide Tidy, TidyStep, Step, RetryGuard, EditGuard, Inv, WaitInv;
    var w := ws[|acts|];
    more, moves := [], [];
    if w.updates[t].holder.Some? {
      TidyReachable(ws, acts, |acts|);
      var steps, todo := EditCanBeAnswered(w, t);
      var reply, w' := EditDeliverable(steps[|todo|], t);
      Extend(steps, todo, DeliverEdit(t, reply), w');
      more, moves := (steps + [w'])[1..], todo + [DeliverEdit(t, reply)];
      TidyRunGoesOn(ws, acts, steps + [w'], moves);
    } else {
      forall edit | edit in w.updates[t].queue && edit.ticket == t
        ensures exists w' :: TidyStep(w, GrantMutex(edit), w')
      {
        var w' := Grantable(w, t, edit);
      }
    }
  }

  /* ---- Superseded reservations ---- */

  lemma {:induction false} SupersededAttempt(w: World, a: Action, w': World, i: nat)
    requires Step(w, a, w') && i < |w.tasks| == |w'.tasks| && Superseded(w, i)
    requires Attempted(w, a) == Some(i) && AttemptLike(a)
    requires a.ReserveFind? ==> a.ticket == w.tasks[i].activity.reservation.ticket
    ensures w'.tasks[i].last == None
  {
    hide PaymentStore.IndexOk;
    if a.ReserveFind? { NothingFound(w.orders, w.tasks[i].activity.reservation.ticket, a.found); }
  }

  lemma NothingFound(db: OrdersDb, t: TicketId, found: Option<OrderId>)
    requires NothingBlocks(db, t) && FindsBlocking(db, t, found)
    ensures found == None
  {
  }

  /** A superseded reservation stays without an answer until another order blocks the ticket. */
  lemma {:induction false} SupersededStays(w: World, a: Action, w': World, i: nat)
    requires Inv(w) && Step(w, a, w') && Later(w, w') && i < |w.tasks| && Superseded(w, i)
    requires NothingBlocks(w'.orders, w.tasks[i].activity.reservation.ticket)
    ensures i < |w'.tasks| && Superseded(w', i)
  {
    hide Inv, Step, RowsEvolve, LedgerGrows, HistoryGrows, PaymentsEvolve, CheckoutsEvolve, NothingBlocks;
    if AttemptLike(a) {
      AttemptShape(w, a, w');
      if Attempted(w, a) == Some(i) {
        if a.ReserveFind? { InvLock(w, a.ticket); }
        SupersededAttempt(w, a, w', i);
      }
    } else {
      MoveRests(w, a, w');
    }
  }

  /**
    However often it is retried, a superseded reservation is not answered in any run on which
    nothing else comes to block the ticket.
   */
  lemma {:induction false} NeverAnswered(ws: seq<World>, acts: seq<Action>, n: nat, j: nat, i: nat)
    requires Run(ws, acts) && n <= j < |ws| && i < |ws[n].tasks| && Superseded(ws[n], i)
    requires forall k :: n <= k <= j ==> NothingBlocks(ws[k].orders, ws[n].tasks[i].activity.reservation.ticket)
    ensures i < |ws[j].tasks| && ws[j].tasks[i].activity == ws[n].tasks[i].activity && Superseded(ws[j], i)
    decreases j
  {
    hide Inv, Step, Superseded, NothingBlocks, RowsEvolve, LedgerGrows, HistoryGrows, PaymentsEvolve, CheckoutsEvolve,
         Evolves;
    if n < j {
      NeverAnswered(ws, acts, n, j - 1, i);
      RunsForward(ws, acts, j - 1, j);
      assert Step(ws[j - 1], acts[j - 1], ws[j]);
      SupersededStays(ws[j - 1], acts[j - 1], ws[j], i);
    }
  }
}
