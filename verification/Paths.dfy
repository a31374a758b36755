/**
  Runs built one step at a time: every step is an ordinary retry that meets the guard on
  claims and the guard on stored edits. Each lemma takes one concrete kind of step.
 */
module Paths {
  import opened Domain
  import opened TicketStore
  import opened OrderStore
  import opened Saga
  import opened Frames
  import opened Retry
  import opened NoLeak
  import opened Lag
  import PaymentStore

  ghost predicate Next(w: World, a: Action, w': World) {
    Step(w, a, w') && RetryGuard(w, a) && ClaimGuard(w, a) && EditGuard(w, a)
  }

  ghost predicate Path(ws: seq<World>, acts: seq<Action>) {
    |ws| == |acts| + 1 && forall n :: 0 <= n < |acts| ==> Next(ws[n], acts[n], ws[n + 1])
  }

  /** Some path goes from one state to the other. */
  ghost predicate Leads(w: World, w': World) {
    exists ws, acts :: Path(ws, acts) && ws[0] == w && ws[|acts|] == w'
  }

  lemma Stays(w: World)
    ensures Leads(w, w)
  {
    assert Path([w], []);
  }

  lemma {:induction false} Extends(ws: seq<World>, acts: seq<Action>, a: Action, w': World)
    requires Path(ws, acts) && Next(ws[|acts|], a, w')
    ensures Path(ws + [w'], acts + [a])
  {
    hide Next;
    var ws', acts' := ws + [w'], acts + [a];
    forall n | 0 <= n < |acts'|
      ensures Next(ws'[n], acts'[n], ws'[n + 1])
    {
      if n < |acts| { assert Next(ws[n], acts[n], ws[n + 1]); }
    }
  }

  lemma {:induction false} Goes(w0: World, w: World, a: Action, w': World)
    requires Leads(w0, w) && Next(w, a, w')
    ensures Leads(w0, w')
  {
    hide Next;
    var ws, acts :| Path(ws, acts) && ws[0] == w0 && ws[|acts|] == w;
    Extends(ws, acts, a, w');
    PathLength(ws, acts);
    var ws', acts' := ws + [w'], acts + [a];
    assert Path(ws', acts') && ws'[0] == w0 && ws'[|acts'|] == w';
  }

  lemma PathLength(ws: seq<World>, acts: seq<Action>)
    requires Path(ws, acts)
    ensures |ws| == |acts| + 1
  {
  }

  function Empty(): World {
    World(0, TicketsDb(map[], map[]), OrdersDb(map[], map[]), PaymentStore.PaymentsDb(map[], map[], map[]),
          map[], [], map[], map[], {}, {}, map[])
  }

  /** A path from the empty system is a run that is careful and tidy. */
  lemma {:induction false} PathRuns(ws: seq<World>, acts: seq<Action>)
    requires Path(ws, acts) && ws[0] == Empty()
    ensures CarefulRun(ws, acts) && TidyRun(ws, acts)
  {
    hide Step, RetryGuard, ClaimGuard, EditGuard;
    forall n | 0 <= n < |acts|
      ensures Step(ws[n], acts[n], ws[n + 1]) && RetryGuard(ws[n], acts[n])
      ensures ClaimGuard(ws[n], acts[n]) && EditGuard(ws[n], acts[n])
    {
      assert Next(ws[n], acts[n], ws[n + 1]);
    }
  }

  lemma RunTo(w: World) returns (ws: seq<World>, acts: seq<Action>)
    requires Leads(Empty(), w)
    ensures CarefulRun(ws, acts) && TidyRun(ws, acts) && |ws| == |acts| + 1 && ws[|acts|] == w
  {
    hide Next, Empty, CarefulRun, TidyRun;
    ws, acts :| Path(ws, acts) && ws[0] == Empty() && ws[|acts|] == w;
    PathRuns(ws, acts);
    PathLength(ws, acts);
  }

  /** One more step of a run of ordinary retries. */
  lemma {:induction false} RunsOn(ws: seq<World>, acts: seq<Action>, a: Action, w': World)
    requires Run(ws, acts) && Step(ws[|acts|], a, w')
    ensures Run(ws + [w'], acts + [a])
  {
    hide Step, Init;
    var ws', acts' := ws + [w'], acts + [a];
    forall n | 0 <= n < |acts'|
      ensures Step(ws'[n], acts'[n], ws'[n + 1])
    {
      if n < |acts| { assert Step(ws[n], acts[n], ws[n + 1]); }
    }
  }

  lemma {:induction false} RetriesOn(ws: seq<World>, acts: seq<Action>, a: Action, w': World)
    requires RetryRun(ws, acts) && |ws| == |acts| + 1 && Step(ws[|acts|], a, w') && RetryGuard(ws[|acts|], a)
    ensures RetryRun(ws + [w'], acts + [a])
  {
    RunsOn(ws, acts, a, w');
    hide Run, RetryGuard;
    var ws', acts' := ws + [w'], acts + [a];
    forall n | 0 <= n < |acts'|
      ensures RetryGuard(ws'[n], acts'[n])
    {
      if n < |acts| { assert RetryGuard(ws[n], acts[n]); }
    }
  }

  /* ---- Attempts ---- */

  lemma {:induction false} Attempts(w0: World, w: World, i: nat)
    requires Leads(w0, w) && i < |w.tasks| && TicketsSide(w.tasks[i].activity) && !w.tasks[i].acked
    requires ClaimGuard(w, Attempt(i)) && EditGuard(w, Attempt(i))
    ensures Leads(w0, AfterAttempt(w, i))
  {
    hide ClaimGuard, EditGuard, Perform, Record, TicketOf, Leads;
    Goes(w0, w, Attempt(i), AfterAttempt(w, i));
  }

  function AfterUpdate(w: World, i: nat): World
    requires i < |w.tasks| && TwoStatement(w.tasks[i].activity)
  {
    var (db, reply) := Update(w.orders, w.now, w.tasks[i].activity);
    if reply.Some? then Answer(w.(orders := db), i, reply.value)
    else w.(tasks := w.tasks[i := w.tasks[i].(missed := true, last := None)])
  }

  /** The first statement of an Orders operation, whether it matches or misses. */
  lemma {:induction false} NextUpdate(w: World, i: nat)
    requires i < |w.tasks| && TwoStatement(w.tasks[i].activity) && !w.tasks[i].acked
    ensures Next(w, Attempt(i), AfterUpdate(w, i))
  {
    hide Update;
    assert StepAttempt(w, i, AfterUpdate(w, i));
  }

  lemma {:induction false} Updates(w0: World, w: World, i: nat)
    requires Leads(w0, w) && i < |w.tasks| && TwoStatement(w.tasks[i].activity) && !w.tasks[i].acked
    ensures Leads(w0, AfterUpdate(w, i))
  {
    hide Next, Leads;
    NextUpdate(w, i);
    Goes(w0, w, Attempt(i), AfterUpdate(w, i));
  }

  lemma {:induction false} NextReadBack(w: World, i: nat, reply: Reply)
    requires i < |w.tasks| && TwoStatement(w.tasks[i].activity) && !w.tasks[i].acked && w.tasks[i].missed
    requires ReadBack(w.orders, w.tasks[i].activity) == Some(reply)
    ensures Next(w, AttemptReadBack(i), Answer(w, i, reply))
  {
    hide ReadBack;
    assert StepReadBack(w, i, Answer(w, i, reply));
  }

  lemma {:induction false} ReadsBack(w0: World, w: World, i: nat, reply: Reply)
    requires Leads(w0, w) && i < |w.tasks| && TwoStatement(w.tasks[i].activity) && !w.tasks[i].acked
        && w.tasks[i].missed
    requires ReadBack(w.orders, w.tasks[i].activity) == Some(reply)
    ensures Leads(w0, Answer(w, i, reply))
  {
    hide Next, Leads, ReadBack;
    NextReadBack(w, i, reply);
    Goes(w0, w, AttemptReadBack(i), Answer(w, i, reply));
  }

  /* ---- Workflows ---- */

  lemma {:induction false} TicketStarts(w0: World, w: World, key: CreationKey, input: TicketInput)
    requires Leads(w0, w) && CreateTicketFlow(key) !in w.flows && input.ticket !in w.tickets.rows
    requires forall i :: 0 <= i < |w.tasks| ==> !w.tasks[i].activity.PersistTicket?
    ensures Leads(w0, Schedule(w, CreateTicketFlow(key), PersistTicket(input), None))
  {
    hide Leads;
    Goes(w0, w, StartCreateTicket(key, input), Schedule(w, CreateTicketFlow(key), PersistTicket(input), None));
  }

  lemma {:induction false} OrderStarts(w0: World, w: World, input: ReservationInput)
    requires Leads(w0, w) && CreateOrderFlow(input.order) !in w.flows && input.order !in w.orders.orders
    requires input.expiresAt == w.now + EXPIRATION_WINDOW
    ensures Leads(w0, Schedule(w, CreateOrderFlow(input.order), ReserveOrder(input), None))
  {
    hide Leads;
    Goes(w0, w, StartCreateOrder(input), Schedule(w, CreateOrderFlow(input.order), ReserveOrder(input), None));
  }

  lemma {:induction false} CancelStarts(w0: World, w: World, o: OrderId, u: UserId)
    requires Leads(w0, w) && CancelOrderFlow(o) !in w.flows
    ensures Leads(w0, Schedule(w, CancelOrderFlow(o), CancelOrder(o, u), None))
  {
    hide Leads;
    Goes(w0, w, StartCancelOrder(o, u), Schedule(w, CancelOrderFlow(o), CancelOrder(o, u), None));
  }

  function AfterDelivery(w: World, f: FlowId, reply: Reply): World
    requires f in w.flows && w.flows[f].Waiting? && w.flows[f].task < |w.tasks|
  {
    Proceed(Ack(w, w.flows[f].task), f, Advance(w.flows[f].saved, reply))
  }

  lemma {:induction false} Delivers(w0: World, w: World, f: FlowId, i: nat, reply: Reply)
    requires Leads(w0, w) && f in w.flows && w.flows[f].Waiting? && w.flows[f].task == i < |w.tasks|
    requires w.tasks[i].last == Some(reply) && reply in w.tasks[i].replies
    ensures Leads(w0, AfterDelivery(w, f, reply))
  {
    hide Advance, Proceed, Leads;
    Goes(w0, w, Deliver(f, reply), AfterDelivery(w, f, reply));
  }

  /* ---- Updates of a ticket ---- */

  lemma {:induction false} Requests(w0: World, w: World, input: EditInput)
    requires Leads(w0, w) && KeyOf(input) !in RunOf(w, input.ticket).seen
    ensures var run := RunOf(w, input.ticket);
            Leads(w0, w.(updates :=
              w.updates[input.ticket := run.(queue := run.queue + {input}, seen := run.seen + {KeyOf(input)})]))
  {
    hide Leads, RunOf, KeyOf;
    var run := RunOf(w, input.ticket);
    var run' := run.(queue := run.queue + {input}, seen := run.seen + {KeyOf(input)});
    Goes(w0, w, RequestEdit(input), w.(updates := w.updates[input.ticket := run']));
  }

  lemma {:induction false} Grants(w0: World, w: World, input: EditInput)
    requires Leads(w0, w) && input.ticket in w.updates
    requires w.updates[input.ticket].holder == None && input in w.updates[input.ticket].queue
    ensures var run' := w.updates[input.ticket].(holder := Some(|w.tasks|),
        queue := w.updates[input.ticket].queue - {input});
            Leads(w0, AddTask(w, UpdateTicketFlow(input.ticket),
                PersistTicketUpdate(input)).(updates := w.updates[input.ticket := run']))
  {
    hide Leads;
    var run' := w.updates[input.ticket].(holder := Some(|w.tasks|), queue := w.updates[input.ticket].queue - {input});
    Goes(w0, w, GrantMutex(input),
        AddTask(w, UpdateTicketFlow(input.ticket),
            PersistTicketUpdate(input)).(updates := w.updates[input.ticket := run']));
  }

  function AfterHearing(w: World, t: TicketId, i: nat, reply: Reply): World
    requires t in w.updates && i < |w.tasks|
  {
    var run := w.updates[t];
    var acked := Ack(w, i);
    match reply
    case TicketStored(s) =>
      AddTask(acked, UpdateTicketFlow(t), ProjectTicket(s)).(updates := w.updates[t := run.(holder := Some(|w.tasks|))])
    case Projected =>
      var run' := run.(holder := None, completed := run.completed + 1);
      acked.(updates := w.updates[t := if run'.completed >= MAX_UPDATES_PER_WORKFLOW then FRESH_RUN else run'])
    case _ => acked.(updates := w.updates[t := run.(holder := None)])
  }

  /** The mutex holder hears of its last attempt. */
  lemma {:induction false} Hears(w0: World, w: World, t: TicketId, i: nat, reply: Reply)
    requires Leads(w0, w) && t in w.updates && w.updates[t].holder == Some(i) && i < |w.tasks|
    requires w.tasks[i].last == Some(reply) && reply in w.tasks[i].replies
    ensures Leads(w0, AfterHearing(w, t, i, reply))
  {
    hide Leads;
    Goes(w0, w, DeliverEdit(t, reply), AfterHearing(w, t, i, reply));
  }

  /* ---- Reservations ---- */

  /** Takes the row lock of a ticket that nobody has locked. */
  function AfterLock(w: World, i: nat): World
    requires i < |w.tasks| && w.tasks[i].activity.ReserveOrder?
  {
    w.(locks := w.locks[w.tasks[i].activity.reservation.ticket := Locked(i)],
        tasks := w.tasks[i := w.tasks[i].(last := None)])
  }

  lemma {:induction false} Locks(w0: World, w: World, i: nat)
    requires Leads(w0, w) && i < |w.tasks| && w.tasks[i].activity.ReserveOrder? && !w.tasks[i].acked
    requires w.tasks[i].activity.reservation.ticket in w.orders.projection
    requires w.tasks[i].activity.reservation.ticket !in w.locks
    ensures Leads(w0, AfterLock(w, i))
  {
    hide Leads;
    Goes(w0, w, ReserveLock(i), AfterLock(w, i));
  }

  lemma {:induction false} FindsNone(w0: World, w: World, i: nat, t: TicketId)
    requires Leads(w0, w) && i < |w.tasks| && w.tasks[i].activity.ReserveOrder? && !w.tasks[i].acked
    requires t in w.locks && w.locks[t] == Locked(i) && FindsBlocking(w.orders, t, None)
    ensures Leads(w0, w.(locks := w.locks[t := Checked(i)]))
  {
    hide Leads, FindsBlocking;
    Goes(w0, w, ReserveFind(t, None), w.(locks := w.locks[t := Checked(i)]));
  }

  lemma {:induction false} FindsOne(w0: World, w: World, i: nat, t: TicketId, p: OrderId)
    requires Leads(w0, w) && i < |w.tasks| && w.tasks[i].activity.ReserveOrder? && !w.tasks[i].acked
    requires t in w.locks && w.locks[t] == Locked(i) && FindsBlocking(w.orders, t, Some(p)) && p in w.orders.orders
    ensures Leads(w0, Answer(w.(locks := w.locks - {t}), i,
        BlockedReply(w.orders.orders[p], w.tasks[i].activity.reservation.user)))
  {
    hide Leads, FindsBlocking, BlockedReply;
    Goes(w0, w, ReserveFind(t, Some(p)),
         Answer(w.(locks := w.locks - {t}), i, BlockedReply(w.orders.orders[p], w.tasks[i].activity.reservation.user)));
  }

  lemma {:induction false} Inserts(w0: World, w: World, i: nat, t: TicketId)
    requires Leads(w0, w) && i < |w.tasks| && w.tasks[i].activity.ReserveOrder? && !w.tasks[i].acked
    requires t in w.locks && w.locks[t] == Checked(i) && w.tasks[i].activity.reservation.order !in w.orders.orders
    ensures Leads(w0, w.(locks := w.locks[t := Inserted(i)]))
  {
    hide Leads;
    Goes(w0, w, ReserveInsert(t), w.(locks := w.locks[t := Inserted(i)]));
  }

  function AfterCommit(w: World, i: nat, t: TicketId): World
    requires i < |w.tasks| && w.tasks[i].activity.ReserveOrder?
  {
    var input := w.tasks[i].activity.reservation;
    var db := w.orders.(orders := w.orders.orders[input.order := NewOrder(input)]);
    Answer(w.(orders := db, locks := w.locks - {t}), i, Reserved(true, NewOrder(input)))
  }

  lemma {:induction false} Commits(w0: World, w: World, i: nat, t: TicketId)
    requires Leads(w0, w) && i < |w.tasks| && w.tasks[i].activity.ReserveOrder? && !w.tasks[i].acked
    requires t in w.locks && w.locks[t] == Inserted(i) && w.tasks[i].activity.reservation.order !in w.orders.orders
    ensures Leads(w0, AfterCommit(w, i, t))
  {
    hide Leads, NewOrder;
    Goes(w0, w, ReserveCommit(t), AfterCommit(w, i, t));
  }
}
