/**
  Ordinary retries: an activity is attempted only until it is acknowledged, its attempts do
  not overlap, and the workflow is handed the last attempt's reply.
 */
module Retry {
  import opened Domain
  import opened TicketStore
  import opened Saga
  import opened Evolution
  import opened Invariant
  import opened Frames
  import opened Theorems

  /** An activity is attempted only before it is acknowledged. */
  ghost predicate AttemptGuard(w: World, a: Action) {
    Attempted(w, a).Some? ==> Attempted(w, a).value < |w.tasks| && !w.tasks[Attempted(w, a).value].acked
  }

  /** A workflow, or the mutex holder, is handed the reply of the last attempt. */
  ghost predicate HandsLast(w: World, a: Action) {
    && (a.Deliver? && a.flow in w.flows && w.flows[a.flow].Waiting? && w.flows[a.flow].task < |w.tasks| ==>
         w.tasks[w.flows[a.flow].task].last == Some(a.reply))
    && (a.DeliverEdit? && a.ticket in w.updates && w.updates[a.ticket].holder.Some?
        && w.updates[a.ticket].holder.value < |w.tasks| ==>
         w.tasks[w.updates[a.ticket].holder.value].last == Some(a.reply))
  }

  ghost predicate RetryGuard(w: World, a: Action) {
    AttemptGuard(w, a) && HandsLast(w, a)
  }

  /** A run on which everything is retried in the ordinary way; what else happens is left open. */
  ghost predicate RetryRun(ws: seq<World>, acts: seq<Action>) {
    Run(ws, acts) && forall i :: 0 <= i < |acts| ==> RetryGuard(ws[i], acts[i])
  }

  /* ---- Who waits for which task ---- */

  ghost predicate FlowWaits(w: World, f: FlowId) {
    f in w.flows && w.flows[f].Waiting? ==>
      w.flows[f].task < |w.tasks| && w.tasks[w.flows[f].task].owner == f && !w.tasks[w.flows[f].task].acked
  }

  ghost predicate HolderWaits(w: World, t: TicketId) {
    t in w.updates && w.updates[t].holder.Some? ==>
      && w.updates[t].holder.value < |w.tasks|
      && var task := w.tasks[w.updates[t].holder.value];
         && task.owner == UpdateTicketFlow(t) && !task.acked
         && ((task.activity.PersistTicketUpdate? && task.activity.edit.ticket == t)
             || (task.activity.ProjectTicket? && task.activity.snapshot.ticket == t))
  }

  /** An unacknowledged task is the one its workflow, or its ticket's mutex holder, waits for. */
  ghost predicate Awaited(w: World, i: nat)
    requires i < |w.tasks|
  {
    var f := w.tasks[i].owner;
    || (f in w.flows && w.flows[f].Waiting? && w.flows[f].task == i && !f.UpdateTicketFlow?)
    || (f.UpdateTicketFlow? && f.ticket in w.updates && w.updates[f.ticket].holder == Some(i))
  }

  ghost predicate WaitInv(w: World) {
    && (forall f :: f in w.flows ==> !f.UpdateTicketFlow? && FlowWaits(w, f))
    && (forall t :: t in w.updates ==> HolderWaits(w, t))
    && (forall i :: 0 <= i < |w.tasks| && !w.tasks[i].acked ==> Awaited(w, i))
    && (forall i :: 0 <= i < |w.tasks| && w.tasks[i].last.Some? ==> w.tasks[i].last.value in w.tasks[i].replies)
  }

  lemma {:induction false} AttemptsKeepWaiting(w: World, w': World, i: nat)
    requires WaitInv(w) && OnlyAttempts(w, w', i)
    ensures WaitInv(w')
  {
    forall t | t in w'.updates
      ensures HolderWaits(w', t)
    {
      assert HolderWaits(w, t);
    }
    forall k | 0 <= k < |w'.tasks| && !w'.tasks[k].acked
      ensures Awaited(w', k)
    {
      assert Awaited(w, k);
    }
  }

  lemma {:induction false} ScheduleKeepsWaiting(w: World, f: FlowId, activity: Activity, saved: Option<Reply>)
    requires WaitInv(w) && CanStart(w, f) && !f.UpdateTicketFlow?
    ensures WaitInv(Schedule(w, f, activity, saved))
  {
    var w' := Schedule(w, f, activity, saved);
    forall g | g in w'.flows
      ensures FlowWaits(w', g)
    {
      if g != f { assert FlowWaits(w, g); }
    }
    forall t | t in w'.updates
      ensures HolderWaits(w', t)
    {
      assert HolderWaits(w, t);
    }
    forall k | 0 <= k < |w'.tasks| && !w'.tasks[k].acked
      ensures Awaited(w', k)
    {
      if k < |w.tasks| {
        assert Awaited(w, k);
      }
    }
  }

  /** The workflow f stops waiting for its task; where it goes next is not yet decided. */
  lemma {:induction false} AckKeepsWaiting(w: World, f: FlowId, next: Flow)
    requires WaitInv(w) && f in w.flows && w.flows[f].Waiting? && w.flows[f].task < |w.tasks| && !next.Waiting?
    ensures WaitInv(SetFlow(Ack(w, w.flows[f].task), f, next))
  {
    var i := w.flows[f].task;
    var w' := SetFlow(Ack(w, i), f, next);
    forall g | g in w'.flows
      ensures FlowWaits(w', g)
    {
      assert FlowWaits(w, g) && FlowWaits(w, f);
    }
    forall t | t in w'.updates
      ensures HolderWaits(w', t)
    {
      assert HolderWaits(w, t) && FlowWaits(w, f);
    }
    forall k | 0 <= k < |w'.tasks| && !w'.tasks[k].acked
      ensures Awaited(w', k)
    {
      assert Awaited(w, k);
    }
  }

  lemma {:induction false} DeliverKeepsWaiting(w: World, f: FlowId, reply: Reply, w': World)
    requires WaitInv(w) && StepDeliver(w, f, reply, w')
    ensures WaitInv(w')
  {
    hide Advance, WaitInv;
    WaitKinds(w, f);
    match Advance(w.flows[f].saved, reply)
    case Do(activity, saved) =>
      var closed := SetFlow(Ack(w, w.flows[f].task), f, Aborted(InvalidTicket));
      AckKeepsWaiting(w, f, Aborted(InvalidTicket));
      ScheduleKeepsWaiting(closed, f, activity, Some(saved));
      assert w'.flows == Schedule(closed, f, activity, Some(saved)).flows;
      assert w' == Schedule(closed, f, activity, Some(saved));
    case BeginExpiry(result) => AckKeepsWaiting(w, f, StartingExpiry(result));
    case Finish(result) => AckKeepsWaiting(w, f, Completed(result));
    case Abort(error) => AckKeepsWaiting(w, f, Aborted(error));
  }

  lemma WaitKinds(w: World, f: FlowId)
    requires WaitInv(w) && f in w.flows
    ensures !f.UpdateTicketFlow?
  {
  }

  /** The mutex holder's task is acknowledged; the run of ticket t goes on as run. */
  lemma {:induction false} AckEditKeepsWaiting(w: World, t: TicketId, run: UpdateRun)
    requires WaitInv(w) && t in w.updates && w.updates[t].holder.Some? && w.updates[t].holder.value < |w.tasks|
        && run.holder == None
    ensures WaitInv(Ack(w, w.updates[t].holder.value).(updates := w.updates[t := run]))
  {
    var i := w.updates[t].holder.value;
    var w' := Ack(w, i).(updates := w.updates[t := run]);
    assert HolderWaits(w, t);
    forall g | g in w'.flows
      ensures FlowWaits(w', g)
    {
      assert FlowWaits(w, g);
    }
    forall u | u in w'.updates
      ensures HolderWaits(w', u)
    {
      if u != t { assert HolderWaits(w, u); }
    }
    forall k | 0 <= k < |w'.tasks| && !w'.tasks[k].acked
      ensures Awaited(w', k)
    {
      assert Awaited(w, k);
    }
  }

  /** Ticket t's free mutex is taken by a new task. */
  lemma {:induction false} HoldKeepsWaiting(w: World, t: TicketId, activity: Activity, run: UpdateRun)
    requires WaitInv(w) && (t in w.updates ==> w.updates[t].holder == None)
    requires (activity.PersistTicketUpdate? && activity.edit.ticket == t)
        || (activity.ProjectTicket? && activity.snapshot.ticket == t)
    requires run.holder == Some(|w.tasks|)
    ensures WaitInv(AddTask(w, UpdateTicketFlow(t), activity).(updates := w.updates[t := run]))
  {
    var w' := AddTask(w, UpdateTicketFlow(t), activity).(updates := w.updates[t := run]);
    forall g | g in w'.flows
      ensures FlowWaits(w', g)
    {
      assert FlowWaits(w, g);
    }
    forall u | u in w'.updates
      ensures HolderWaits(w', u)
    {
      if u != t { assert HolderWaits(w, u); }
    }
    forall k | 0 <= k < |w'.tasks| && !w'.tasks[k].acked
      ensures Awaited(w', k)
    {
      if k < |w.tasks| { assert Awaited(w, k); }
    }
  }

  /** The handler goes on to project what was stored. */
  lemma {:induction false} HeardStoredKeepsWaiting(w: World, t: TicketId, s: Snapshot, w': World)
    requires WaitInv(w) && StepDeliverEdit(w, t, TicketStored(s), w') && s.ticket == t
    ensures WaitInv(w')
  {
    var run, i := w.updates[t], w.updates[t].holder.value;
    hide WaitInv;
    var free := Ack(w, i).(updates := w.updates[t := run.(holder := None)]);
    AckEditKeepsWaiting(w, t, run.(holder := None));
    HoldKeepsWaiting(free, t, ProjectTicket(s), run.(holder := Some(|w.tasks|)));
    assert w'.updates == free.updates[t := run.(holder := Some(|w.tasks|))];
  }

  lemma {:induction false} DeliverEditKeepsWaiting(w: World, t: TicketId, reply: Reply, w': World)
    requires WaitInv(w) && RepliesOk(w) && StepDeliverEdit(w, t, reply, w')
    ensures WaitInv(w')
  {
    var run := w.updates[t];
    var i := run.holder.value;
    assert HolderWaits(w, t);
    assert ReplyOk(w, w.tasks[i].activity, reply);
    hide WaitInv, RepliesOk;
    match reply
    case TicketStored(s) => HeardStoredKeepsWaiting(w, t, s, w');
    case Projected =>
      var run' := run.(holder := None, completed := run.completed + 1);
      AckEditKeepsWaiting(w, t, if run'.completed >= MAX_UPDATES_PER_WORKFLOW then FRESH_RUN else run');
    case _ =>
      AckEditKeepsWaiting(w, t, run.(holder := None));
  }

  /** Moves between waits: no task changes, and the workflows touched wait for none. */
  lemma {:induction false} QuietKeepsWaiting(w: World, w': World)
    requires WaitInv(w) && w'.tasks == w.tasks
    requires forall f :: f in w.flows && w.flows[f].Waiting? ==> f in w'.flows && w'.flows[f] == w.flows[f]
    requires forall f :: f in w'.flows ==>
      !f.UpdateTicketFlow? && (w'.flows[f].Waiting? ==> f in w.flows && w'.flows[f] == w.flows[f])
    requires forall t :: t in w.updates && w.updates[t].holder.Some? ==>
      t in w'.updates && w'.updates[t].holder == w.updates[t].holder
    requires forall t :: t in w'.updates && w'.updates[t].holder.Some? ==>
      t in w.updates && w'.updates[t].holder == w.updates[t].holder
    ensures WaitInv(w')
  {
    forall g | g in w'.flows
      ensures FlowWaits(w', g)
    {
      if g in w.flows { assert FlowWaits(w, g); }
    }
    forall u | u in w'.updates
      ensures HolderWaits(w', u)
    {
      if u in w.updates { assert HolderWaits(w, u); }
    }
    forall k | 0 <= k < |w'.tasks| && !w'.tasks[k].acked
      ensures Awaited(w', k)
    {
      assert Awaited(w, k);
    }
  }

  lemma {:induction false} StepKeepsWaiting(w: World, a: Action, w': World)
    requires Inv(w) && WaitInv(w) && Step(w, a, w')
    ensures WaitInv(w')
  {
    InvReplies(w);
    hide Inv, RepliesOk, KeyOf;
    if AttemptLike(a) {
      hide WaitInv, Step;
      AttemptShape(w, a, w');
      AttemptsKeepWaiting(w, w', if Attempted(w, a).Some? then Attempted(w, a).value else |w.tasks|);
    } else {
      OtherKeepsWaiting(w, a, w');
    }
  }

  lemma {:induction false} OtherKeepsWaiting(w: World, a: Action, w': World)
    requires RepliesOk(w) && WaitInv(w) && Step(w, a, w') && !AttemptLike(a)
    ensures WaitInv(w')
  {
    hide RepliesOk, WaitInv, StepDeliver, StepDeliverEdit, KeyOf;
    match a
    case StartCreateOrder(input) => ScheduleKeepsWaiting(w, CreateOrderFlow(input.order), ReserveOrder(input), None);
    case StartCancelOrder(o, u) => StartKeepsWaiting(w, CancelOrderFlow(o), CancelOrder(o, u), w');
    case StartCreatePayment(o, u) => StartKeepsWaiting(w, CreatePaymentFlow(o, u), StartOrderPayment(o, u), w');
    case StartCreateTicket(key, input) =>
      if CreateTicketFlow(key) !in w.flows {
        ScheduleKeepsWaiting(w, CreateTicketFlow(key), PersistTicket(input), None);
      }
    case CallResolve(c) => StartKeepsWaiting(w, ResolvePaymentFlow(c.order, c.outcome),
        ResolvePayment(c.order, c.outcome), w');
    case FireTimer(o) =>
      var awake := SetFlow(w, ExpireOrderFlow(o), Aborted(InvalidTicket));
      WakeKeepsWaiting(w, ExpireOrderFlow(o));
      ScheduleKeepsWaiting(awake, ExpireOrderFlow(o), ExpireOrder(o), None);
      assert w' == Schedule(awake, ExpireOrderFlow(o), ExpireOrder(o), None) by {
        assert w'.flows == Schedule(awake, ExpireOrderFlow(o), ExpireOrder(o), None).flows;
      }
    case GrantMutex(input) =>
      HoldKeepsWaiting(w, input.ticket, PersistTicketUpdate(input),
                       w.updates[input.ticket].(holder := Some(|w.tasks|),
                           queue := w.updates[input.ticket].queue - {input}));
    case RequestEdit(input) => RequestKeepsWaiting(w, input, w');
    case StartExpiryChild(o) => ChildKeepsWaiting(w, o, w');
    case Deliver(f, reply) => DeliverKeepsWaiting(w, f, reply, w');
    case DeliverEdit(t, reply) => DeliverEditKeepsWaiting(w, t, reply, w');
  }

  lemma StartKeepsWaiting(w: World, f: FlowId, activity: Activity, w': World)
    requires WaitInv(w) && StepStart(w, f, activity, w') && !f.UpdateTicketFlow?
    ensures WaitInv(w')
  {
    hide WaitInv;
    if CanStart(w, f) { ScheduleKeepsWaiting(w, f, activity, None); }
  }

  lemma WakeKeepsWaiting(w: World, f: FlowId)
    requires WaitInv(w) && f in w.flows && w.flows[f].Sleeping?
    ensures WaitInv(SetFlow(w, f, Aborted(InvalidTicket)))
  {
    QuietKeepsWaiting(w, SetFlow(w, f, Aborted(InvalidTicket)));
  }

  lemma RequestKeepsWaiting(w: World, input: EditInput, w': World)
    requires WaitInv(w) && StepRequestEdit(w, input, w')
    ensures WaitInv(w')
  {
    QuietKeepsWaiting(w, w');
  }

  lemma ChildKeepsWaiting(w: World, o: OrderId, w': World)
    requires WaitInv(w) && StepStartExpiryChild(w, o, w')
    ensures WaitInv(w')
  {
    QuietKeepsWaiting(w, w');
  }

  lemma {:induction false} WaitsReachable(ws: seq<World>, acts: seq<Action>, i: nat)
    requires Run(ws, acts) && i < |ws|
    ensures WaitInv(ws[i])
  {
    hide Inv, Step;
    if i == 0 {
      InitWaits(ws[0]);
    } else {
      WaitsReachable(ws, acts, i - 1);
      Reachable(ws, acts, i - 1);
      StepKeepsWaiting(ws[i - 1], acts[i - 1], ws[i]);
    }
  }

  lemma InitWaits(w: World)
    requires Init(w)
    ensures WaitInv(w)
  {
  }
}
