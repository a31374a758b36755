/**
  Projection lag: Orders' projection is never more than one version behind its source, and
  not behind at all while no edit is under way. Where no activity is attempted after its
  acknowledgment, the code breaks this by exactly one kind of step: the update handler gives
  up an edit that was stored, because a later attempt found the ticket claimed.
 */
module Lag {
  import opened Domain
  import opened TicketStore
  import opened OrderStore
  import opened Saga
  import opened Evolution
  import opened Invariant
  import opened Preservation
  import opened Frames
  import opened Theorems
  import opened Retry

  /** The projected version; a ticket not yet projected counts as being at version 1. */
  function ProjectedVersion(db: OrdersDb, t: TicketId): int {
    if t in db.projection then db.projection[t].version else 1
  }

  /* ---- What may go wrong ---- */

  /** The mutex holder of t waits for an edit that is stored at the version after the projected one. */
  ghost predicate HoldsStored(w: World, t: TicketId) {
    && t in w.updates && w.updates[t].holder.Some? && w.updates[t].holder.value < |w.tasks|
    && var activity := w.tasks[w.updates[t].holder.value].activity;
       && activity.PersistTicketUpdate? && activity.edit.ticket == t && KeyOf(activity.edit) in w.tickets.ledger
       && w.tickets.ledger[KeyOf(activity.edit)].version == ProjectedVersion(w.orders, t) + 1
  }

  /** The update handler gives that edit up. */
  ghost predicate DropsEdit(w: World, a: Action) {
    a.DeliverEdit? && a.reply.Rejected? && HoldsStored(w, a.ticket)
  }

  /** No activity is attempted after its acknowledgment; deliveries may be of any reply. */
  ghost predicate TimelyRun(ws: seq<World>, acts: seq<Action>) {
    Run(ws, acts) && forall i :: 0 <= i < |acts| ==> AttemptGuard(ws[i], acts[i])
  }

  ghost predicate LagRun(ws: seq<World>, acts: seq<Action>) {
    TimelyRun(ws, acts) && forall i :: 0 <= i < |acts| ==> !DropsEdit(ws[i], acts[i])
  }

  /** The edit was stored by an attempt that answered, and not attempted since. */
  ghost predicate CommittedTask(task: Task) {
    task.activity.PersistTicketUpdate? && task.last.Some? && task.last.value.TicketStored?
  }

  /** A stored edit is not attempted again while its ticket is claimed. */
  ghost predicate EditGuard(w: World, a: Action) {
    a.Attempt? && a.task < |w.tasks| && CommittedTask(w.tasks[a.task])
        && w.tasks[a.task].activity.edit.ticket in w.tickets.rows ==>
      w.tickets.rows[w.tasks[a.task].activity.edit.ticket].reservedBy == None
  }

  /** A run of ordinary retries on which no stored edit is attempted again while its ticket is claimed. */
  ghost predicate TidyRun(ws: seq<World>, acts: seq<Action>) {
    RetryRun(ws, acts) && forall i :: 0 <= i < |acts| ==> EditGuard(ws[i], acts[i])
  }

  /** The guard of a LagRun, or the one of a TidyRun, under which the holder of a stored edit always knows of it. */
  ghost predicate Guard(w: World, a: Action, tidy: bool) {
    AttemptGuard(w, a) && if tidy then HandsLast(w, a) && EditGuard(w, a) else !DropsEdit(w, a)
  }

  /* ---- The one edit that may be ahead of the projection ---- */

  ghost predicate CaughtUpAt(w: World, t: TicketId) {
    t in w.tickets.rows && ProjectedVersion(w.orders, t) == w.tickets.rows[t].version
  }

  /** The edit's row and ledger entry are written; on a tidy run its last attempt has said so. */
  ghost predicate Committed(task: Task, t: TicketId, db: TicketsDb, tidy: bool) {
    && t in db.rows && task.activity.PersistTicketUpdate?
    && var edit := task.activity.edit;
       && edit.ticket == t && KeyOf(edit) in db.ledger && db.ledger[KeyOf(edit)] == SnapshotOf(t, db.rows[t])
       && (tidy ==>
            && task.last == Some(TicketStored(SnapshotOf(t, db.rows[t])))
            && db.rows[t].owner == edit.user && ValidTicketData(edit.title, edit.price) && edit.user != ""
            && edit.key != "")
  }

  /** The edit's snapshot is about to be projected, and no attempt of that was finished yet. */
  ghost predicate Projecting(task: Task, t: TicketId, db: TicketsDb) {
    && t in db.rows && task.activity == ProjectTicket(SnapshotOf(t, db.rows[t]))
    && task.replies == {} && !task.missed
  }

  ghost predicate EditInFlight(w: World, t: TicketId, tidy: bool) {
    && t in w.tickets.rows && ProjectedVersion(w.orders, t) + 1 == w.tickets.rows[t].version
    && t in w.updates && w.updates[t].holder.Some? && w.updates[t].holder.value < |w.tasks|
    && var task := w.tasks[w.updates[t].holder.value];
       Committed(task, t, w.tickets, tidy) || Projecting(task, t, w.tickets)
  }

  ghost predicate InStep(w: World, t: TicketId, tidy: bool) {
    t in w.tickets.rows ==> CaughtUpAt(w, t) || EditInFlight(w, t, tidy)
  }

  /** Creation projects version 1 and nothing else. */
  ghost predicate CreationProjects(w: World) {
    forall i :: 0 <= i < |w.tasks| && w.tasks[i].owner.CreateTicketFlow? && w.tasks[i].activity.ProjectTicket? ==>
      w.tasks[i].activity.snapshot.version == 1
  }

  lemma {:induction false} CreationDelivers(w: World, f: FlowId, reply: Reply, w': World, i: nat)
    requires Inv(w) && StepDeliver(w, f, reply, w') && |w.tasks| <= i < |w'.tasks|
    requires f.CreateTicketFlow? && w'.tasks[i].activity.ProjectTicket?
    ensures w'.tasks[i].activity.snapshot.version == 1
  {
    hide Inv, StepDeliver, HasReply, FlowOk, FirstActivity, SavedOk, ReplyOk, Advance;
    DeliveryFacts(w, f, reply, w');
    DeliverSchedules(w, f, reply, w', i);
    WaitingActivity(w, f);
    CreationAdvances(w, f, w.tasks[w.flows[f].task].activity, w.flows[f].saved, reply);
  }

  lemma WaitingActivity(w: World, f: FlowId)
    requires f in w.flows && w.flows[f].Waiting? && w.flows[f].task < |w.tasks| && FlowOk(w, f, w.flows[f])
    ensures match w.flows[f].saved
            case None => FirstActivity(f, w.tasks[w.flows[f].task].activity)
            case Some(r) => SavedOk(w, f, w.tasks[w.flows[f].task].activity, r)
  {
    hide FirstActivity, SavedOk;
  }

  /** Creation goes on to a projection only from the reply that it stored version 1. */
  lemma CreationAdvances(w: World, f: FlowId, activity: Activity, saved: Option<Reply>, reply: Reply)
    requires f.CreateTicketFlow? && ReplyOk(w, activity, reply)
    requires match saved
             case None => FirstActivity(f, activity)
             case Some(r) => SavedOk(w, f, activity, r)
    requires Advance(saved, reply).Do? && Advance(saved, reply).activity.ProjectTicket?
    ensures Advance(saved, reply).activity.snapshot.version == 1
  {
    hide WasPublished, Seen, ValidTicketData;
  }

  /** A new projection task belongs to the mutex run of its ticket, or to a workflow that just got a reply. */
  lemma {:induction false} NewProjection(w: World, a: Action, w': World, i: nat)
    requires Step(w, a, w') && |w.tasks| <= i < |w'.tasks| && w'.tasks[i].activity.ProjectTicket?
    ensures (a.Deliver? && w'.tasks[i].owner == a.flow) || w'.tasks[i].owner.UpdateTicketFlow?
  {
    hide Step, HasReply;
    if AttemptLike(a) {
      AttemptShape(w, a, w');
    } else if a.Deliver? {
      StepIs(w, a, w');
      DeliverSchedules(w, a.flow, a.reply, w', i);
    } else {
      StartSchedules(w, a, w', i);
    }
  }

  lemma {:induction false} CreationProjectsStays(w: World, a: Action, w': World)
    requires Inv(w) && Step(w, a, w') && TasksEvolve(w, w') && CreationProjects(w)
    ensures CreationProjects(w')
  {
    hide Inv, Step;
    forall i | |w.tasks| <= i < |w'.tasks| && w'.tasks[i].owner.CreateTicketFlow? && w'.tasks[i].activity.ProjectTicket?
      ensures w'.tasks[i].activity.snapshot.version == 1
    {
      NewProjection(w, a, w', i);
      StepIs(w, a, w');
      CreationDelivers(w, a.flow, a.reply, w', i);
    }
  }

  /* ---- Attempts ---- */

  lemma InvFlows(w: World)
    requires Inv(w)
    ensures FlowsOk(w)
  {
  }

  /** An edit task that may still be attempted is the mutex holder's. */
  lemma {:induction false} EditorHolds(w: World, i: nat, t: TicketId)
    requires Inv(w) && WaitInv(w) && i < |w.tasks| && !w.tasks[i].acked
    requires w.tasks[i].activity.PersistTicketUpdate? && w.tasks[i].activity.edit.ticket == t
    ensures t in w.updates && w.updates[t].holder == Some(i)
  {
    var f := w.tasks[i].owner;
    InvFlows(w);
    hide Inv;
    assert f in w.flows ==> FlowOk(w, f, w.flows[f]);
    assert Awaited(w, i);
    if f.UpdateTicketFlow? { assert HolderWaits(w, f.ticket); }
  }

  /** A projection task that may still be attempted is the mutex holder's, or projects version 1. */
  lemma {:induction false} ProjectorHolds(w: World, i: nat, s: Snapshot)
    requires Inv(w) && WaitInv(w) && CreationProjects(w) && i < |w.tasks| && !w.tasks[i].acked
    requires w.tasks[i].activity == ProjectTicket(s)
    ensures s.version == 1 || (s.ticket in w.updates && w.updates[s.ticket].holder == Some(i))
  {
    var f := w.tasks[i].owner;
    InvFlows(w);
    hide Inv, FlowOk;
    assert f in w.flows ==> FlowOk(w, f, w.flows[f]);
    assert Awaited(w, i);
    if f.UpdateTicketFlow? {
      assert HolderWaits(w, f.ticket);
    } else {
      hide WaitInv;
      CreationFlow(w, f, i);
    }
  }

  /** Of the workflows, only creation projects. */
  lemma CreationFlow(w: World, f: FlowId, i: nat)
    requires f in w.flows && FlowOk(w, f, w.flows[f]) && w.flows[f].Waiting? && w.flows[f].task == i < |w.tasks|
    requires w.tasks[i].activity.ProjectTicket?
    ensures f.CreateTicketFlow?
  {
    hide Seen;
  }

  /** An attempt of the mutex holder's edit. */
  lemma {:induction false} EditAttempt(w: World, i: nat, w': World, t: TicketId, tidy: bool)
    requires StepAttempt(w, i, w') && i < |w.tasks| && w.tasks[i].activity.PersistTicketUpdate?
        && w.tasks[i].activity.edit.ticket == t
    requires t in w.updates && w.updates[t].holder == Some(i) && InStep(w, t, tidy)
        && (tidy ==> EditGuard(w, Attempt(i)))
    ensures InStep(w', t, tidy)
  {
    hide Record;
  }

  /** An attempt to project a published snapshot of t. */
  lemma {:induction false} ProjectAttempt(w: World, i: nat, w': World, s: Snapshot, tidy: bool)
    requires StepAttempt(w, i, w') && i < |w.tasks| && w.tasks[i].activity == ProjectTicket(s) && ValidProjection(s)
    requires s.ticket in w.tickets.rows && s.version <= w.tickets.rows[s.ticket].version
    requires s.ticket in w.orders.projection ==> 1 <= w.orders.projection[s.ticket].version
    requires s.version == 1 || (s.ticket in w.updates && w.updates[s.ticket].holder == Some(i))
    requires InStep(w, s.ticket, tidy)
    ensures InStep(w', s.ticket, tidy)
  {
  }

  /** An attempt to claim or release t: neither versions nor the ledger move. */
  lemma {:induction false} ClaimAttempt(w: World, i: nat, w': World, t: TicketId, tidy: bool)
    requires StepAttempt(w, i, w') && i < |w.tasks|
        && (w.tasks[i].activity.ClaimTicket? || w.tasks[i].activity.ReleaseTicket?)
    requires w.tasks[i].activity.ticket == t && InStep(w, t, tidy)
    ensures InStep(w', t, tidy)
  {
    hide Record;
  }

  /** Creating t puts it at version 1, which is what an absent projection stands for. */
  lemma {:induction false} CreateAttempt(w: World, i: nat, w': World, t: TicketId, tidy: bool)
    requires StepAttempt(w, i, w') && i < |w.tasks| && w.tasks[i].activity.PersistTicket?
        && w.tasks[i].activity.creation.ticket == t
    requires InStep(w, t, tidy) && (t in w.orders.projection ==> t in w.tickets.rows)
    ensures InStep(w', t, tidy)
  {
    hide Record;
  }

  /** An attempt that concerns another ticket, or Orders' orders only. */
  lemma {:induction false} OtherAttempt(w: World, i: nat, w': World, t: TicketId, tidy: bool)
    requires StepAttempt(w, i, w') && i < |w.tasks| && InStep(w, t, tidy)
    requires TicketsSide(w.tasks[i].activity) ==> TicketOf(w.tasks[i].activity) != t
    requires w.tasks[i].activity.ProjectTicket? ==> w.tasks[i].activity.snapshot.ticket != t
    ensures InStep(w', t, tidy)
  {
    AttemptFrame(w, i, w');
    TryShape(w, i, w');
    OtherTables(w, w.tasks[i].activity, t);
    hide StepAttempt, Perform, Update, InStep, OnlyAttempts;
    assert SameTicket(w, w', t);
    OthersInStep(w, w', i, t, tidy);
  }

  /** A task that neither edits nor projects t is not the one in flight. */
  lemma {:induction false} OthersInStep(w: World, w': World, i: nat, t: TicketId, tidy: bool)
    requires SameTicket(w, w', t) && OnlyAttempts(w, w', i) && i < |w.tasks| && InStep(w, t, tidy)
    requires w.tasks[i].activity.PersistTicketUpdate? ==> w.tasks[i].activity.edit.ticket != t
    requires w.tasks[i].activity.ProjectTicket? ==> w.tasks[i].activity.snapshot.ticket != t
    ensures InStep(w', t, tidy)
  {
    hide ValidTicketData;
  }

  /** Neither t's row nor its projection changed, and no ledger row was lost. */
  ghost predicate SameTicket(w: World, w': World, t: TicketId) {
    && (t in w'.tickets.rows <==> t in w.tickets.rows)
    && (t in w.tickets.rows ==> w'.tickets.rows[t] == w.tickets.rows[t])
    && ProjectedVersion(w'.orders, t) == ProjectedVersion(w.orders, t)
    && forall k :: k in w.tickets.ledger ==> k in w'.tickets.ledger && w'.tickets.ledger[k] == w.tickets.ledger[k]
  }

  lemma {:induction false} OtherTables(w: World, activity: Activity, t: TicketId)
    requires TicketsSide(activity) ==> TicketOf(activity) != t
    requires activity.ProjectTicket? ==> activity.snapshot.ticket != t
    ensures TicketsSide(activity) ==> SameTicket(w, w.(tickets := Perform(w.tickets, activity).0), t)
    ensures TwoStatement(activity) ==> SameTicket(w, w.(orders := Update(w.orders, w.now, activity).0), t)
  {
  }

  /* ---- Steps that are not attempts to run an activity's statement ---- */

  /** Neither t's row, nor its projection, nor what its mutex holder waits for changes. */
  ghost predicate SameEdit(w: World, w': World, t: TicketId) {
    && w'.tickets == w.tickets && w'.orders.projection == w.orders.projection
    && (t in w.updates && w.updates[t].holder.Some? && w.updates[t].holder.value < |w.tasks| ==>
         && t in w'.updates && w'.updates[t].holder == w.updates[t].holder
         && w.updates[t].holder.value < |w'.tasks|
         && var i := w.updates[t].holder.value;
            w'.tasks[i] == w.tasks[i].(acked := w'.tasks[i].acked))
  }

  lemma {:induction false} SameEditInStep(w: World, w': World, t: TicketId, tidy: bool)
    requires SameEdit(w, w', t) && InStep(w, t, tidy)
    ensures InStep(w', t, tidy)
  {
  }

  /** The tables of edits and projections stand still in steps that are not first statements. */
  lemma {:induction false} EditTablesRest(w: World, a: Action, w': World)
    requires Step(w, a, w') && !a.Attempt?
    ensures w'.tickets == w.tickets && w'.orders.projection == w.orders.projection
  {
    hide Step;
    TicketsFrame(w, a, w');
    OrdersFrame(w, a, w');
  }

  /** Attempts that are not first statements leave an edit in flight alone. */
  lemma {:induction false} OtherStatements(w: World, a: Action, w': World, t: TicketId, tidy: bool)
    requires Step(w, a, w') && AttemptLike(a) && !a.Attempt? && InStep(w, t, tidy)
    ensures InStep(w', t, tidy)
  {
    hide Step;
    EditTablesRest(w, a, w');
    AttemptShape(w, a, w');
    AttemptedKinds(w, a, w');
    if EditInFlight(w, t, tidy) {
      assert SameEdit(w, w', t);
      hide EditInFlight;
      SameEditInStep(w, w', t, tidy);
    }
  }

  lemma {:induction false} AttemptedKinds(w: World, a: Action, w': World)
    requires Step(w, a, w') && AttemptLike(a) && !a.Attempt?
    ensures Attempted(w, a).Some? && Attempted(w, a).value < |w.tasks| ==>
      var task := w.tasks[Attempted(w, a).value];
      || a.ReserveRollback?
      || task.activity.ReserveOrder? || task.activity.PersistPayment?
      || (task.missed && TwoStatement(task.activity))
  {
    hide FindsBlocking;
  }

  /** The mutex passes from a stored edit to its projection; it is freed before only where that is ruled out. */
  lemma {:induction false} EditDelivered(w: World, t: TicketId, reply: Reply, w': World, tidy: bool)
    requires StepDeliverEdit(w, t, reply, w') && Guard(w, DeliverEdit(t, reply), tidy) && InStep(w, t, tidy)
    requires RepliesOk(w)
    ensures InStep(w', t, tidy)
  {
    hide AttemptGuard, WasPublished, ValidTicketData;
    assert ReplyOk(w, w.tasks[w.updates[t].holder.value].activity, reply);
  }

  lemma {:induction false} MoveSameEdit(w: World, a: Action, w': World, t: TicketId)
    requires Step(w, a, w') && !AttemptLike(a) && !(a.DeliverEdit? && a.ticket == t)
    requires t in w.updates && w.updates[t].holder.Some?
    ensures t in w'.updates && w'.updates[t].holder == w.updates[t].holder
  {
    hide Step, StepDeliver, StepDeliverEdit;
    if a.Deliver? || a.DeliverEdit? {
      StepIs(w, a, w');
      HearSameEdit(w, a, w', t);
    } else {
      OtherSameEdit(w, a, w', t);
    }
  }

  lemma HearSameEdit(w: World, a: Action, w': World, t: TicketId)
    requires t in w.updates && w.updates[t].holder.Some?
    requires if a.DeliverEdit? then a.ticket != t && StepDeliverEdit(w, a.ticket, a.reply, w')
             else a.Deliver? && StepDeliver(w, a.flow, a.reply, w')
    ensures t in w'.updates && w'.updates[t].holder == w.updates[t].holder
  {
    hide Advance;
  }

  lemma {:induction false} OtherSameEdit(w: World, a: Action, w': World, t: TicketId)
    requires Step(w, a, w') && !AttemptLike(a) && !a.Deliver? && !a.DeliverEdit?
    requires t in w.updates && w.updates[t].holder.Some?
    ensures t in w'.updates && w'.updates[t].holder == w.updates[t].holder
  {
    hide KeyOf, CanStart, StepDeliver, StepDeliverEdit;
  }

  lemma {:induction false} MovesInStep(w: World, a: Action, w': World, t: TicketId, tidy: bool)
    requires Step(w, a, w') && !AttemptLike(a) && Guard(w, a, tidy) && RepliesOk(w) && InStep(w, t, tidy)
    ensures InStep(w', t, tidy)
  {
    MoveRests(w, a, w');
    StepIs(w, a, w');
    hide Step, StepDeliverEdit, StepDeliver, StepAttempt;
    if a.DeliverEdit? && a.ticket == t {
      hide InStep, TasksRest, RepliesOk, Guard;
      EditDelivered(w, t, a.reply, w', tidy);
    } else {
      if t in w.updates && w.updates[t].holder.Some? { MoveSameEdit(w, a, w', t); }
      hide InStep, RepliesOk, Guard;
      assert SameEdit(w, w', t);
      SameEditInStep(w, w', t, tidy);
    }
  }

  /* ---- All steps ---- */

  lemma {:induction false} ProjectionFacts(w: World, i: nat, s: Snapshot)
    requires Inv(w) && i < |w.tasks| && w.tasks[i].activity == ProjectTicket(s)
    ensures ValidProjection(s) && s.ticket in w.tickets.rows && s.version <= w.tickets.rows[s.ticket].version
    ensures s.ticket in w.orders.projection ==>
      1 <= w.orders.projection[s.ticket].version <= w.tickets.rows[s.ticket].version
    ensures s.ticket in w.orders.projection && w.orders.projection[s.ticket].version == s.version ==>
      w.orders.projection[s.ticket] == s
  {
    InvTask(w, i);
    hide Inv, HistoryOk;
    HistoryFacts(w);
    PublishedIsValid(w, s);
  }

  lemma {:induction false} HistoryFacts(w: World)
    requires HistoryOk(w.tickets, w.history)
    ensures w.history.Keys == w.tickets.rows.Keys
    ensures forall t :: t in w.history ==> |w.history[t]| == w.tickets.rows[t].version
  {
  }

  lemma ProjectedHasRow(w: World, t: TicketId)
    requires Inv(w)
    ensures t in w.orders.projection ==> t in w.tickets.rows
  {
  }

  lemma {:induction false} AttemptInStep(w: World, i: nat, w': World, t: TicketId, tidy: bool)
    requires Inv(w) && WaitInv(w) && CreationProjects(w) && StepAttempt(w, i, w')
    requires Guard(w, Attempt(i), tidy) && InStep(w, t, tidy)
    ensures InStep(w', t, tidy)
  {
    hide Inv, WaitInv, CreationProjects, StepAttempt, InStep;
    var activity := w.tasks[i].activity;
    if activity.PersistTicketUpdate? && activity.edit.ticket == t {
      EditorHolds(w, i, t);
      EditAttempt(w, i, w', t, tidy);
    } else if activity.ProjectTicket? && activity.snapshot.ticket == t {
      ProjectionFacts(w, i, activity.snapshot);
      ProjectorHolds(w, i, activity.snapshot);
      ProjectAttempt(w, i, w', activity.snapshot, tidy);
    } else if (activity.ClaimTicket? || activity.ReleaseTicket?) && activity.ticket == t {
      ClaimAttempt(w, i, w', t, tidy);
    } else if activity.PersistTicket? && activity.creation.ticket == t {
      ProjectedHasRow(w, t);
      CreateAttempt(w, i, w', t, tidy);
    } else {
      OtherAttempt(w, i, w', t, tidy);
    }
  }

  lemma {:induction false} InStepStays(w: World, a: Action, w': World, t: TicketId, tidy: bool)
    requires Inv(w) && WaitInv(w) && CreationProjects(w) && Step(w, a, w') && Guard(w, a, tidy)
    requires InStep(w, t, tidy)
    ensures InStep(w', t, tidy)
  {
    hide *;
    if AttemptLike(a) {
      if a.Attempt? {
        StepIs(w, a, w');
        AttemptInStep(w, a.task, w', t, tidy);
      } else {
        OtherStatements(w, a, w', t, tidy);
      }
    } else {
      InvReplies(w);
      MovesInStep(w, a, w', t, tidy);
    }
  }

  /* ---- One step ---- */

  ghost predicate AllInStep(w: World, tidy: bool) {
    forall t :: t in w.tickets.rows ==> InStep(w, t, tidy)
  }

  lemma {:induction false} AllInStepStays(w: World, a: Action, w': World, tidy: bool)
    requires Inv(w) && WaitInv(w) && CreationProjects(w) && Step(w, a, w') && Guard(w, a, tidy)
    requires AllInStep(w, tidy)
    ensures AllInStep(w', tidy)
  {
    forall t | t in w'.tickets.rows
      ensures InStep(w', t, tidy)
    {
      assert InStep(w, t, tidy);
      hide *;
      InStepStays(w, a, w', t, tidy);
    }
  }

  /** A stored edit that is given up leaves the mutex free and the projection behind. */
  lemma {:induction false} DroppedLags(w: World, a: Action, w': World)
    requires Inv(w) && Step(w, a, w') && DropsEdit(w, a)
    ensures a.DeliverEdit? && MutexFree(w', a.ticket) && a.ticket in w'.tickets.rows
    ensures ProjectedVersion(w'.orders, a.ticket) < w'.tickets.rows[a.ticket].version
  {
    StepIs(w, a, w');
    hide Step, Inv, StepDeliverEdit;
    GivenUp(w, a.ticket, a.reply, w');
    DroppedVersion(w, a.ticket);
  }

  lemma {:induction false} GivenUp(w: World, t: TicketId, reply: Reply, w': World)
    requires StepDeliverEdit(w, t, reply, w') && reply.Rejected?
    ensures w'.tickets == w.tickets && w'.orders == w.orders && MutexFree(w', t)
  {
  }

  ghost predicate MutexFree(w: World, t: TicketId) {
    t in w.updates ==> w.updates[t].holder == None
  }

  lemma {:induction false} DroppedVersion(w: World, t: TicketId)
    requires Inv(w) && HoldsStored(w, t)
    ensures t in w.tickets.rows && ProjectedVersion(w.orders, t) < w.tickets.rows[t].version
  {
    InvConsistent(w);
    hide Inv, ProjectedVersion, Consistent;
    LedgerFacts(w.tickets, w.history, t);
  }

  lemma BehindIsOut(w: World, t: TicketId)
    requires t in w.tickets.rows && MutexFree(w, t) && ProjectedVersion(w.orders, t) < w.tickets.rows[t].version
    ensures !InStep(w, t, false) && !LagBounded(w, t)
  {
  }

  /** Exactly when a step keeps every projection in step with its source. */
  lemma {:induction false} LagsExactly(w: World, a: Action, w': World)
    requires Inv(w) && WaitInv(w) && CreationProjects(w) && AllInStep(w, false) && Step(w, a, w') && AttemptGuard(w, a)
    ensures AllInStep(w', false) <==> !DropsEdit(w, a)
  {
    hide Inv, WaitInv, CreationProjects, Step, AttemptGuard, DropsEdit, ProjectedVersion;
    if DropsEdit(w, a) {
      DroppedLags(w, a, w');
      assert !InStep(w', a.ticket, false) by { hide *; BehindIsOut(w', a.ticket); }
    } else {
      AllInStepStays(w, a, w', false);
    }
  }

  /* ---- Over whole runs ---- */

  lemma InitInStep(w: World, tidy: bool)
    requires Init(w)
    ensures AllInStep(w, tidy) && CreationProjects(w)
  {
  }

  lemma {:induction false} InStepReachable(ws: seq<World>, acts: seq<Action>, i: nat, tidy: bool)
    requires Run(ws, acts) && i < |ws| && forall n :: 0 <= n < i ==> Guard(ws[n], acts[n], tidy)
    ensures AllInStep(ws[i], tidy) && CreationProjects(ws[i]) && Inv(ws[i]) && WaitInv(ws[i])
  {
    hide Inv, WaitInv, AllInStep, CreationProjects, Step, Guard;
    Reachable(ws, acts, i);
    WaitsReachable(ws, acts, i);
    if i == 0 {
      InitInStep(ws[0], tidy);
    } else {
      InStepReachable(ws, acts, i - 1, tidy);
      assert Step(ws[i - 1], acts[i - 1], ws[i]);
      RunsForward(ws, acts, i - 1, i);
      AllInStepStays(ws[i - 1], acts[i - 1], ws[i], tidy);
      CreationProjectsStays(ws[i - 1], acts[i - 1], ws[i]);
    }
  }

  /**
    With the mutex of a ticket free its projection is at the source version, or absent while
    the source is at version 1; with the mutex held it is at most one version behind, or
    absent.
   */
  ghost predicate LagBounded(w: World, t: TicketId) {
    t in w.tickets.rows ==>
      && var version := w.tickets.rows[t].version;
         if t in w.orders.projection then
           var projected := w.orders.projection[t].version;
           projected == version || (!MutexFree(w, t) && projected == version - 1)
         else version == 1 || (!MutexFree(w, t) && version == 2)
  }

  /**
    The bound holds all along a run that drops no stored edit; continue-as-new, which replaces
    the mutex run, makes no difference.
   */
  lemma {:induction false} ProjectionLag(ws: seq<World>, acts: seq<Action>, i: nat, t: TicketId)
    requires LagRun(ws, acts) && i < |ws|
    ensures LagBounded(ws[i], t)
  {
    hide Run, AttemptGuard, DropsEdit;
    RunLength(ws, acts);
    InStepReachable(ws, acts, i, false);
    hide Inv, WaitInv, LagRun;
    assert t in ws[i].tickets.rows ==> InStep(ws[i], t, false);
  }

  lemma RunLength(ws: seq<World>, acts: seq<Action>)
    requires Run(ws, acts)
    ensures |ws| == |acts| + 1
  {
  }

  /**
    Exactly when the lag stays bounded, on runs without attempts after the acknowledgment: the
    bound holds for every ticket in every state if and only if no step drops a stored edit.
   */
  lemma {:induction false} ProjectionLagIff(ws: seq<World>, acts: seq<Action>)
    requires TimelyRun(ws, acts)
    ensures (forall i, t :: 0 <= i < |ws| ==> LagBounded(ws[i], t)) <==>
        (forall n :: 0 <= n < |acts| ==> !DropsEdit(ws[n], acts[n]))
  {
    hide AttemptGuard, DropsEdit, LagBounded, Step, Init;
    if forall n :: 0 <= n < |acts| ==> !DropsEdit(ws[n], acts[n]) {
      forall i, t | 0 <= i < |ws|
        ensures LagBounded(ws[i], t)
      {
        ProjectionLag(ws, acts, i, t);
      }
    } else {
      var n :| 0 <= n < |acts| && DropsEdit(ws[n], acts[n]);
      Reachable(ws, acts, n);
      hide Inv, TimelyRun;
      assert Step(ws[n], acts[n], ws[n + 1]);
      DroppedLags(ws[n], acts[n], ws[n + 1]);
      BehindIsOut(ws[n + 1], acts[n].ticket);
    }
  }

  /** On a tidy run no stored edit is dropped: its holder always hears that it was stored. */
  lemma {:induction false} TidyRunsKeepUp(ws: seq<World>, acts: seq<Action>)
    requires TidyRun(ws, acts)
    ensures LagRun(ws, acts)
  {
    hide Run, AttemptGuard, HandsLast, EditGuard, DropsEdit;
    RunLength(ws, acts);
    forall n | 0 <= n < |acts|
      ensures !DropsEdit(ws[n], acts[n])
    {
      forall m | 0 <= m < n
        ensures Guard(ws[m], acts[m], true)
      {
        assert RetryGuard(ws[m], acts[m]) && EditGuard(ws[m], acts[m]);
      }
      InStepReachable(ws, acts, n, true);
      assert RetryGuard(ws[n], acts[n]);
      StoredIsHeard(ws[n], acts[n]);
    }
  }

  lemma {:induction false} StoredIsHeard(w: World, a: Action)
    requires Inv(w) && WaitInv(w) && AllInStep(w, true) && HandsLast(w, a)
    ensures !DropsEdit(w, a)
  {
    if a.DeliverEdit? && HoldsStored(w, a.ticket) {
      hide Inv, WaitInv, AllInStep;
      DroppedVersion(w, a.ticket);
      StoredLast(w, a.ticket);
    }
  }

  lemma {:induction false} StoredLast(w: World, t: TicketId)
    requires AllInStep(w, true) && HoldsStored(w, t)
    requires t in w.tickets.rows && ProjectedVersion(w.orders, t) < w.tickets.rows[t].version
    ensures var last := w.tasks[w.updates[t].holder.value].last; last.Some? && last.value.TicketStored?
  {
    assert InStep(w, t, true);
  }

  /** No projection is ever out of order, and one of the source's current version always succeeds. */
  lemma {:induction false} NeverOutOfOrder(ws: seq<World>, acts: seq<Action>, i: nat, task: nat, s: Snapshot)
    requires LagRun(ws, acts) && i < |ws| && task < |ws[i].tasks| && ws[i].tasks[task].activity == ProjectTicket(s)
    ensures s.ticket in ws[i].tickets.rows
    ensures Atomic(ws[i].orders, ws[i].now, ProjectTicket(s)).1.Some?
    ensures s.version == ws[i].tickets.rows[s.ticket].version ==>
      Atomic(ws[i].orders, ws[i].now, ProjectTicket(s)).1 == Some(Projected)
  {
    hide Inv, WaitInv, ValidTicketData, CreationProjects, Run, AttemptGuard, DropsEdit;
    RunLength(ws, acts);
    InStepReachable(ws, acts, i, false);
    ProjectionFacts(ws[i], task, s);
    hide LagRun;
    assert InStep(ws[i], s.ticket, false);
  }

  /* ---- A fresh edit is never refused by Orders ---- */

  /** While the mutex holder projects the current version, Orders has answered nothing but success. */
  ghost predicate FreshOk(w: World, t: TicketId) {
    && t in w.updates && w.updates[t].holder.Some? && w.updates[t].holder.value < |w.tasks|
    && w.tasks[w.updates[t].holder.value].activity.ProjectTicket?
    && w.tasks[w.updates[t].holder.value].activity.snapshot.ticket == t && t in w.tickets.rows
    && w.tasks[w.updates[t].holder.value].activity.snapshot.version == w.tickets.rows[t].version
    ==> w.tasks[w.updates[t].holder.value].replies <= {Projected}
  }

  /** A projection of the source's current version computes success or nothing. */
  lemma {:induction false} FreshReply(w: World, i: nat, s: Snapshot)
    requires Inv(w) && i < |w.tasks| && w.tasks[i].activity == ProjectTicket(s)
    ensures s.ticket in w.tickets.rows
    ensures s.version == w.tickets.rows[s.ticket].version ==>
      && Update(w.orders, w.now, ProjectTicket(s)).1 in {None, Some(Projected)}
      && ReadBack(w.orders, ProjectTicket(s)) in {None, Some(Projected)}
  {
    hide Inv, ValidTicketData;
    ProjectionFacts(w, i, s);
  }

  /** A ticket's version moves only by an attempt of an edit of that ticket. */
  lemma {:induction false} VersionMoves(w: World, a: Action, w': World, t: TicketId)
    requires Step(w, a, w') && t in w.tickets.rows
    ensures t in w'.tickets.rows
    ensures w'.tickets.rows[t].version != w.tickets.rows[t].version ==>
      && a.Attempt? && a.task < |w.tasks| && w.tasks[a.task].activity.PersistTicketUpdate?
      && w.tasks[a.task].activity.edit.ticket == t
  {
    TicketsFrame(w, a, w');
    hide Step;
  }

  /** A move either keeps the mutex holder or hands the mutex to a new task. */
  lemma {:induction false} HolderMoves(w: World, a: Action, w': World, t: TicketId)
    requires Step(w, a, w') && !AttemptLike(a) && t in w'.updates && w'.updates[t].holder.Some?
    ensures w'.updates[t].holder.value >= |w.tasks| || (t in w.updates && w.updates[t].holder == w'.updates[t].holder)
  {
    hide Step, StepDeliverEdit;
    if a.DeliverEdit? {
      StepIs(w, a, w');
      HolderHears(w, a.ticket, a.reply, w', t);
    } else {
      OtherHolderMoves(w, a, w', t);
    }
  }

  lemma HolderHears(w: World, u: TicketId, reply: Reply, w': World, t: TicketId)
    requires StepDeliverEdit(w, u, reply, w') && t in w'.updates && w'.updates[t].holder.Some?
    ensures w'.updates[t].holder.value >= |w.tasks| || (t in w.updates && w.updates[t].holder == w'.updates[t].holder)
  {
  }

  lemma {:induction false} OtherHolderMoves(w: World, a: Action, w': World, t: TicketId)
    requires Step(w, a, w') && !AttemptLike(a) && !a.DeliverEdit? && t in w'.updates && w'.updates[t].holder.Some?
    ensures w'.updates[t].holder.value >= |w.tasks| || (t in w.updates && w.updates[t].holder == w'.updates[t].holder)
  {
    hide Advance, KeyOf, CanStart, StepDeliverEdit;
  }

  lemma {:induction false} FreshAttempted(w: World, a: Action, w': World, t: TicketId, i: nat)
    requires Inv(w) && WaitInv(w) && Step(w, a, w') && AttemptGuard(w, a) && FreshOk(w, t) && |w.tasks| <= |w'.tasks|
    requires t in w.updates && w.updates[t].holder == Some(i) && i < |w.tasks|
    requires w.tasks[i].activity.ProjectTicket? && w.tasks[i].activity.snapshot.ticket == t
    requires t in w'.tickets.rows && w.tasks[i].activity.snapshot.version == w'.tickets.rows[t].version
    ensures w'.tasks[i].replies <= {Projected}
  {
    hide *;
    var s := w.tasks[i].activity.snapshot;
    ProjectionFacts(w, i, s);
    VersionMoves(w, a, w', t);
    if w'.tickets.rows[t].version != w.tickets.rows[t].version {
      Unacked(w, a);
      EditorHolds(w, a.task, t);
    } else {
      FreshUntil(w, t, i);
      FreshReply(w, i, s);
      forall r | r in w'.tasks[i].replies
        ensures r == Projected
      {
        if r !in w.tasks[i].replies { NewReply(w, a, w', i, r); FreshComputed(w, i, s, r); }
      }
    }
  }

  lemma FreshComputed(w: World, i: nat, s: Snapshot, r: Reply)
    requires JustComputed(w, i, r) && w.tasks[i].activity == ProjectTicket(s)
    requires Update(w.orders, w.now, ProjectTicket(s)).1 in {None, Some(Projected)}
    requires ReadBack(w.orders, ProjectTicket(s)) in {None, Some(Projected)}
    ensures r == Projected
  {
    hide Update, ReadBack;
  }

  lemma Unacked(w: World, a: Action)
    requires AttemptGuard(w, a) && a.Attempt? && a.task < |w.tasks|
    ensures !w.tasks[a.task].acked
  {
  }

  lemma FreshUntil(w: World, t: TicketId, i: nat)
    requires FreshOk(w, t) && t in w.updates && w.updates[t].holder == Some(i) && i < |w.tasks|
    requires w.tasks[i].activity.ProjectTicket? && w.tasks[i].activity.snapshot.ticket == t && t in w.tickets.rows
    requires w.tasks[i].activity.snapshot.version == w.tickets.rows[t].version
    ensures w.tasks[i].replies <= {Projected}
  {
  }

  lemma {:induction false} FreshStays(w: World, a: Action, w': World, t: TicketId)
    requires Inv(w) && WaitInv(w) && Step(w, a, w') && AttemptGuard(w, a) && FreshOk(w, t) && TasksEvolve(w, w')
    ensures FreshOk(w', t)
  {
    hide Inv, WaitInv, Step, AttemptGuard, FreshOk;
    if t in w'.updates && w'.updates[t].holder.Some? && w'.updates[t].holder.value < |w'.tasks| {
      var i := w'.updates[t].holder.value;
      if AttemptLike(a) { AttemptShape(w, a, w'); } else { HolderMoves(w, a, w', t); }
      if i >= |w.tasks| {
        NewTaskSilent(w, a, w', i);
      } else if w'.tasks[i].activity.ProjectTicket? && w'.tasks[i].activity.snapshot.ticket == t
             && t in w'.tickets.rows && w'.tasks[i].activity.snapshot.version == w'.tickets.rows[t].version {
        FreshAttempted(w, a, w', t, i);
      }
      FreshHere(w', t, i);
    } else {
      FreshNowhere(w', t);
    }
  }

  lemma FreshHere(w: World, t: TicketId, i: nat)
    requires t in w.updates && w.updates[t].holder == Some(i) && i < |w.tasks|
    requires (&& w.tasks[i].activity.ProjectTicket? && w.tasks[i].activity.snapshot.ticket == t
              && t in w.tickets.rows && w.tasks[i].activity.snapshot.version == w.tickets.rows[t].version) ==>
      w.tasks[i].replies <= {Projected}
    ensures FreshOk(w, t)
  {
  }

  lemma FreshNowhere(w: World, t: TicketId)
    requires !(t in w.updates && w.updates[t].holder.Some? && w.updates[t].holder.value < |w.tasks|)
    ensures FreshOk(w, t)
  {
  }

  /**
    While the mutex holder projects the version its edit has just made current, Orders has
    answered nothing but success: a fresh edit is never refused as an invalid projection.
   */
  lemma {:induction false} FreshEditNeverRefused(ws: seq<World>, acts: seq<Action>, i: nat, t: TicketId)
    requires TimelyRun(ws, acts) && i < |ws|
    ensures FreshOk(ws[i], t)
  {
    hide Inv, WaitInv, Step, AttemptGuard, FreshOk, TasksEvolve;
    if i == 0 {
      assert ws[0].updates == map[];
      FreshNowhere(ws[0], t);
    } else {
      FreshEditNeverRefused(ws, acts, i - 1, t);
      Reachable(ws, acts, i - 1);
      WaitsReachable(ws, acts, i - 1);
      assert Step(ws[i - 1], acts[i - 1], ws[i]);
      RunsForward(ws, acts, i - 1, i);
      FreshStays(ws[i - 1], acts[i - 1], ws[i], t);
    }
  }

  /* ---- How a stored edit comes to be dropped ---- */

  /** The tables went on from db: no ledger row was lost and ticket t kept its owner. */
  ghost predicate WentOn(db: TicketsDb, db': TicketsDb, t: TicketId) {
    && t in db.rows && t in db'.rows && db'.rows[t].owner == db.rows[t].owner
    && forall k :: k in db.ledger ==> k in db'.ledger && db'.ledger[k] == db.ledger[k]
  }

  /**
    An edit whose reply was lost is answered again with the same snapshot exactly when the
    ticket is not claimed at that moment: the claim is looked at before the ledger.
   */
  lemma {:induction false} LostReplyRepeatsIff(db: TicketsDb, db': TicketsDb, input: EditInput)
    requires UpdateWithIdempotency(db, input).1.TicketStored?
    requires WentOn(UpdateWithIdempotency(db, input).0, db', input.ticket)
    ensures UpdateWithIdempotency(db', input).0 == db'
    ensures UpdateWithIdempotency(db', input).1 == UpdateWithIdempotency(db, input).1 <==>
        db'.rows[input.ticket].reservedBy == None
    ensures db'.rows[input.ticket].reservedBy.Some? ==> UpdateWithIdempotency(db', input).1 == Rejected(EditReserved)
  {
  }

  /** The mutex holder of t waits, untried, for an edit that the tables would accept as a new version. */
  ghost predicate EditReady(w: World, t: TicketId, i: nat) {
    && t in w.updates && w.updates[t].holder == Some(i) && i < |w.tasks| && !w.tasks[i].acked
    && w.tasks[i].activity.PersistTicketUpdate?
    && var edit := w.tasks[i].activity.edit;
       && edit.ticket == t && ValidTicketData(edit.title, edit.price) && edit.user != "" && edit.key != ""
       && KeyOf(edit) !in w.tickets.ledger
       && t in w.tickets.rows && w.tickets.rows[t].owner == edit.user && w.tickets.rows[t].reservedBy == None
  }

  /**
    From every state where an edit of t is ready and a claim of t is awaited, four steps of
    ordinary retries drop the edit: it is stored, the claim lands, its repetition is refused,
    and the handler hears of the refusal only. The projection stays one version behind.
   */
  lemma {:induction false} ClaimBetweenLeavesLag(w: World, t: TicketId, i: nat, k: nat, o: OrderId)
    returns (w1: World, w2: World, w3: World, w4: World)
    requires EditReady(w, t, i) && CaughtUpAt(w, t)
    requires k < |w.tasks| && w.tasks[k].activity == ClaimTicket(t, o) && !w.tasks[k].acked
    ensures Step(w, Attempt(i), w1) && Step(w1, Attempt(k), w2) && Step(w2, Attempt(i), w3)
    ensures Step(w3, DeliverEdit(t, Rejected(EditReserved)), w4)
    ensures RetryGuard(w, Attempt(i)) && RetryGuard(w1, Attempt(k)) && RetryGuard(w2, Attempt(i))
    ensures RetryGuard(w3, DeliverEdit(t, Rejected(EditReserved)))
    ensures EditGuard(w, Attempt(i)) && EditGuard(w1, Attempt(k)) && !EditGuard(w2, Attempt(i))
    ensures DropsEdit(w3, DeliverEdit(t, Rejected(EditReserved)))
    ensures MutexFree(w4, t) && t in w4.tickets.rows && ProjectedVersion(w4.orders, t) == w4.tickets.rows[t].version - 1
  {
    hide EditReady, Step, RetryGuard, EditGuard, DropsEdit, ValidTicketData;
    ReadyFacts(w, t, i);
    w1 := CommitEdit(w, t, i);
    w2 := ClaimEdited(w1, t, i, k, o);
    w3 := RefuseReplay(w2, t, i);
    w4 := HearRefusal(w3, t, i);
  }

  lemma ReadyFacts(w: World, t: TicketId, i: nat)
    requires EditReady(w, t, i)
    ensures t in w.updates && w.updates[t].holder == Some(i) && i < |w.tasks| && !w.tasks[i].acked
    ensures w.tasks[i].activity.PersistTicketUpdate? && t in w.tickets.rows && w.tickets.rows[t].reservedBy == None
    ensures var edit := w.tasks[i].activity.edit;
            && edit.ticket == t && ValidTicketData(edit.title, edit.price) && edit.user != "" && edit.key != ""
            && w.tickets.rows[t].owner == edit.user
  {
  }

  /** The handler hears of the refusal and frees the mutex: the stored edit is dropped. */
  lemma {:induction false} HearRefusal(w: World, t: TicketId, i: nat) returns (w': World)
    requires t in w.updates && w.updates[t].holder == Some(i) && i < |w.tasks| && t in w.tickets.rows
    requires w.tasks[i].activity.PersistTicketUpdate? && w.tasks[i].activity.edit.ticket == t
    requires w.tasks[i].last == Some(Rejected(EditReserved)) && Rejected(EditReserved) in w.tasks[i].replies
    requires KeyOf(w.tasks[i].activity.edit) in w.tickets.ledger
    requires w.tickets.ledger[KeyOf(w.tasks[i].activity.edit)].version == w.tickets.rows[t].version
    requires ProjectedVersion(w.orders, t) == w.tickets.rows[t].version - 1
    ensures Step(w, DeliverEdit(t, Rejected(EditReserved)), w') && RetryGuard(w, DeliverEdit(t, Rejected(EditReserved)))
    ensures DropsEdit(w, DeliverEdit(t, Rejected(EditReserved)))
    ensures MutexFree(w', t) && t in w'.tickets.rows && ProjectedVersion(w'.orders, t) == w'.tickets.rows[t].version - 1
    ensures w' == Ack(w, i).(updates := w.updates[t := w.updates[t].(holder := None)])
  {
    w' := Ack(w, i).(updates := w.updates[t := w.updates[t].(holder := None)]);
  }

  /** The claim lands: only the claim of t's row and the record of task k change. */
  lemma {:induction false} ClaimEdited(w: World, t: TicketId, i: nat, k: nat, o: OrderId) returns (w': World)
    requires i < |w.tasks| && k < |w.tasks| && !w.tasks[k].acked && CommittedTask(w.tasks[i])
    requires w.tasks[k].activity == ClaimTicket(t, o) && t in w.tickets.rows && w.tickets.rows[t].reservedBy == None
    ensures Step(w, Attempt(k), w') && RetryGuard(w, Attempt(k)) && EditGuard(w, Attempt(k))
    ensures w' == w.(tickets := w.tickets.(rows := w.tickets.rows[t := w.tickets.rows[t].(reservedBy := Some(o))]),
                     history := w'.history, tasks := w.tasks[k := w'.tasks[k]])
    ensures |w'.tasks| == |w.tasks|
  {
    w' := AfterAttempt(w, k);
  }

  /** The retry of the committed edit is refused. */
  lemma {:induction false} RefuseReplay(w: World, t: TicketId, i: nat) returns (w': World)
    requires i < |w.tasks| && !w.tasks[i].acked && w.tasks[i].activity.PersistTicketUpdate? && t in w.tickets.rows
    requires var edit := w.tasks[i].activity.edit;
             && edit.ticket == t && ValidTicketData(edit.title, edit.price) && edit.user != "" && edit.key != ""
             && w.tickets.rows[t].owner == edit.user && w.tickets.rows[t].reservedBy.Some?
    ensures Step(w, Attempt(i), w') && RetryGuard(w, Attempt(i))
        && (CommittedTask(w.tasks[i]) ==> !EditGuard(w, Attempt(i)))
    ensures i < |w'.tasks| && w' == w.(history := w'.history, tasks := w.tasks[i := w'.tasks[i]])
    ensures w'.tasks[i].activity == w.tasks[i].activity
    ensures w'.tasks[i].last == Some(Rejected(EditReserved)) && Rejected(EditReserved) in w'.tasks[i].replies
  {
    w' := AfterAttempt(w, i);
  }

  lemma {:induction false} CommitEdit(w: World, t: TicketId, i: nat) returns (w': World)
    requires EditReady(w, t, i)
    ensures Step(w, Attempt(i), w') && RetryGuard(w, Attempt(i)) && EditGuard(w, Attempt(i))
    ensures i < |w'.tasks| && CommittedTask(w'.tasks[i]) && t in w'.tickets.rows
    ensures KeyOf(w.tasks[i].activity.edit) in w'.tickets.ledger
    ensures w'.tickets.ledger[KeyOf(w.tasks[i].activity.edit)].version == w'.tickets.rows[t].version
    ensures w'.tickets.rows[t]
        == w.tickets.rows[t].(title := w'.tickets.rows[t].title, price := w'.tickets.rows[t].price,
                                                     version := w.tickets.rows[t].version + 1)
    ensures w' == w.(tickets := w'.tickets, history := w'.history, tasks := w.tasks[i := w'.tasks[i]])
    ensures w'.tasks[i].activity == w.tasks[i].activity && w'.tasks[i].acked == w.tasks[i].acked
  {
    PositivePrice(w.tasks[i].activity.edit.title, w.tasks[i].activity.edit.price);
    hide Record, ValidTicketData;
    w' := AfterAttempt(w, i);
  }
}
