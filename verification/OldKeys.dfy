/**
  An edit that was stored long ago is answered from the ledger, but then refused by Orders. The
  update workflow remembers the update IDs of one run only, so this takes a hundred edits,
  after which the run continues as new, and a repetition of the first of them.
 */
module OldKeys {
  import opened Domain
  import opened TicketStore
  import opened OrderStore
  import opened Saga
  import opened Frames
  import opened NoLeak
  import opened Lag
  import opened Paths
  import opened Witnesses

  /** The n-th edit of the ticket on sale; its key has length n. */
  function Nth(n: nat): EditInput {
    EditInput(7, "seller", seq(n, _ => 'k'), "Concert", 100)
  }

  /** The row has its owner, no claim, and the given version. */
  predicate RowAt(db: TicketsDb, version: int) {
    && 7 in db.rows && db.rows[7].owner == "seller"
    && db.rows[7].reservedBy == None && db.rows[7].version == version
  }

  predicate ProjectedAt(db: OrdersDb, version: int) {
    7 in db.projection && db.projection[7].version == version
  }

  /** Every ledger key is at most n long, and the first edit made version 2. */
  ghost predicate KeysUpTo(db: TicketsDb, n: nat) {
    && (forall k :: k in db.ledger ==> |k.key| <= n)
    && (n > 0 ==> KeyOf(Nth(1)) in db.ledger && db.ledger[KeyOf(Nth(1))] == Snapshot(7, "Concert", 100, 2))
  }

  /** The mutex run after n edits. */
  ghost predicate RunAt(run: UpdateRun, n: nat) {
    && run.holder == None && run.queue == {}
    && if n == MAX_UPDATES_PER_WORKFLOW then run == FRESH_RUN
        else run.completed == n && forall k :: k in run.seen ==> |k.key| <= n
  }

  /** n edits were stored and projected. */
  ghost predicate Edited(w: World, n: nat) {
    RowAt(w.tickets, n + 1) && ProjectedAt(w.orders, n + 1) && KeysUpTo(w.tickets, n) && RunAt(RunOf(w, 7), n)
  }

  /** The mutex is held by the last task, which was not tried yet. */
  predicate JustHeld(w: World, activity: Activity) {
    && 7 in w.updates && w.tasks != [] && w.updates[7].holder == Some(|w.tasks| - 1) && w.updates[7].queue == {}
    && w.tasks[|w.tasks| - 1] == Waits(UpdateTicketFlow(7), activity)
  }

  predicate JustAnswered(w: World, activity: Activity, reply: Reply) {
    && 7 in w.updates && w.tasks != [] && w.updates[7].holder == Some(|w.tasks| - 1) && w.updates[7].queue == {}
    && w.tasks[|w.tasks| - 1] == Answered(UpdateTicketFlow(7), activity, reply)
  }

  /** The update is requested, unseen in this run, and gets the free mutex. */
  lemma {:induction false} Asks(w0: World, w: World, n: nat) returns (w': World)
    requires Leads(w0, w) && RunOf(w, 7).holder == None && RunOf(w, 7).queue == {} && KeyOf(Nth(n)) !in RunOf(w, 7).seen
    ensures Leads(w0, w') && JustHeld(w', PersistTicketUpdate(Nth(n)))
    ensures w'.tickets == w.tickets && w'.orders == w.orders
    ensures w'.updates[7].seen == RunOf(w, 7).seen + {KeyOf(Nth(n))} && w'.updates[7].completed == RunOf(w, 7).completed
  {
    hide Leads, KeyOf, RunOf;
    Requests(w0, w, Nth(n));
    var run := RunOf(w, 7);
    var w1 := w.(updates := w.updates[7 := run.(queue := run.queue + {Nth(n)}, seen := run.seen + {KeyOf(Nth(n))})]);
    Grants(w0, w1, Nth(n));
    var run' := w1.updates[7].(holder := Some(|w1.tasks|), queue := w1.updates[7].queue - {Nth(n)});
    w' := AddTask(w1, UpdateTicketFlow(7), PersistTicketUpdate(Nth(n))).(updates := w1.updates[7 := run']);
  }

  /** A fresh edit is stored as the next version. */
  lemma {:induction false} StoresNext(w0: World, w: World, n: nat) returns (w': World)
    requires Leads(w0, w) && JustHeld(w, PersistTicketUpdate(Nth(n + 1))) && RowAt(w.tickets, n + 1)
        && KeysUpTo(w.tickets, n)
    ensures Leads(w0, w')
        && JustAnswered(w', PersistTicketUpdate(Nth(n + 1)), TicketStored(Snapshot(7, "Concert", 100, n + 2)))
    ensures RowAt(w'.tickets, n + 2) && KeysUpTo(w'.tickets, n + 1) && w'.orders == w.orders && w'.updates == w.updates
  {
    hide Leads, Record, ValidTicketData;
    SaleIsValid();
    var i := |w.tasks| - 1;
    assert |Nth(n + 1).key| == n + 1;
    assert KeyOf(Nth(n + 1)) !in w.tickets.ledger;
    Attempts(w0, w, i);
    FirstAnswer(w, i, UpdateTicketFlow(7), PersistTicketUpdate(Nth(n + 1)),
        TicketStored(Snapshot(7, "Concert", 100, n + 2)));
    w' := AfterAttempt(w, i);
    assert n > 0 ==> Nth(1) != Nth(n + 1) by { assert |Nth(1).key| == 1; }
  }

  /** The handler hears that its edit is stored and goes on to project it. */
  lemma {:induction false} GoesOn(w0: World, w: World, input: EditInput, s: Snapshot) returns (w': World)
    requires Leads(w0, w) && JustAnswered(w, PersistTicketUpdate(input), TicketStored(s))
    ensures Leads(w0, w') && JustHeld(w', ProjectTicket(s))
    ensures w'.tickets == w.tickets && w'.orders == w.orders
    ensures w'.updates[7].seen == w.updates[7].seen && w'.updates[7].completed == w.updates[7].completed
    ensures |w'.tasks| == |w.tasks| + 1
    ensures w'.tasks[|w.tasks| - 1] == Done(UpdateTicketFlow(7), PersistTicketUpdate(input), TicketStored(s))
  {
    hide Leads;
    Hears(w0, w, 7, |w.tasks| - 1, TicketStored(s));
    w' := AfterHearing(w, 7, |w.tasks| - 1, TicketStored(s));
  }

  /** The next version is projected. */
  lemma {:induction false} ProjectsNext(w0: World, w: World, n: nat) returns (w': World)
    requires Leads(w0, w) && JustHeld(w, ProjectTicket(Snapshot(7, "Concert", 100, n + 2)))
        && ProjectedAt(w.orders, n + 1)
    ensures Leads(w0, w') && JustAnswered(w', ProjectTicket(Snapshot(7, "Concert", 100, n + 2)), Projected)
    ensures ProjectedAt(w'.orders, n + 2) && w'.tickets == w.tickets && w'.updates == w.updates
  {
    hide Leads, ValidTicketData;
    SaleIsValid();
    Updates(w0, w, |w.tasks| - 1);
    FirstAnswer(w, |w.tasks| - 1, UpdateTicketFlow(7), ProjectTicket(Snapshot(7, "Concert", 100, n + 2)), Projected);
    w' := AfterUpdate(w, |w.tasks| - 1);
  }

  /** The handler hears that the projection is done, and the run counts one more edit. */
  lemma {:induction false} CountsOne(w0: World, w: World, s: Snapshot, n: nat) returns (w': World)
    requires Leads(w0, w) && JustAnswered(w, ProjectTicket(s), Projected) && n < MAX_UPDATES_PER_WORKFLOW
    requires w.updates[7].completed == n && forall k :: k in w.updates[7].seen ==> |k.key| <= n + 1
    ensures Leads(w0, w') && RunAt(RunOf(w', 7), n + 1) && w'.tickets == w.tickets && w'.orders == w.orders
  {
    hide Leads;
    Hears(w0, w, 7, |w.tasks| - 1, Projected);
    w' := AfterHearing(w, 7, |w.tasks| - 1, Projected);
  }

  lemma {:induction false} EditsOnce(w0: World, w: World, n: nat) returns (w': World)
    requires Leads(w0, w) && Edited(w, n) && n < MAX_UPDATES_PER_WORKFLOW
    ensures Leads(w0, w') && Edited(w', n + 1)
  {
    hide Leads, KeysUpTo, RunOf, JustHeld, JustAnswered, ProjectedAt, RowAt;
    assert |Nth(n + 1).key| == n + 1;
    var s := Snapshot(7, "Concert", 100, n + 2);
    var w1 := Asks(w0, w, n + 1);
    var w2 := StoresNext(w0, w1, n);
    var w3 := GoesOn(w0, w2, Nth(n + 1), s);
    var w4 := ProjectsNext(w0, w3, n);
    w' := CountsOne(w0, w4, s, n);
  }

  /** However many edits of one run, up to the last. */
  lemma {:induction false} EditsMany(n: nat) returns (w: World)
    requires n <= MAX_UPDATES_PER_WORKFLOW
    ensures Leads(Empty(), w) && Edited(w, n)
  {
    hide Leads, Empty, Edited;
    if n == 0 {
      OnSale();
      w := Scene(None, None, [LISTED, SHOWN], map[SELLING := SOLD], map[]);
      NoneEdited();
    } else {
      var w' := EditsMany(n - 1);
      w := EditsOnce(Empty(), w', n - 1);
    }
  }

  /** The run counts up to ninety-nine, on the way there. */
  lemma CountsToNinetyNine() returns (w: World)
    ensures Leads(Empty(), w) && 7 in w.updates && w.updates[7].completed == 99
  {
    hide Leads, Empty, KeysUpTo;
    w := EditsMany(99);
  }

  lemma NoneEdited()
    ensures Edited(Scene(None, None, [LISTED, SHOWN], map[SELLING := SOLD], map[]), 0)
  {
  }

  /** The first edit's key is known: its snapshot is answered again, and nothing changes. */
  lemma {:induction false} RepeatsFirst(w0: World, w: World, n: nat) returns (w': World)
    requires Leads(w0, w) && JustHeld(w, PersistTicketUpdate(Nth(1))) && RowAt(w.tickets, n + 1)
        && KeysUpTo(w.tickets, n) && n > 0
    ensures Leads(w0, w') && JustAnswered(w', PersistTicketUpdate(Nth(1)), TicketStored(Snapshot(7, "Concert", 100, 2)))
    ensures w'.tickets == w.tickets && w'.orders == w.orders && w'.updates == w.updates
  {
    hide Leads, ValidTicketData;
    SaleIsValid();
    assert |Nth(1).key| == 1;
    Attempts(w0, w, |w.tasks| - 1);
    FirstAnswer(w, |w.tasks| - 1, UpdateTicketFlow(7), PersistTicketUpdate(Nth(1)),
        TicketStored(Snapshot(7, "Concert", 100, 2)));
    w' := AfterAttempt(w, |w.tasks| - 1);
  }

  /** Orders is past that version by more than one, and refuses it. */
  lemma {:induction false} RefusesOld(w0: World, w: World, n: nat) returns (w': World)
    requires Leads(w0, w) && JustHeld(w, ProjectTicket(Snapshot(7, "Concert", 100, 2))) && ProjectedAt(w.orders, n + 1)
        && n > 1
    ensures Leads(w0, w')
        && JustAnswered(w', ProjectTicket(Snapshot(7, "Concert", 100, 2)), Rejected(InvalidProjection))
    ensures w'.tickets == w.tickets && w'.orders == w.orders && w'.updates == w.updates
    ensures |w'.tasks| == |w.tasks| && forall k :: 0 <= k < |w.tasks| - 1 ==> w'.tasks[k] == w.tasks[k]
  {
    hide Leads, ValidTicketData;
    SaleIsValid();
    var i := |w.tasks| - 1;
    Updates(w0, w, i);
    var w1 := AfterUpdate(w, i);
    ReadsBack(w0, w1, i, Rejected(InvalidProjection));
    w' := Answer(w1, i, Rejected(InvalidProjection));
    assert {} + {Rejected(InvalidProjection)} == {Rejected(InvalidProjection)};
  }

  /**
    On a careful and tidy run the repetition of a stored edit ends refused: its snapshot is
    answered from the ledger as the first time, and Orders rejects that snapshot.
   */
  lemma {:induction false} OldKeyRefused() returns (ws: seq<World>, acts: seq<Action>)
    ensures CarefulRun(ws, acts) && TidyRun(ws, acts) && |ws| == |acts| + 1
    ensures var w, s, i := ws[|acts|], Snapshot(7, "Concert", 100, 2), |ws[|acts|].tasks| - 2;
            && KeyOf(Nth(1)) in w.tickets.ledger && w.tickets.ledger[KeyOf(Nth(1))] == s && i >= 0
            && w.tasks[i] == Done(UpdateTicketFlow(7), PersistTicketUpdate(Nth(1)), TicketStored(s))
            && JustAnswered(w, ProjectTicket(s), Rejected(InvalidProjection))
  {
    hide Leads, Empty, CarefulRun, TidyRun, JustHeld, RowAt, ProjectedAt, RunOf, KeyOf;
    var s := Snapshot(7, "Concert", 100, 2);
    var w := EditsMany(MAX_UPDATES_PER_WORKFLOW);
    var w1 := Asks(Empty(), w, 1);
    var w2 := RepeatsFirst(Empty(), w1, MAX_UPDATES_PER_WORKFLOW);
    var w3 := GoesOn(Empty(), w2, Nth(1), s);
    var w4 := RefusesOld(Empty(), w3, MAX_UPDATES_PER_WORKFLOW);
    ws, acts := RunTo(w4);
  }
}
