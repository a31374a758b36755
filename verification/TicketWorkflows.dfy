/**
  Ticket creation and the per-ticket update workflow as programs over the Tickets and
  Orders repositories, with every activity attempted once. Saga interleaves the same
  programs step by step; here their effect is stated outright.
 */
module TicketWorkflows {
  import opened Domain
  import opened TicketStore
  import opened OrderStore
  import opened Orders
  import opened Tickets
  import opened Saga

  /** Orders projects exactly the ticket's current version. */
  ghost predicate Projects(rows: map<TicketId, Row>, projection: map<TicketId, Snapshot>, t: TicketId) {
    t in rows && t in projection && projection[t] == SnapshotOf(t, rows[t])
  }

  predicate ValidEdit(edit: EditInput) {
    ValidTicketData(edit.title, edit.price) && edit.user != "" && edit.key != ""
  }

  class TicketService {
    const tickets: TicketRepository
    const orders: OrderRepository

    constructor (tickets: TicketRepository, orders: OrderRepository)
      ensures this.tickets == tickets && this.orders == orders
    {
      this.tickets, this.orders := tickets, orders;
    }

    /* ---- Activities ---- */

    method PersistTicket(input: TicketInput) returns (reply: Reply)
      requires tickets.Valid()
      modifies tickets
      ensures tickets.Valid()
      ensures (tickets.Db(), reply) == Perform(old(tickets.Db()), Activity.PersistTicket(input))
      ensures tickets.history == Record(old(tickets.history), input.ticket, old(tickets.Db()), tickets.Db())
      ensures old(DataOk(tickets.history)) ==> DataOk(tickets.history)
    {
      hide Mirrors, DataOk, Record, ValidTicketData;
      ghost var db, h, activity := tickets.Db(), tickets.history, Activity.PersistTicket(input);
      NothingRecorded(db, h, input.ticket);
      PerformPublishes(db, h, activity);
      if DataOk(h) { RecordKeepsData(h, input.ticket, db, Perform(db, activity).0); }
      if !ValidTicketData(input.title, input.price) || input.user == "" {
        return Rejected(InvalidTicket);
      }
      reply := tickets.Create(input);
    }

    method PersistTicketUpdate(edit: EditInput) returns (reply: Reply)
      requires tickets.Valid()
      modifies tickets
      ensures tickets.Valid()
      ensures (tickets.Db(), reply) == Perform(old(tickets.Db()), Activity.PersistTicketUpdate(edit))
      ensures tickets.history == Record(old(tickets.history), edit.ticket, old(tickets.Db()), tickets.Db())
      ensures old(DataOk(tickets.history)) ==> DataOk(tickets.history)
    {
      hide Mirrors, DataOk, Record, ValidTicketData;
      ghost var db, h, activity := tickets.Db(), tickets.history, Activity.PersistTicketUpdate(edit);
      NothingRecorded(db, h, edit.ticket);
      PerformPublishes(db, h, activity);
      if DataOk(h) { RecordKeepsData(h, edit.ticket, db, Perform(db, activity).0); }
      if !ValidTicketData(edit.title, edit.price) || edit.user == "" || edit.key == "" {
        return Rejected(InvalidEdit);
      }
      reply := tickets.UpdateWithIdempotency(edit);
    }

    /* ---- Workflows ---- */

    /** A new ticket ends up stored at version 1 and projected; no reply is a projection that must be retried. */
    method CreateTicketWorkflow(input: TicketInput) returns (reply: Option<Reply>)
      requires tickets.Valid()
      requires input.ticket !in tickets.rows && input.ticket !in orders.projection
      modifies tickets, orders`projection
      ensures tickets.Valid()
      ensures reply == Some(if ValidTicketData(input.title, input.price) && input.user != "" then
        TicketStored(FirstVersion(input))
                            else Rejected(InvalidTicket))
      ensures reply == Some(TicketStored(FirstVersion(input))) ==>
        && tickets.rows == old(tickets.rows)[input.ticket := Row(input.title, input.price, input.user, 1, None)]
        && orders.projection == old(orders.projection)[input.ticket := FirstVersion(input)]
        && Projects(tickets.rows, orders.projection, input.ticket)
      ensures reply.Some? && reply.value.Rejected? ==>
        tickets.rows == old(tickets.rows) && orders.projection == old(orders.projection)
      ensures tickets.ledger == old(tickets.ledger)
    {
      hide Mirrors, ValidTicketData;
      if ValidTicketData(input.title, input.price) { PositivePrice(input.title, input.price); }
      var created := PersistTicket(input);
      if created.Rejected? {
        return Some(created);
      }
      var projected := orders.EnsureTicketProjection(created.snapshot);
      if projected == None || projected.value.Rejected? {
        return projected;
      }
      return Some(created);
    }
  }

  function Successes(replies: seq<Reply>): nat {
    if replies == [] then 0
    else Successes(replies[..|replies| - 1]) + if replies[|replies| - 1].TicketStored? then 1 else 0
  }

  lemma {:induction false} SuccessesAppend(replies: seq<Reply>, reply: Reply)
    ensures Successes(replies + [reply]) == Successes(replies) + if reply.TicketStored? then 1 else 0
  {
    assert (replies + [reply])[..|replies|] == replies;
  }

  /** One run of the update workflow of one ticket. */
  class UpdateTicketWorkflow {
    const ticket: TicketId
    const service: TicketService
    var locked: bool
    var completedUpdates: nat

    constructor (ticket: TicketId, service: TicketService)
      ensures this.ticket == ticket && this.service == service && !locked && completedUpdates == 0
    {
      this.ticket, this.service := ticket, service;
      locked, completedUpdates := false, 0;
    }

    /** Between two updates the mutex is free; all that was published is valid. */
    ghost predicate Ready()
      reads this, service, service.tickets
    {
      !locked && service.tickets.Valid() && DataOk(service.tickets.history)
    }

    ghost predicate CaughtUp()
      reads this, service, service.tickets, service.orders
    {
      Projects(service.tickets.rows, service.orders.projection, ticket)
    }

    /** Orders projects a version that was published. */
    ghost predicate Follows()
      reads this, service, service.tickets, service.orders
    {
      ticket in service.orders.projection ==>
        && service.orders.projection[ticket].ticket == ticket
        && WasPublished(service.tickets.history, service.orders.projection[ticket])
    }

    /**
      The update handler. An edit that Tickets refuses changes nothing. Any other stores its
      snapshot, fresh or from the ledger, and goes on to the projection, which accepts exactly
      a first snapshot, the next version and a repetition, refuses what is behind it, and keeps
      the handler waiting with the mutex held, without a reply, for what is further ahead.
     */
    method Handle(edit: EditInput) returns (reply: Option<Reply>)
      requires Ready() && edit.ticket == ticket
      modifies this, service.tickets, service.orders`projection
      ensures service.tickets.Valid() && DataOk(service.tickets.history) && (locked <==> reply == None)
      ensures completedUpdates == old(completedUpdates) + if reply.Some? && reply.value.TicketStored? then 1 else 0
      ensures !Stores(old(service.tickets.Db()), edit) ==>
        && reply == Some(Rejected(Refusal(old(service.tickets.Db()), edit)))
        && service.tickets.Db() == old(service.tickets.Db())
        && service.orders.projection == old(service.orders.projection)
      ensures Stores(old(service.tickets.Db()), edit) ==>
        && var s := Stored(old(service.tickets.Db()), edit);
           && service.tickets.Db() == AfterEdit(old(service.tickets.Db()), edit)
           && reply == HandlerReply(old(service.orders.projection), s)
           && service.orders.projection
              == if Moves(old(service.orders.projection), s) then old(service.orders.projection)[ticket := s]
                 else old(service.orders.projection)
      // A caught-up ticket stays caught up; its replays succeed exactly while their snapshot is the current version.
      ensures old(CaughtUp()) && Stores(old(service.tickets.Db()), edit) ==>
        && CaughtUp() && reply.Some?
        && (reply.value.TicketStored? <==>
             || KeyOf(edit) !in old(service.tickets.ledger)
             || old(service.tickets.ledger)[KeyOf(edit)] == SnapshotOf(ticket, old(service.tickets.rows)[ticket]))
      // What was projected stays a published version, and a fresh edit is refused by nobody.
      ensures old(Follows()) ==> Follows()
      ensures old(Follows()) && Stores(old(service.tickets.Db()), edit) ==>
        KeyOf(edit) !in old(service.tickets.ledger) ==>
        reply in {None, Some(TicketStored(Stored(old(service.tickets.Db()), edit)))}
    {
      hide Mirrors, DataOk, ValidTicketData, ValidEdit, Perform, Atomic, Record, WasPublished, Stores, Stored,
           AfterEdit;
      locked := true;
      ghost var db, h, before := service.tickets.Db(), service.tickets.history, service.orders.projection;
      EditOutcome(db, h, edit);
      NothingRecorded(db, h, ticket);
      var persisted := service.PersistTicketUpdate(edit);
      EditPublishes(db, h, edit, before);
      if persisted.Rejected? {
        locked := false;
        return Some(persisted);
      }
      reply := service.orders.EnsureTicketProjection(persisted.snapshot);
      if reply == None {
        return;
      }
      if reply == Some(Projected) {
        completedUpdates := completedUpdates + 1;
        reply := Some(persisted);
      }
      locked := false;
    }

    /**
      The run serves updates one after another until a hundred have succeeded and then
      continues as new, always between updates. An update that Orders is not ready for holds
      the run; on a ticket whose projection is caught up there is none, and it stays caught up.
     */
    method Run(pending: seq<EditInput>) returns (replies: seq<Reply>, continueAsNew: bool)
      requires Ready() && completedUpdates == 0 && forall edit :: edit in pending ==> edit.ticket == ticket
      modifies this, service.tickets, service.orders`projection
      ensures service.tickets.Valid() && DataOk(service.tickets.history)
      ensures |replies| + (if locked then 1 else 0) <= |pending|
      ensures if continueAsNew then !locked && Successes(replies) == 100
              else Successes(replies) < 100 && (locked || |replies| == |pending|)
      ensures old(CaughtUp()) ==> CaughtUp() && !locked
      ensures ticket !in old(service.tickets.rows) ==>
        && !locked && Successes(replies) == 0
        && service.tickets.Db() == old(service.tickets.Db())
        && service.orders.projection == old(service.orders.projection)
      ensures old(Follows()) ==>
        && Follows()
        && VersionsWithin(old(service.tickets.rows), service.tickets.rows, ticket,
                          Successes(replies) + if locked then 1 else 0)
      // The updates were served in order, the one that holds the run included, and each got its own reply.
      ensures Served(old(service.tickets.Db()), service.tickets.Db(), pending[..|replies| + if locked then 1 else 0])
      ensures EachReplied(old(service.tickets.Db()), service.tickets.Db(), pending, replies)
      // On a caught-up ticket that Tickets lets edit, new updates make one version each.
      ensures old(CaughtUp()) && AllNew(old(service.tickets.Db()), pending) ==>
        && |replies| == (if |pending| < 100 then |pending| else 100)
        && NewVersions(old(service.tickets.rows), service.tickets.rows, ticket, pending, replies)
    {
      hide Mirrors, DataOk, ValidEdit, WasPublished, HandlerReply, Stores, Refusal, Stored, AfterEdit, Served, Replied;
      hide AllNew, NewVersions, EachReplied, ServedSo, Answers, Handled;
      replies := [];
      ghost var before, allNew := service.tickets.Db(), CaughtUp() && AllNew(service.tickets.Db(), pending);
      ServedNone(before, ticket, pending, allNew);
      assert Successes(replies) == 0;
      hide CaughtUp, Follows, Successes, VersionsWithin;
      while |replies| < |pending| && completedUpdates < MAX_UPDATES_PER_WORKFLOW
        invariant Ready()
        invariant |replies| <= |pending| && completedUpdates == Successes(replies) <= MAX_UPDATES_PER_WORKFLOW
        invariant old(CaughtUp()) ==> CaughtUp()
        invariant ticket !in before.rows ==>
          && service.tickets.Db() == before && service.orders.projection == old(service.orders.projection)
          && Successes(replies) == 0
        invariant old(Follows()) ==>
          Follows() && VersionsWithin(before.rows, service.tickets.rows, ticket, Successes(replies))
        invariant ServedSo(before, service.tickets.Db(), ticket, pending, replies, allNew)
      {
        ghost var db, projection := service.tickets.Db(), service.orders.projection;
        var reply := Handle(pending[|replies|]);
        HandledIs(db, service.tickets.Db(), projection, pending[|replies|], reply);
        if old(Follows()) { OneMoreAtMost(before.rows, db, pending[|replies|], Successes(replies)); }
        ServesOne(before, db, projection, ticket, pending, replies, allNew, reply);
        if reply == None {
          return replies, false;
        }
        SuccessesAppend(replies, reply.value);
        replies := replies + [reply.value];
      }
      continueAsNew := completedUpdates >= MAX_UPDATES_PER_WORKFLOW;
      ServedAll(before, service.tickets.Db(), ticket, pending, replies, allNew);
    }
  }

  /* ---- What a run comes to ---- */

  /**
    The edits of one ticket were served: the ledger keeps what it had and has, besides, exactly
    the keys of those that Tickets accepts; owner and claim, which decide that, stand still.
   */
  ghost predicate Served(before: TicketsDb, db: TicketsDb, edits: seq<EditInput>) {
    && db.rows.Keys == before.rows.Keys
    && (forall t :: t in before.rows ==>
         db.rows[t].owner == before.rows[t].owner && db.rows[t].reservedBy == before.rows[t].reservedBy)
    && (forall key :: key in before.ledger ==> key in db.ledger && db.ledger[key] == before.ledger[key])
    && forall key :: key in db.ledger <==>
         key in before.ledger || exists edit :: edit in edits && Stores(before, edit) && key == KeyOf(edit)
  }

  /** A success is the snapshot in the edit's own ledger row; all else is the refusal of Tickets or of Orders. */
  ghost predicate Replied(before: TicketsDb, db: TicketsDb, edit: EditInput, reply: Reply) {
    if Stores(before, edit) then
      && KeyOf(edit) in db.ledger
      && reply in {TicketStored(db.ledger[KeyOf(edit)]), Rejected(InvalidProjection)}
    else reply == Rejected(Refusal(before, edit))
  }

  ghost predicate EachReplied(before: TicketsDb, db: TicketsDb, edits: seq<EditInput>, replies: seq<Reply>) {
    |replies| <= |edits| && forall k :: 0 <= k < |replies| ==> Replied(before, db, edits[k], replies[k])
  }

  /** Edits that Tickets accepts, under keys that are new and differ from each other. */
  ghost predicate AllNew(db: TicketsDb, edits: seq<EditInput>) {
    && (forall k :: 0 <= k < |edits| ==> Stores(db, edits[k]) && KeyOf(edits[k]) !in db.ledger)
    && forall j, k :: 0 <= j < k < |edits| ==> KeyOf(edits[j]) != KeyOf(edits[k])
  }

  /** The rows and the replies after new edits: one version each. */
  ghost predicate NewVersions(before: map<TicketId, Row>, rows: map<TicketId, Row>, t: TicketId, edits: seq<EditInput>,
                              replies: seq<Reply>)
  {
    && |replies| <= |edits| && t in before && t in rows && rows[t].version == before[t].version + |replies|
    && forall k :: 0 <= k < |replies| ==>
         replies[k] == TicketStored(Snapshot(t, edits[k].title, edits[k].price, before[t].version + k + 1))
  }

  /** What the run has come to: the first edits served, each with its reply, and new ones with a version each. */
  ghost predicate ServedSo(before: TicketsDb, db: TicketsDb, t: TicketId, edits: seq<EditInput>, replies: seq<Reply>,
                           allNew: bool)
  {
    && |replies| <= |edits| && Served(before, db, edits[..|replies|])
    && EachReplied(before, db, edits, replies)
    && (allNew ==>
         && AllNew(before, edits) && Successes(replies) == |replies|
         && NewVersions(before.rows, db.rows, t, edits, replies))
  }

  lemma ServedNone(db: TicketsDb, t: TicketId, edits: seq<EditInput>, allNew: bool)
    requires allNew ==> t in db.rows && AllNew(db, edits)
    ensures ServedSo(db, db, t, edits, [], allNew)
  {
  }

  /** The tables after the handler had the edit. */
  function Handled(db: TicketsDb, edit: EditInput): TicketsDb {
    if Stores(db, edit) then AfterEdit(db, edit) else db
  }

  /** One more edit served. */
  lemma {:induction false} ServesOne(before: TicketsDb, db: TicketsDb, projection: map<TicketId, Snapshot>, t: TicketId,
                                     edits: seq<EditInput>, replies: seq<Reply>, allNew: bool, reply: Option<Reply>)
    requires ServedSo(before, db, t, edits, replies, allNew) && |replies| < |edits| && edits[|replies|].ticket == t
    requires Answers(db, projection, edits[|replies|], reply)
    requires allNew && Stores(db, edits[|replies|]) && KeyOf(edits[|replies|]) !in db.ledger ==>
      reply.Some? && reply.value.TicketStored?
    ensures Served(before, Handled(db, edits[|replies|]), edits[..|replies| + 1])
    ensures EachReplied(before, Handled(db, edits[|replies|]), edits, replies)
    ensures reply.Some? ==> ServedSo(before, Handled(db, edits[|replies|]), t, edits, replies + [reply.value], allNew)
    ensures reply == None ==> !allNew
  {
    var n, edit := |replies|, edits[|replies|];
    var db' := Handled(db, edit);
    LedgerKeeps(before, db, edits[..n], edit);
    assert edits[..n + 1] == edits[..n] + [edit];
    hide Served, Stores, Handled, AllNew, NewVersions, Replied, Answers;
    if allNew { NextVersion(before, db, t, edits, n); }
    if reply.Some? {
      AnswersReply(before, db, projection, edits[..n], edit, reply.value);
      SuccessesAppend(replies, reply.value);
      if allNew {
        AnswersNew(db, projection, edit, reply.value);
        OneMoreVersion(before.rows, db, t, edits, replies, reply.value);
      }
    }
  }

  /** Ticket t's version grew by at most n. */
  ghost predicate VersionsWithin(before: map<TicketId, Row>, rows: map<TicketId, Row>, t: TicketId, n: int) {
    t in before ==> t in rows && before[t].version <= rows[t].version <= before[t].version + n
  }

  lemma OneMoreAtMost(before: map<TicketId, Row>, db: TicketsDb, edit: EditInput, n: int)
    requires VersionsWithin(before, db.rows, edit.ticket, n)
    ensures VersionsWithin(before, Handled(db, edit).rows, edit.ticket, n + 1)
    ensures !Stores(db, edit) || KeyOf(edit) in db.ledger ==>
      VersionsWithin(before, Handled(db, edit).rows, edit.ticket, n)
  {
    HandledShape(db, edit);
    hide Handled, Stores;
  }

  lemma ServedAll(before: TicketsDb, db: TicketsDb, t: TicketId, edits: seq<EditInput>, replies: seq<Reply>,
                  allNew: bool)
    requires ServedSo(before, db, t, edits, replies, allNew)
    ensures |replies| <= |edits| && Served(before, db, edits[..|replies|]) && EachReplied(before, db, edits, replies)
    ensures allNew ==>
      Successes(replies) == |replies| && NewVersions(before.rows, db.rows, t, edits, replies)
  {
    hide Served, EachReplied, NewVersions, AllNew;
  }

  lemma HandledIs(db: TicketsDb, db': TicketsDb, projection: map<TicketId, Snapshot>, edit: EditInput,
                  reply: Option<Reply>)
    requires if Stores(db, edit) then db' == AfterEdit(db, edit) && reply == HandlerReply(projection, Stored(db, edit))
             else db' == db && reply == Some(Rejected(Refusal(db, edit)))
    ensures db' == Handled(db, edit) && Answers(db, projection, edit, reply)
    ensures edit.ticket !in db.rows ==> !Stores(db, edit)
  {
  }

  /** The handler's answer to an edit. */
  ghost predicate Answers(db: TicketsDb, projection: map<TicketId, Snapshot>, edit: EditInput, reply: Option<Reply>) {
    if Stores(db, edit) then reply == HandlerReply(projection, Stored(db, edit))
    else reply == Some(Rejected(Refusal(db, edit)))
  }

  lemma {:induction false} AnswersReply(before: TicketsDb, db: TicketsDb, projection: map<TicketId, Snapshot>,
                                        edits: seq<EditInput>, edit: EditInput, reply: Reply)
    requires Served(before, db, edits) && Answers(db, projection, edit, Some(reply))
    ensures Replied(before, Handled(db, edit), edit, reply)
  {
    SameDecision(before, db, edits, edit);
    hide Served, Stores, Refusal;
  }

  lemma AnswersNew(db: TicketsDb, projection: map<TicketId, Snapshot>, edit: EditInput, reply: Reply)
    requires Answers(db, projection, edit, Some(reply)) && Stores(db, edit) && reply.TicketStored?
    ensures reply == TicketStored(Stored(db, edit))
  {
    hide Stores, Stored;
  }

  /** Tickets decides about an edit as it would have before the edits that were served. */
  lemma SameDecision(before: TicketsDb, db: TicketsDb, edits: seq<EditInput>, edit: EditInput)
    requires Served(before, db, edits)
    ensures Stores(db, edit) <==> Stores(before, edit)
    ensures !Stores(db, edit) ==> Refusal(db, edit) == Refusal(before, edit)
  {
  }

  /** The edit adds its own key, if it is new, and what was replied before stays true. */
  lemma {:induction false} LedgerKeeps(before: TicketsDb, db: TicketsDb, edits: seq<EditInput>, edit: EditInput)
    requires Served(before, db, edits)
    ensures Served(before, Handled(db, edit), edits + [edit])
    ensures forall other, reply ::
              Replied(before, db, other, reply) ==> Replied(before, Handled(db, edit), other, reply)
  {
    SameDecision(before, db, edits, edit);
    HandledShape(db, edit);
    hide Stores, Refusal, Handled;
  }

  /** Handling an edit writes at most its own row and ledger entry, and keeps the row's owner and claim. */
  lemma HandledShape(db: TicketsDb, edit: EditInput)
    ensures var db', t := Handled(db, edit), edit.ticket;
            && db'.rows.Keys == db.rows.Keys
            && (forall u :: u in db.rows ==>
                 db'.rows[u].owner == db.rows[u].owner && db'.rows[u].reservedBy == db.rows[u].reservedBy)
            && (forall key :: key in db.ledger ==> key in db'.ledger && db'.ledger[key] == db.ledger[key])
            && (forall key :: key in db'.ledger <==> key in db.ledger || (Stores(db, edit) && key == KeyOf(edit)))
            && (Stores(db, edit) ==> db'.ledger[KeyOf(edit)] == Stored(db, edit))
            && (t in db.rows ==>
                 db'.rows[t].version
                 == db.rows[t].version + if Stores(db, edit) && KeyOf(edit) !in db.ledger then 1 else 0)
  {
    hide ValidEdit;
  }

  /** A new edit's turn: its key is still new, and it makes the next version. */
  lemma {:induction false} NextVersion(before: TicketsDb, db: TicketsDb, t: TicketId, edits: seq<EditInput>, n: nat)
    requires n < |edits| && Served(before, db, edits[..n]) && AllNew(before, edits) && edits[n].ticket == t
    ensures Stores(db, edits[n]) && KeyOf(edits[n]) !in db.ledger
    ensures t in db.rows && t in Handled(db, edits[n]).rows
    ensures Stored(db, edits[n]) == Snapshot(t, edits[n].title, edits[n].price, db.rows[t].version + 1)
    ensures Handled(db, edits[n]).rows[t].version == db.rows[t].version + 1
  {
    SameDecision(before, db, edits[..n], edits[n]);
    hide Stores;
  }

  lemma {:induction false} OneMoreVersion(before: map<TicketId, Row>, db: TicketsDb, t: TicketId, edits: seq<EditInput>,
                                          replies: seq<Reply>, reply: Reply)
    requires NewVersions(before, db.rows, t, edits, replies) && |replies| < |edits|
    requires t in db.rows && t in Handled(db, edits[|replies|]).rows
    requires Handled(db, edits[|replies|]).rows[t].version == db.rows[t].version + 1
    requires reply == TicketStored(Snapshot(t, edits[|replies|].title, edits[|replies|].price, db.rows[t].version + 1))
    ensures NewVersions(before, Handled(db, edits[|replies|]).rows, t, edits, replies + [reply])
  {
    hide Handled;
  }

  /* ---- What Tickets makes of an edit ---- */

  /** Tickets accepts the edit: it is valid, and the ticket exists, belongs to the user and is not claimed. */
  predicate Stores(db: TicketsDb, edit: EditInput) {
    && ValidEdit(edit) && edit.ticket in db.rows
    && db.rows[edit.ticket].owner == edit.user && db.rows[edit.ticket].reservedBy == None
  }

  function Refusal(db: TicketsDb, edit: EditInput): Error
    requires !Stores(db, edit)
  {
    if !ValidEdit(edit) then InvalidEdit
    else if edit.ticket !in db.rows then EditNotFound
    else if db.rows[edit.ticket].owner != edit.user then EditForbidden
    else EditReserved
  }

  /** The snapshot that an accepted edit returns: its ledger row's, or a new version. */
  function Stored(db: TicketsDb, edit: EditInput): Snapshot
    requires Stores(db, edit)
  {
    if KeyOf(edit) in db.ledger then db.ledger[KeyOf(edit)]
    else Snapshot(edit.ticket, edit.title, edit.price, db.rows[edit.ticket].version + 1)
  }

  function AfterEdit(db: TicketsDb, edit: EditInput): TicketsDb
    requires Stores(db, edit)
  {
    if KeyOf(edit) in db.ledger then db
    else
      var s := Stored(db, edit);
      TicketsDb(db.rows[edit.ticket := db.rows[edit.ticket].(title := s.title, price := s.price, version := s.version)],
                db.ledger[KeyOf(edit) := s])
  }

  /* ---- What Orders makes of its snapshot ---- */

  /** A first snapshot, or the next version. */
  predicate Moves(projection: map<TicketId, Snapshot>, s: Snapshot) {
    s.ticket in projection ==> projection[s.ticket].version == s.version - 1
  }

  /** The handler's answer once it has a snapshot; none while the projection is more than one version behind. */
  function HandlerReply(projection: map<TicketId, Snapshot>, s: Snapshot): Option<Reply> {
    if Moves(projection, s) then Some(TicketStored(s))
    else
      var p := projection[s.ticket];
      if p.version < s.version then None
      else if p.version == s.version && p.title == s.title && p.price == s.price then Some(TicketStored(s))
      else Some(Rejected(InvalidProjection))
  }

  /** A ledger entry is not ahead of its row, and at the row's version it is the row. */
  ghost predicate LedgerStands(db: TicketsDb, key: EditKey)
    requires key in db.ledger && key.ticket in db.rows
  {
    && db.ledger[key].version <= db.rows[key.ticket].version
    && (db.ledger[key].version == db.rows[key.ticket].version ==>
      db.ledger[key] == SnapshotOf(key.ticket, db.rows[key.ticket]))
  }

  lemma {:induction false} EditOutcome(db: TicketsDb, h: History, edit: EditInput)
    requires Mirrors(db, h) && DataOk(h)
    ensures Perform(db, Activity.PersistTicketUpdate(edit)) ==
      if Stores(db, edit) then (AfterEdit(db, edit), TicketStored(Stored(db, edit)))
      else (db, Rejected(Refusal(db, edit)))
    ensures Stores(db, edit) ==>
      && var s, row := Stored(db, edit), db.rows[edit.ticket];
         && s.ticket == edit.ticket && ValidProjection(s)
         && if KeyOf(edit) in db.ledger then
              && AfterEdit(db, edit) == db && s == db.ledger[KeyOf(edit)]
              && s.version <= row.version && (s.version == row.version ==> s == SnapshotOf(edit.ticket, row))
            else
              && edit.ticket in AfterEdit(db, edit).rows
              && s == SnapshotOf(edit.ticket, AfterEdit(db, edit).rows[edit.ticket])
              && s.version == row.version + 1
  {
    hide Mirrors, DataOk, ValidTicketData;
    if ValidTicketData(edit.title, edit.price) { PositivePrice(edit.title, edit.price); }
    if edit.ticket in db.rows { RowVersion(db, h, edit.ticket); }
    if KeyOf(edit) in db.ledger { LedgerEntry(db, h, KeyOf(edit)); }
  }

  /** An accepted edit's snapshot is published when it returns, and nothing published is lost. */
  lemma {:induction false} EditPublishes(db: TicketsDb, h: History, edit: EditInput,
      projection: map<TicketId, Snapshot>)
    requires Mirrors(db, h) && DataOk(h)
    ensures Stores(db, edit) ==>
      && var t, h' := edit.ticket, Record(h, edit.ticket, db, AfterEdit(db, edit));
         && WasPublished(h', Stored(db, edit))
         && (t in projection && projection[t].ticket == t && WasPublished(h, projection[t]) ==>
              WasPublished(h', projection[t]) && projection[t].version <= db.rows[t].version)
  {
    hide DataOk, LedgerInjective, LedgerOnto, LedgerCounts, ValidEdit, WasPublished, AfterEdit, Stores, Stored;
    if Stores(db, edit) {
      EditOutcome(db, h, edit);
      hide ValidProjection;
      var t, db' := edit.ticket, AfterEdit(db, edit);
      SnapshotPublished(db, h, edit);
      if t in projection && projection[t].ticket == t && WasPublished(h, projection[t]) {
        RecordGrows(h, t, db, db');
        StaysPublished(h, Record(h, t, db, db'), projection[t]);
        PublishedBelow(db, h, projection[t]);
      }
    }
  }

  lemma PublishedBelow(db: TicketsDb, h: History, s: Snapshot)
    requires HistoryOk(db, h) && WasPublished(h, s)
    ensures s.ticket in db.rows && s.version <= db.rows[s.ticket].version
  {
  }

  lemma {:induction false} SnapshotPublished(db: TicketsDb, h: History, edit: EditInput)
    requires Mirrors(db, h) && Stores(db, edit)
    ensures WasPublished(Record(h, edit.ticket, db, AfterEdit(db, edit)), Stored(db, edit))
  {
    hide LedgerInjective, LedgerOnto, LedgerCounts, ValidEdit;
    if KeyOf(edit) in db.ledger {
      NothingRecorded(db, h, edit.ticket);
      assert WasPublished(h, db.ledger[KeyOf(edit)]);
    }
  }

  lemma RowVersion(db: TicketsDb, h: History, t: TicketId)
    requires Mirrors(db, h) && t in db.rows
    ensures 1 <= db.rows[t].version
  {
  }

  lemma {:induction false} LedgerEntry(db: TicketsDb, h: History, key: EditKey)
    requires Mirrors(db, h) && DataOk(h) && key in db.ledger
    ensures key.ticket in db.rows && db.ledger[key].ticket == key.ticket
    ensures LedgerStands(db, key) && ValidProjection(db.ledger[key])
  {
    hide ValidTicketData, LedgerInjective, LedgerOnto, LedgerCounts;
    assert WasPublished(h, db.ledger[key]);
    assert h[key.ticket][db.ledger[key].version - 1] == db.ledger[key];
  }
}
