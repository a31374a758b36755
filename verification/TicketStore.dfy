/**
  The tables that the Tickets service owns: ticket rows with their reservation claim
  and aggregate version, and the ledger of idempotent edits.
 */
module TicketStore {
  import opened Domain

  datatype Row = Row(title: string, price: int, owner: UserId, version: int, reservedBy: Option<OrderId>)

  /** Primary key of ticket_update_operations. */
  datatype EditKey = EditKey(ticket: TicketId, user: UserId, key: string)

  datatype TicketsDb = TicketsDb(rows: map<TicketId, Row>, ledger: map<EditKey, Snapshot>)

  function KeyOf(input: EditInput): EditKey {
    EditKey(input.ticket, input.user, input.key)
  }

  function SnapshotOf(t: TicketId, row: Row): Snapshot {
    Snapshot(t, row.title, row.price, row.version)
  }

  function FirstVersion(input: TicketInput): Snapshot {
    Snapshot(input.ticket, input.title, input.price, 1)
  }

  /* ---- The repository operations as functions of the tables ---- */

  /** The insert and the edit fail on the tables' own CHECK (price > 0), which the activities report as invalid. */
  function Create(db: TicketsDb, input: TicketInput): (TicketsDb, Reply) {
    if input.price <= 0 then (db, Rejected(InvalidTicket))
    else
      var db' := if input.ticket in db.rows then db
                 else db.(rows := db.rows[input.ticket := Row(input.title, input.price, input.user, 1, None)]);
      if db'.rows[input.ticket].owner != input.user then (db', Rejected(InvalidTicket))
      else (db', TicketStored(FirstVersion(input)))
  }

  function UpdateWithIdempotency(db: TicketsDb, input: EditInput): (TicketsDb, Reply) {
    if input.ticket !in db.rows then (db, Rejected(EditNotFound))
    else
      var row := db.rows[input.ticket];
      if row.owner != input.user then (db, Rejected(EditForbidden))
      else if row.reservedBy.Some? then (db, Rejected(EditReserved))
      else if KeyOf(input) in db.ledger then (db, TicketStored(db.ledger[KeyOf(input)]))
      else if input.price <= 0 then (db, Rejected(InvalidEdit))
      else
        var row' := row.(title := input.title, price := input.price, version := row.version + 1);
        var s := SnapshotOf(input.ticket, row');
        (TicketsDb(db.rows[input.ticket := row'], db.ledger[KeyOf(input) := s]), TicketStored(s))
  }

  function ReserveForOrder(db: TicketsDb, t: TicketId, o: OrderId): (TicketsDb, Reply) {
    if t !in db.rows then (db, Rejected(TicketNotFound))
    else if db.rows[t].reservedBy == None || db.rows[t].reservedBy == Some(o) then
      (db.(rows := db.rows[t := db.rows[t].(reservedBy := Some(o))]), Claimed)
    else (db, Rejected(TicketReserved))
  }

  function ReleaseOrderReservation(db: TicketsDb, t: TicketId, o: OrderId): (TicketsDb, Reply) {
    if t !in db.rows then (db, Rejected(TicketNotFound))
    else if db.rows[t].reservedBy == Some(o) then
      (db.(rows := db.rows[t := db.rows[t].(reservedBy := None)]), Released)
    else (db, Released)
  }

  /** The Tickets-side activities: validation first, then the repository operation. */
  function Perform(db: TicketsDb, activity: Activity): (TicketsDb, Reply)
    requires activity.ClaimTicket? || activity.ReleaseTicket? || activity.PersistTicket?
        || activity.PersistTicketUpdate?
  {
    match activity
    case ClaimTicket(t, o) => ReserveForOrder(db, t, o)
    case ReleaseTicket(t, o) => ReleaseOrderReservation(db, t, o)
    case PersistTicket(input) =>
      if !ValidTicketData(input.title, input.price) || input.user == "" then (db, Rejected(InvalidTicket))
      else Create(db, input)
    case PersistTicketUpdate(input) =>
      if !ValidTicketData(input.title, input.price) || input.user == "" || input.key == "" then
        (db, Rejected(InvalidEdit))
      else UpdateWithIdempotency(db, input)
  }

  function TicketOf(activity: Activity): TicketId
    requires activity.ClaimTicket? || activity.ReleaseTicket? || activity.PersistTicket?
        || activity.PersistTicketUpdate?
  {
    match activity
    case ClaimTicket(t, _) => t
    case ReleaseTicket(t, _) => t
    case PersistTicket(input) => input.ticket
    case PersistTicketUpdate(input) => input.ticket
  }

  /* ---- The history of published versions, and the ledger that mirrors it ---- */

  /** Every version a ticket ever had: entry v - 1 is aggregate version v. */
  type History = map<TicketId, seq<Snapshot>>

  /** Extends the history when ticket t was inserted or its version advanced. */
  function Record(h: History, t: TicketId, db: TicketsDb, db': TicketsDb): History {
    if t !in db'.rows then h
    else if t !in db.rows then h[t := [SnapshotOf(t, db'.rows[t])]]
    else if t in h && db.rows[t].version != db'.rows[t].version then h[t := h[t] + [SnapshotOf(t, db'.rows[t])]]
    else h
  }

  ghost predicate WasPublished(h: History, s: Snapshot) {
    s.ticket in h && 1 <= s.version <= |h[s.ticket]| && h[s.ticket][s.version - 1] == s
  }

  /** Published versions are never rewritten; histories only grow at the end. */
  ghost predicate HistoryGrows(h: History, h': History) {
    forall t :: t in h ==> t in h' && h[t] <= h'[t]
  }

  lemma StaysPublished(h: History, h': History, s: Snapshot)
    requires HistoryGrows(h, h') && WasPublished(h, s)
    ensures WasPublished(h', s)
  {
    assert h[s.ticket] <= h'[s.ticket];
  }

  lemma RecordGrows(h: History, t: TicketId, db: TicketsDb, db': TicketsDb)
    requires h.Keys == db.rows.Keys
    ensures HistoryGrows(h, Record(h, t, db, db'))
  {
  }

  /** Each row is its newest published snapshot, and versions count the history. */
  ghost predicate HistoryOk(db: TicketsDb, h: History) {
    && h.Keys == db.rows.Keys
    && (forall t :: t in db.rows ==>
      |h[t]| == db.rows[t].version && 1 <= |h[t]| && h[t][|h[t]| - 1] == SnapshotOf(t, db.rows[t]))
    && (forall t, i :: t in h && 0 <= i < |h[t]| ==> h[t][i].ticket == t && h[t][i].version == i + 1)
  }

  /** The activities let only valid titles and prices through to the repository. */
  ghost predicate DataOk(h: History) {
    forall t, i :: t in h && 0 <= i < |h[t]| ==> ValidTicketData(h[t][i].title, h[t][i].price)
  }

  function LedgerOf(db: TicketsDb, t: TicketId): set<EditKey> {
    set k | k in db.ledger && k.ticket == t
  }

  /** Every ledger row holds exactly the snapshot of one version after the first, by the owner. */
  ghost predicate LedgerRows(db: TicketsDb, h: History) {
    forall k :: k in db.ledger ==>
      && k.ticket in db.rows
      && k.user == db.rows[k.ticket].owner
      && 2 <= db.ledger[k].version
      && db.ledger[k].ticket == k.ticket
      && WasPublished(h, db.ledger[k])
  }

  /** No two ledger rows of a ticket hold the same version. */
  ghost predicate LedgerInjective(db: TicketsDb) {
    forall k, k' | k in db.ledger && k' in db.ledger ::
      k.ticket == k'.ticket && db.ledger[k].version == db.ledger[k'].version ==> k == k'
  }

  ghost predicate HasVersion(db: TicketsDb, t: TicketId, v: int) {
    exists k :: k in db.ledger && k.ticket == t && db.ledger[k].version == v
  }

  /** Every version after the first has its ledger row. */
  ghost predicate LedgerOnto(db: TicketsDb) {
    forall t, v :: t in db.rows && 2 <= v <= db.rows[t].version ==> HasVersion(db, t, v)
  }

  ghost predicate LedgerCounts(db: TicketsDb) {
    forall t :: t in db.rows ==> db.rows[t].version == 1 + |LedgerOf(db, t)|
  }

  /** The ledger rows of a ticket correspond one to one with its versions 2, 3, ... */
  ghost predicate LedgerOk(db: TicketsDb, h: History) {
    LedgerRows(db, h) && LedgerInjective(db) && LedgerOnto(db) && LedgerCounts(db)
  }

  /** What the repository keeps by itself, whatever it is given. */
  ghost predicate Mirrors(db: TicketsDb, h: History) {
    HistoryOk(db, h) && LedgerOk(db, h)
  }

  ghost predicate Consistent(db: TicketsDb, h: History) {
    Mirrors(db, h) && DataOk(h)
  }

  /** A published version is appended to the history of a ticket together with the row that has it. */
  lemma {:induction false} VersionKeepsHistory(db: TicketsDb, h: History, t: TicketId, row: Row,
      ledger: map<EditKey, Snapshot>)
    requires HistoryOk(db, h) && t in db.rows && row.version == db.rows[t].version + 1
    ensures var db' := TicketsDb(db.rows[t := row], ledger);
            HistoryOk(db', Record(h, t, db, db'))
  {
    var db' := TicketsDb(db.rows[t := row], ledger);
    var h' := Record(h, t, db, db');
    assert h'.Keys == db'.rows.Keys;
    assert h' == h[t := h[t] + [SnapshotOf(t, row)]];
  }

  lemma {:induction false} EditKeepsHistory(db: TicketsDb, h: History, input: EditInput)
    requires HistoryOk(db, h)
    ensures var db' := UpdateWithIdempotency(db, input).0;
            HistoryOk(db', Record(h, input.ticket, db, db'))
  {
    hide HistoryOk, Record;
    var db' := UpdateWithIdempotency(db, input).0;
    if db' == db {
      NothingRecorded(db, h, input.ticket);
    } else {
      VersionKeepsHistory(db, h, input.ticket, db'.rows[input.ticket], db'.ledger);
    }
  }

  lemma NothingRecorded(db: TicketsDb, h: History, t: TicketId)
    ensures Record(h, t, db, db) == h
  {
  }

  /** A ledger that gains no row keeps its correspondence, whatever happens to claims. */
  lemma {:induction false} SameLedger(db: TicketsDb, db': TicketsDb, h: History)
    requires HistoryOk(db, h) && LedgerOk(db, h)
    requires db'.ledger == db.ledger && db'.rows.Keys == db.rows.Keys
    requires forall t :: t in db.rows ==>
      db'.rows[t].version == db.rows[t].version && db'.rows[t].owner == db.rows[t].owner
    ensures LedgerOk(db', h)
  {
    forall u, n | u in db'.rows && 2 <= n <= db'.rows[u].version
      ensures HasVersion(db', u, n)
    {
      assert HasVersion(db, u, n);
    }
    forall u | u in db'.rows
      ensures db'.rows[u].version == 1 + |LedgerOf(db', u)|
    {
      assert LedgerOf(db', u) == LedgerOf(db, u);
    }
  }

  /** A ledger row inserted together with the version it records. */
  ghost predicate Appends(db: TicketsDb, db': TicketsDb, k: EditKey) {
    && k.ticket in db.rows && k !in db.ledger
    && db'.ledger.Keys == db.ledger.Keys + {k}
    && (forall j :: j in db.ledger ==> db'.ledger[j] == db.ledger[j])
    && db'.ledger[k].version == db.rows[k.ticket].version + 1
    && db'.rows.Keys == db.rows.Keys
    && (forall t :: t in db.rows ==>
      db'.rows[t].version == if t == k.ticket then db.rows[t].version + 1 else db.rows[t].version)
  }

  lemma {:induction false} AppendKeepsOnto(db: TicketsDb, db': TicketsDb, k: EditKey)
    requires LedgerOnto(db) && Appends(db, db', k)
    ensures LedgerOnto(db')
  {
    forall u, n | u in db'.rows && 2 <= n <= db'.rows[u].version
      ensures HasVersion(db', u, n)
    {
      if u == k.ticket && n == db'.rows[u].version {
        assert k in db'.ledger && db'.ledger[k].version == n;
      } else {
        assert HasVersion(db, u, n);
        var j :| j in db.ledger && j.ticket == u && db.ledger[j].version == n;
        assert j in db'.ledger && db'.ledger[j].version == n;
      }
    }
  }

  lemma {:induction false} AppendKeepsCounts(db: TicketsDb, db': TicketsDb, k: EditKey)
    requires LedgerCounts(db) && Appends(db, db', k)
    ensures LedgerCounts(db')
  {
    forall u | u in db'.rows
      ensures db'.rows[u].version == 1 + |LedgerOf(db', u)|
    {
      LedgerSize(db, db', k, u);
    }
  }

  lemma {:induction false} LedgerSize(db: TicketsDb, db': TicketsDb, k: EditKey, u: TicketId)
    requires k !in db.ledger && db'.ledger.Keys == db.ledger.Keys + {k}
    ensures |LedgerOf(db', u)| == |LedgerOf(db, u)| + if u == k.ticket then 1 else 0
  {
    if u == k.ticket {
      assert LedgerOf(db', u) == LedgerOf(db, u) + {k};
    } else {
      assert LedgerOf(db', u) == LedgerOf(db, u);
    }
  }

  lemma {:induction false} AppendKeepsInjective(db: TicketsDb, db': TicketsDb, h: History, k: EditKey)
    requires HistoryOk(db, h) && LedgerRows(db, h) && LedgerInjective(db) && Appends(db, db', k)
    ensures LedgerInjective(db')
  {
    forall j | j in db.ledger && j.ticket == k.ticket
      ensures db'.ledger[j].version < db'.ledger[k].version
    {
      assert WasPublished(h, db.ledger[j]);
    }
  }

  lemma {:induction false} EditKeepsRows(db: TicketsDb, h: History, input: EditInput)
    requires HistoryOk(db, h) && LedgerRows(db, h)
    requires UpdateWithIdempotency(db, input).0 != db
    ensures var db' := UpdateWithIdempotency(db, input).0;
            LedgerRows(db', Record(h, input.ticket, db, db'))
  {
    var db' := UpdateWithIdempotency(db, input).0;
    var h' := Record(h, input.ticket, db, db');
    RecordGrows(h, input.ticket, db, db');
    assert WasPublished(h', db'.ledger[KeyOf(input)]);
    forall j | j in db.ledger
      ensures WasPublished(h', db.ledger[j])
    {
      StaysPublished(h, h', db.ledger[j]);
    }
  }

  lemma {:induction false} EditKeepsLedger(db: TicketsDb, h: History, input: EditInput)
    requires Mirrors(db, h)
    ensures var db' := UpdateWithIdempotency(db, input).0;
            LedgerOk(db', Record(h, input.ticket, db, db'))
  {
    hide HistoryOk, LedgerRows, LedgerInjective, LedgerOnto, LedgerCounts, Appends;
    var db' := UpdateWithIdempotency(db, input).0;
    var k := KeyOf(input);
    if db' == db {
      NothingRecorded(db, h, input.ticket);
    } else {
      EditAppends(db, input);
      AppendKeepsOnto(db, db', k);
      AppendKeepsCounts(db, db', k);
      AppendKeepsInjective(db, db', h, k);
      EditKeepsRows(db, h, input);
    }
  }

  lemma EditAppends(db: TicketsDb, input: EditInput)
    requires UpdateWithIdempotency(db, input).0 != db
    ensures Appends(db, UpdateWithIdempotency(db, input).0, KeyOf(input))
  {
  }

  lemma {:induction false} CreateKeepsHistory(db: TicketsDb, h: History, input: TicketInput)
    requires HistoryOk(db, h) && input.ticket !in db.rows && 0 < input.price
    ensures var db' := Create(db, input).0;
            HistoryOk(db', Record(h, input.ticket, db, db'))
  {
    FirstVersionKeepsHistory(db, h, input.ticket, Row(input.title, input.price, input.user, 1, None));
    hide HistoryOk, Record;
  }

  lemma {:induction false} FirstVersionKeepsHistory(db: TicketsDb, h: History, t: TicketId, row: Row)
    requires HistoryOk(db, h) && t !in db.rows && row.version == 1
    ensures var db' := db.(rows := db.rows[t := row]);
            HistoryOk(db', Record(h, t, db, db'))
  {
    var db' := db.(rows := db.rows[t := row]);
    assert Record(h, t, db, db') == h[t := [SnapshotOf(t, row)]];
  }

  lemma {:induction false} CreateKeepsRows(db: TicketsDb, h: History, input: TicketInput)
    requires h.Keys == db.rows.Keys && LedgerRows(db, h) && input.ticket !in db.rows && 0 < input.price
    ensures var db' := Create(db, input).0;
            LedgerRows(db', Record(h, input.ticket, db, db'))
  {
    var db' := Create(db, input).0;
    var h' := Record(h, input.ticket, db, db');
    RecordGrows(h, input.ticket, db, db');
    forall j | j in db.ledger
      ensures WasPublished(h', db.ledger[j])
    {
      StaysPublished(h, h', db.ledger[j]);
    }
  }

  lemma {:induction false} CreateKeepsMirror(db: TicketsDb, h: History, input: TicketInput)
    requires Mirrors(db, h)
    ensures var db' := Create(db, input).0;
            Mirrors(db', Record(h, input.ticket, db, db'))
  {
    if input.ticket in db.rows || input.price <= 0 {
      assert Create(db, input).0 == db;
    } else {
      CreateKeepsHistory(db, h, input);
      CreateKeepsRows(db, h, input);
      CreateKeepsCorrespondence(db, h, input);
    }
  }

  lemma {:induction false} CreateKeepsCorrespondence(db: TicketsDb, h: History, input: TicketInput)
    requires LedgerOk(db, h) && input.ticket !in db.rows && 0 < input.price
    ensures var db' := Create(db, input).0;
            LedgerOnto(db') && LedgerCounts(db')
  {
    var db' := Create(db, input).0;
    forall u, n | u in db'.rows && 2 <= n <= db'.rows[u].version
      ensures HasVersion(db', u, n)
    {
      assert HasVersion(db, u, n);
    }
    forall u | u in db'.rows
      ensures db'.rows[u].version == 1 + |LedgerOf(db', u)|
    {
      if u == input.ticket {
        assert LedgerOf(db', u) == {};
      } else {
        assert LedgerOf(db', u) == LedgerOf(db, u);
      }
    }
  }

  /** Claims and releases touch neither versions nor the ledger. */
  lemma {:induction false} ClaimsKeepMirror(db: TicketsDb, h: History, t: TicketId, claim: Option<OrderId>)
    requires Mirrors(db, h) && t in db.rows
    ensures Mirrors(db.(rows := db.rows[t := db.rows[t].(reservedBy := claim)]), h)
  {
    var db' := db.(rows := db.rows[t := db.rows[t].(reservedBy := claim)]);
    assert db'.rows.Keys == db.rows.Keys;
    SameLedger(db, db', h);
  }

  /** Recording a row with valid data keeps all published data valid. */
  lemma {:induction false} RecordKeepsData(h: History, t: TicketId, db: TicketsDb, db': TicketsDb)
    requires DataOk(h) && (Record(h, t, db, db') != h && t in db'.rows ==>
      ValidTicketData(db'.rows[t].title, db'.rows[t].price))
    ensures DataOk(Record(h, t, db, db'))
  {
    hide ValidTicketData;
  }

  /** Every Tickets activity keeps the history and the ledger in step, and publishes valid data only. */
  lemma {:induction false} PerformKeepsConsistent(db: TicketsDb, h: History, activity: Activity)
    requires activity.ClaimTicket? || activity.ReleaseTicket? || activity.PersistTicket?
        || activity.PersistTicketUpdate?
    requires Consistent(db, h)
    ensures var db' := Perform(db, activity).0;
            Consistent(db', Record(h, TicketOf(activity), db, db'))
  {
    PerformKeepsMirror(db, h, activity);
    PerformPublishes(db, h, activity);
    hide Perform, Record, Mirrors, DataOk;
    RecordKeepsData(h, TicketOf(activity), db, Perform(db, activity).0);
  }

  lemma {:induction false} PerformKeepsMirror(db: TicketsDb, h: History, activity: Activity)
    requires activity.ClaimTicket? || activity.ReleaseTicket? || activity.PersistTicket?
        || activity.PersistTicketUpdate?
    requires Mirrors(db, h)
    ensures var db' := Perform(db, activity).0;
            Mirrors(db', Record(h, TicketOf(activity), db, db'))
  {
    hide HistoryOk, LedgerOk, ValidTicketData;
    var db' := Perform(db, activity).0;
    match activity
    case ClaimTicket(t, o) =>
      if db' != db { ClaimsKeepMirror(db, h, t, Some(o)); }
    case ReleaseTicket(t, o) =>
      if db' != db { ClaimsKeepMirror(db, h, t, None); }
    case PersistTicket(input) => CreateKeepsMirror(db, h, input);
    case PersistTicketUpdate(input) =>
      EditKeepsHistory(db, h, input);
      EditKeepsLedger(db, h, input);
  }

  /** What an activity publishes was validated by it. */
  lemma {:induction false} PerformPublishes(db: TicketsDb, h: History, activity: Activity)
    requires activity.ClaimTicket? || activity.ReleaseTicket? || activity.PersistTicket?
        || activity.PersistTicketUpdate?
    ensures var t, db' := TicketOf(activity), Perform(db, activity).0;
            Record(h, t, db, db') != h && t in db'.rows ==> ValidTicketData(db'.rows[t].title, db'.rows[t].price)
  {
    hide ValidTicketData;
  }
}
