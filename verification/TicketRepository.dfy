/**
  The Tickets repository as it runs: a class over its two tables, updated in place.
  Every method is proved against the function of the tables in TicketStore and keeps
  the ledger and the published history in step.
 */
module Tickets {
  import opened Domain
  import opened TicketStore

  class TicketRepository {
    var rows: map<TicketId, Row>
    var ledger: map<EditKey, Snapshot>
    ghost var history: History

    function Db(): TicketsDb
      reads this
    {
      TicketsDb(rows, ledger)
    }

    ghost predicate Valid()
      reads this
    {
      Mirrors(Db(), history)
    }

    constructor ()
      ensures Valid() && Db() == TicketsDb(map[], map[]) && history == map[]
    {
      rows, ledger := map[], map[];
      history := map[];
    }

    method Create(input: TicketInput) returns (reply: Reply)
      requires Valid()
      modifies this
      ensures Valid()
      ensures (Db(), reply) == TicketStore.Create(old(Db()), input)
      ensures ledger == old(ledger) && rows ==
        if 0 < input.price && input.ticket !in old(rows)
        then old(rows)[input.ticket := Row(input.title, input.price, input.user, 1, None)]
        else old(rows)
      ensures reply ==
        if input.price <= 0 || (input.ticket in old(rows) && old(rows)[input.ticket].owner != input.user)
        then Rejected(InvalidTicket)
        else TicketStored(Snapshot(input.ticket, input.title, input.price, 1))
      ensures history == Record(old(history), input.ticket, old(Db()), Db())
    {
      ghost var before := Db();
      CreateKeepsMirror(before, history, input);
      NothingRecorded(before, history, input.ticket);
      if input.price <= 0 {
        return Rejected(InvalidTicket);
      }
      if input.ticket !in rows {
        rows := rows[input.ticket := Row(input.title, input.price, input.user, 1, None)];
      }
      history := Record(history, input.ticket, before, Db());
      if rows[input.ticket].owner != input.user {
        return Rejected(InvalidTicket);
      }
      return TicketStored(Snapshot(input.ticket, input.title, input.price, 1));
    }

    method UpdateWithIdempotency(input: EditInput) returns (reply: Reply)
      requires Valid()
      modifies this
      ensures Valid()
      ensures (Db(), reply) == TicketStore.UpdateWithIdempotency(old(Db()), input)
      ensures reply ==
        if input.ticket !in old(rows) then Rejected(EditNotFound)
        else if old(rows)[input.ticket].owner != input.user then Rejected(EditForbidden)
        else if old(rows)[input.ticket].reservedBy != None then Rejected(EditReserved)
        else if EditKey(input.ticket, input.user, input.key) in old(ledger) then
          TicketStored(old(ledger)[EditKey(input.ticket, input.user, input.key)])
        else if input.price <= 0 then Rejected(InvalidEdit)
        else TicketStored(Snapshot(input.ticket, input.title, input.price, old(rows)[input.ticket].version + 1))
      ensures if reply.TicketStored? && EditKey(input.ticket, input.user, input.key) !in old(ledger) then
                && rows == old(rows)[input.ticket :=
                     Row(input.title, input.price, input.user, old(rows)[input.ticket].version + 1, None)]
                && ledger == old(ledger)[EditKey(input.ticket, input.user, input.key) := reply.snapshot]
              else rows == old(rows) && ledger == old(ledger)
      ensures history == Record(old(history), input.ticket, old(Db()), Db())
    {
      ghost var before, past := Db(), history;
      NothingRecorded(before, history, input.ticket);
      if input.ticket !in rows {
        return Rejected(EditNotFound);
      }
      var row := rows[input.ticket];
      if row.owner != input.user {
        return Rejected(EditForbidden);
      }
      if row.reservedBy.Some? {
        return Rejected(EditReserved);
      }
      var key := EditKey(input.ticket, input.user, input.key);
      if key in ledger {
        return TicketStored(ledger[key]);
      }
      if input.price <= 0 {
        return Rejected(InvalidEdit);
      }
      row := row.(title := input.title, price := input.price, version := row.version + 1);
      rows := rows[input.ticket := row];
      var updated := Snapshot(input.ticket, row.title, row.price, row.version);
      ledger := ledger[key := updated];
      history := Record(history, input.ticket, before, Db());
      assert Db() == TicketStore.UpdateWithIdempotency(before, input).0;
      assert Valid() by {
        EditKeepsHistory(before, past, input);
        EditKeepsLedger(before, past, input);
      }
      return TicketStored(updated);
    }

    method ReserveForOrder(t: TicketId, o: OrderId) returns (reply: Reply)
      requires Valid()
      modifies this`rows
      ensures Valid()
      ensures (Db(), reply) == TicketStore.ReserveForOrder(old(Db()), t, o)
      ensures reply ==
        if t !in old(rows) then Rejected(TicketNotFound)
        else if old(rows)[t].reservedBy in {None, Some(o)} then Claimed
        else Rejected(TicketReserved)
      ensures rows == if reply == Claimed then old(rows)[t := old(rows)[t].(reservedBy := Some(o))] else old(rows)
    {
      if t in rows && (rows[t].reservedBy == None || rows[t].reservedBy == Some(o)) {
        ClaimsKeepMirror(Db(), history, t, Some(o));
        rows := rows[t := rows[t].(reservedBy := Some(o))];
        return Claimed;
      }
      if t !in rows {
        return Rejected(TicketNotFound);
      }
      return Rejected(TicketReserved);
    }

    method ReleaseOrderReservation(t: TicketId, o: OrderId) returns (reply: Reply)
      requires Valid()
      modifies this`rows
      ensures Valid()
      ensures (Db(), reply) == TicketStore.ReleaseOrderReservation(old(Db()), t, o)
      ensures reply == if t in old(rows) then Released else Rejected(TicketNotFound)
      ensures rows ==
        if t in old(rows) && old(rows)[t].reservedBy == Some(o) then old(rows)[t := old(rows)[t].(reservedBy := None)]
        else old(rows)
    {
      if t in rows && rows[t].reservedBy == Some(o) {
        ClaimsKeepMirror(Db(), history, t, None);
        rows := rows[t := rows[t].(reservedBy := None)];
        return Released;
      }
      if t !in rows {
        return Rejected(TicketNotFound);
      }
      return Released;
    }
  }
}
