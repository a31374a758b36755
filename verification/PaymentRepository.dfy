/**
  The Payments repository as it runs: a class over the order copies and the payments,
  with its UNIQUE(order_id) index, updated in place. Every method is proved against the
  function of the tables in PaymentStore.
 */
module Payments {
  import opened Domain
  import opened PaymentStore

  class PaymentRepository {
    var copies: map<OrderId, OrderCopy>
    var payments: map<PaymentId, Payment>
    var byOrder: map<OrderId, PaymentId>

    function Db(): PaymentsDb
      reads this
    {
      PaymentsDb(copies, payments, byOrder)
    }

    ghost predicate Valid()
      reads this
    {
      IndexOk(Db()) && OutcomesTerminal(Db())
    }

    constructor ()
      ensures Valid() && Db() == PaymentsDb(map[], map[], map[])
    {
      copies, payments, byOrder := map[], map[], map[];
    }

    /** id is the key that the database generates for a new payment. */
    method Create(id: PaymentId, o: OrderId, copy: OrderCopy) returns (payment: Payment, created: bool)
      requires Valid() && id !in payments
      modifies this
      ensures Valid()
      ensures (Db(), PaymentStored(payment, created)) == PaymentStore.Create(old(Db()), id, o, copy)
      ensures o in byOrder && payments[byOrder[o]] == payment && payment.order == o
      ensures created <==> o !in old(byOrder)
      ensures if created then
                && payment == Payment(id, o, Pending, None, None)
                && payments == old(payments)[id := payment] && byOrder == old(byOrder)[o := id]
                && copies == old(copies)[o := copy]
              else
                && payment == old(payments)[old(byOrder)[o]]
                && payments == old(payments) && byOrder == old(byOrder) && copies == old(copies)
    {
      CreateKeepsIndex(Db(), id, o, copy);
      if o !in copies {
        copies := copies[o := copy];
      }
      if o !in byOrder {
        payment := Payment(id, o, Pending, None, None);
        payments := payments[id := payment];
        byOrder := byOrder[o := id];
        return payment, true;
      }
      return payments[byOrder[o]], false;
    }

    method FindByOrderAndUser(o: OrderId, u: UserId) returns (found: Option<Payment>)
      requires Valid()
      ensures found == PaymentStore.FindByOrderAndUser(Db(), o, u)
      ensures found.Some? <==> exists p :: p in payments && payments[p].order == o && copies[o].user == u
    {
      if o in byOrder && copies[o].user == u {
        assert byOrder[o] in payments;
        return Some(payments[byOrder[o]]);
      }
      return None;
    }

    predicate IsLowest(p: PaymentId, now: Time, locked: set<PaymentId>)
      reads this
    {
      forall q :: q in payments && Claimable(payments[q], now) && q !in locked ==> p <= q
    }

    /**
      locked are the rows that other claimers hold at this moment; SKIP LOCKED passes over
      them. A configured outcome that the column's CHECK forbids fails, and changes nothing,
      when the claimed row would need it.
     */
    method ClaimNextPending(configured: PaymentStatus, until: Time, now: Time, locked: set<PaymentId>)
      returns (claimed: Option<Payment>, failed: bool)
      requires Valid()
      modifies this`payments
      ensures Valid()
      ensures claimed == None && !failed <==> NonePending(old(Db()), now, locked)
      ensures claimed == None && !failed <==>
        forall q :: q in old(payments) && q !in locked && old(payments)[q].status == Pending ==>
          old(payments)[q].lease.Some? && now < old(payments)[q].lease.value
      ensures failed <==>
        configured == Pending && exists p :: NextPending(old(Db()), now, locked, p) && old(payments)[p].outcome == None
      ensures claimed == None ==> Db() == old(Db())
      ensures claimed.Some? ==>
        && !failed
        && NextPending(old(Db()), now, locked, claimed.value.id)
        && Db() == Claim(old(Db()), claimed.value.id, configured, until)
        && var row := old(payments)[claimed.value.id];
           && claimed.value == Payment(row.id, row.order, Pending,
                                       if row.outcome == None then Some(configured) else row.outcome, Some(until))
           && payments == old(payments)[row.id := claimed.value]
    {
      hide IndexOk;
      ghost var db := Db();
      ghost var answer := PendingQueryAnswers(db, now, locked);
      NextIsUnique(db, now, locked);
      if p :| p in payments && Claimable(payments[p], now) && p !in locked && IsLowest(p, now, locked) {
        ClaimKeepsIndex(db, p, configured, until);
        ClaimFacts(db, p);
        assert NextPending(db, now, locked, p);
        var row := payments[p];
        var outcome := if row.outcome.Some? then row.outcome else Some(configured);
        if outcome == Some(Pending) {
          return None, true;
        }
        payments := payments[p := row.(outcome := outcome, lease := Some(until))];
        return Some(payments[p]), false;
      }
      assert answer == None;
      return None, false;
    }

    /** False is ErrPaymentNotPending. */
    method MarkResolved(p: PaymentId, outcome: PaymentStatus) returns (ok: bool)
      requires Valid()
      modifies this`payments, this`copies
      ensures Valid()
      ensures ok <==> Resolvable(old(Db()), p, outcome)
      ensures outcome == Pending ==> !ok
      ensures Db() == PaymentStore.MarkResolved(old(Db()), p, outcome)
      ensures if ok then
                && var row := old(payments)[p];
                   && row.status == Pending && row.outcome == Some(outcome)
                   && payments == old(payments)[p := row.(status := outcome, lease := None)]
                   && row.order in old(copies)
                   && copies == old(copies)[row.order := old(copies)[row.order].(
                        status := if outcome == Succeeded then Complete else Canceled)]
              else payments == old(payments) && copies == old(copies)
    {
      MarkKeepsIndex(Db(), p, outcome);
      if p !in payments || payments[p].status != Pending || payments[p].outcome != Some(outcome) {
        return false;
      }
      var o := payments[p].order;
      payments := payments[p := payments[p].(status := outcome, lease := None)];
      copies := copies[o := copies[o].(status := if outcome == Succeeded then Complete else Canceled)];
      return true;
    }
  }

  lemma ClaimFacts(db: PaymentsDb, p: PaymentId)
    requires IndexOk(db) && p in db.payments
    ensures db.payments[p].id == p
  {
  }

  lemma NextIsUnique(db: PaymentsDb, now: Time, locked: set<PaymentId>)
    ensures forall p, q :: NextPending(db, now, locked, p) && NextPending(db, now, locked, q) ==> p == q
    ensures forall p :: NextPending(db, now, locked, p) ==> !NonePending(db, now, locked)
  {
  }

  /** The claiming query always has an answer: the lowest claimable id, or none. */
  lemma {:induction false} PendingQueryAnswers(db: PaymentsDb, now: Time, locked: set<PaymentId>)
    returns (found: Option<PaymentId>)
    ensures found == None ==> NonePending(db, now, locked)
    ensures found.Some? ==> NextPending(db, now, locked, found.value)
  {
    var candidates := set p | p in db.payments && Claimable(db.payments[p], now) && p !in locked;
    if candidates == {} {
      found := None;
      forall q | q in db.payments && q !in locked
        ensures !Claimable(db.payments[q], now)
      {
        assert q !in candidates;
      }
    } else {
      var p := Lowest(candidates);
      found := Some(p);
      forall q | q in db.payments && Claimable(db.payments[q], now) && q !in locked
        ensures p <= q
      {
        assert q in candidates;
      }
    }
  }

  lemma {:induction false} Lowest(ids: set<PaymentId>) returns (p: PaymentId)
    requires ids != {}
    ensures p in ids && forall q :: q in ids ==> p <= q
    decreases ids
  {
    var first :| first in ids;
    p := first;
    if ids != {first} {
      var rest := Lowest(ids - {first});
      p := if rest < first then rest else first;
      forall q | q in ids
        ensures p <= q
      {
        assert q == first || q in ids - {first};
      }
    }
  }
}
