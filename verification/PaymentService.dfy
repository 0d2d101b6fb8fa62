/**
The payment service as it runs: SQL statements on mutable tables and the two use cases as
transactions over them, each proved to do what its function in `Payments` says.
*/
module PaymentService {
  import opened Common
  import opened Payments

  /** The payments and refunds tables with their unique indexes, one method per statement. */
  class Repository {
    var payments: map<PaymentId, Payment>
    var byOrder: map<OrderId, PaymentId>
    var refunds: map<RefundId, Refund>
    var byKey: map<Key, RefundId>

    constructor (db: Tables)
      ensures Db() == db
    {
      payments, byOrder, refunds, byKey := db.payments, db.byOrder, db.refunds, db.byKey;
    }

    function Db(): Tables
      reads this
    {
      Tables(payments, byOrder, refunds, byKey)
    }

    // INSERT ... ON CONFLICT (order_id) DO NOTHING RETURNING, then SELECT ... FOR UPDATE
    method CreateOrGet(id: PaymentId, p: Payment) returns (found: Option<PaymentId>, error: Error)
      modifies `payments, `byOrder
      ensures p.amount < 0 ==> found.None? && error == NegativeAmount
      ensures p.amount >= 0 && p.order in old(byOrder) ==>
        if old(byOrder)[p.order] in old(payments) then found == Some(old(byOrder)[p.order])
        else found.None? && error == PaymentNotFound
      ensures p.amount >= 0 && p.order !in old(byOrder) ==>
        if id in old(payments) then found.None? && error == DuplicateId else found == Some(id)
      ensures if p.amount >= 0 && p.order !in old(byOrder) && id !in old(payments)
        then payments == old(payments)[id := p] && byOrder == old(byOrder)[p.order := id]
        else payments == old(payments) && byOrder == old(byOrder)
      ensures found.Some? ==> found.value in payments
    {
      found, error := None, NegativeAmount;
      if p.amount < 0 {
        return;
      }
      if p.order in byOrder {
        if byOrder[p.order] in payments {
          found := Some(byOrder[p.order]);
        } else {
          error := PaymentNotFound;
        }
      } else if id in payments {
        error := DuplicateId;
      } else {
        payments := payments[id := p];
        byOrder := byOrder[p.order := id];
        found := Some(id);
      }
    }

    // UPDATE payments SET status = to WHERE id = id AND status = from
    method UpdateStatusIf(id: PaymentId, to: Status, from: Status) returns (updated: bool)
      modifies `payments
      ensures updated <==> id in old(payments) && old(payments)[id].status == from
      ensures payments == if updated then old(payments)[id := old(payments)[id].(status := to)] else old(payments)
    {
      updated := id in payments && payments[id].status == from;
      if updated {
        payments := payments[id := payments[id].(status := to)];
      }
    }

    method CreateRefund(rid: RefundId, r: Refund) returns (inserted: bool)
      modifies `refunds, `byKey
      ensures inserted <==> rid !in old(refunds) && (r.key != NoKey ==> r.key !in old(byKey))
      ensures inserted ==> refunds == old(refunds)[rid := r]
      ensures inserted ==> byKey == if r.key == NoKey then old(byKey) else old(byKey)[r.key := rid]
      ensures !inserted ==> refunds == old(refunds) && byKey == old(byKey)
    {
      inserted := rid !in refunds && (r.key != NoKey ==> r.key !in byKey);
      if inserted {
        refunds := refunds[rid := r];
        if r.key != NoKey {
          byKey := byKey[r.key := rid];
        }
      }
    }

    method Rollback(db: Tables)
      modifies this
      ensures Db() == db
    {
      payments, byOrder, refunds, byKey := db.payments, db.byOrder, db.refunds, db.byKey;
    }
  }

  // The answer when the commit is refused: an error stays what it is.
  function OrFailed(reply: Reply): Reply {
    if reply.Err? then reply else Err(CommitFailed)
  }

  class Usecase {
    const repo: Repository

    constructor (repo: Repository)
      ensures this.repo == repo
    {
      this.repo := repo;
    }

    /** Creates the order's payment or finds it, and gives a pending one its verdict, in one
        transaction. */
    method ProcessPayment(order: OrderId, amount: int, draw: Draw, commits: bool) returns (reply: Reply)
      modifies repo
      ensures commits ==> Result(repo.Db(), reply) == ProcessPaymentTx(old(repo.Db()), order, amount, draw)
      ensures !commits ==> repo.Db() == old(repo.Db())
      ensures !commits ==> reply == OrFailed(ProcessPaymentTx(old(repo.Db()), order, amount, draw).reply)
    {
      var final := if draw.success then Success else Failed;
      var before := repo.Db();
      var found, error := repo.CreateOrGet(draw.payment, Payment(order, amount, Pending));
      if found.None? {
        return Err(error);
      }
      var status := repo.payments[found.value].status;
      if status == Pending {
        var _ := repo.UpdateStatusIf(found.value, final, Pending);
        status := final;
      }
      reply := Charged(found.value, status);
      if !commits {
        repo.Rollback(before);
        reply := Err(CommitFailed);
      }
    }

    // The statements of one refund.  On an error the tables may be half written; the
    // transaction below discards them.
    method RefundScript(rid: RefundId, pid: PaymentId, amount: int, key: Key) returns (reply: Reply)
      modifies repo
      ensures reply == RefundTx(old(repo.Db()), rid, pid, amount, key).reply
      ensures !reply.Err? ==> repo.Db() == RefundTx(old(repo.Db()), rid, pid, amount, key).db
    {
      if key != NoKey && key in repo.byKey {
        return RefundedBy(repo.byKey[key]);
      }
      if pid !in repo.payments {
        return Err(PaymentNotFound);
      }
      var payment := repo.payments[pid];
      if payment.status != Success {
        return Err(NotRefundable);
      }
      var refundAmount := amount;
      if refundAmount == 0 {
        refundAmount := payment.amount;
      }
      if refundAmount > payment.amount {
        return Err(AmountExceeds);
      }
      var inserted := repo.CreateRefund(rid, Refund(pid, refundAmount, key));
      if !inserted {
        return Err(DuplicateId);
      }
      var updated := repo.UpdateStatusIf(pid, Refunded, Success);
      if !updated {
        return Err(NotRefundable);
      }
      return RefundedBy(rid);
    }

    method RefundPayment(rid: RefundId, pid: PaymentId, amount: int, key: Key, commits: bool) returns (reply: Reply)
      modifies repo
      ensures commits ==> Result(repo.Db(), reply) == RefundTx(old(repo.Db()), rid, pid, amount, key)
      ensures !commits ==> repo.Db() == old(repo.Db())
      ensures !commits ==> reply == OrFailed(RefundTx(old(repo.Db()), rid, pid, amount, key).reply)
    {
      var before := repo.Db();
      reply := RefundScript(rid, pid, amount, key);
      if reply.Err? || !commits {
        repo.Rollback(before);
        if !reply.Err? {
          reply := Err(CommitFailed);
        }
      }
    }
  }
}
