/**
The payment tables and the two transactions on them, `ProcessPayment` and `Refund`.
The two unique indexes that the logic leans on, payments(order_id) and
refunds(idempotency_key), are part of the state.
*/
module Payments {
  import opened Common

  datatype Status = Pending | Success | Failed | Refunded

  datatype Payment = Payment(order: OrderId, amount: int, status: Status)

  // An idempotency key: absent (the empty string), one the saga derives from a payment id,
  // or any other text a client sends.  The saga's text ends in the 36-character payment
  // id, so it determines that id; see RefundKeyText.
  datatype Key = NoKey | RefundKey(base: string, payment: PaymentId) | OtherKey(text: string)

  datatype Refund = Refund(payment: PaymentId, amount: int, key: Key)

  datatype Tables = Tables(
    payments: map<PaymentId, Payment>,
    byOrder: map<OrderId, PaymentId>,
    refunds: map<RefundId, Refund>,
    byKey: map<Key, RefundId>)

  datatype Error =
    | NegativeAmount
    | DuplicateId
    | PaymentNotFound
    | NotRefundable
    | AmountExceeds
    | CommitFailed

  datatype Reply =
    | Charged(id: PaymentId, status: Status)
    | RefundedBy(refund: RefundId)
    | Err(error: Error)

  // What chance contributes to a payment: the fresh id and the simulated verdict.
  datatype Draw = Draw(payment: PaymentId, success: bool)

  datatype Call =
    | ProcessPayment(order: OrderId, total: int, draw: Draw)
    | RefundPayment(refund: RefundId, payment: PaymentId, amount: int, key: Key)

  datatype Result = Result(db: Tables, reply: Reply)

  function Verdict(draw: Draw): Status {
    if draw.success then Success else Failed
  }

  function ProcessPaymentTx(db: Tables, order: OrderId, amount: int, draw: Draw): Result {
    if amount < 0 then
      Result(db, Err(NegativeAmount))
    else if order in db.byOrder then
      var id := db.byOrder[order];
      if id !in db.payments then
        Result(db, Err(PaymentNotFound))
      else if db.payments[id].status == Pending then
        Result(db.(payments := db.payments[id := db.payments[id].(status := Verdict(draw))]),
               Charged(id, Verdict(draw)))
      else
        Result(db, Charged(id, db.payments[id].status))
    else if draw.payment in db.payments then
      Result(db, Err(DuplicateId))
    else
      Result(db.(payments := db.payments[draw.payment := Payment(order, amount, Verdict(draw))],
                 byOrder := db.byOrder[order := draw.payment]),
             Charged(draw.payment, Verdict(draw)))
  }

  /** What every charge is answered: the status in the reply is the one in the row afterwards,
      and it is decided.  A first charge writes one payment of the order's amount. */
  lemma ChargeAnswers(db: Tables, order: OrderId, amount: int, draw: Draw)
    ensures var r := ProcessPaymentTx(db, order, amount, draw);
            && (r.reply == Err(NegativeAmount) <==> amount < 0)
            && (r.reply.Err? ==> r.db == db)
            && (r.reply.Charged? ==>
                  && r.reply.id in r.db.payments && r.db.payments[r.reply.id].status == r.reply.status != Pending
                  && order in r.db.byOrder && r.db.byOrder[order] == r.reply.id
                  && r.db.refunds == db.refunds && r.db.byKey == db.byKey)
            && (amount >= 0 && order !in db.byOrder ==>
                  && (r.reply == Err(DuplicateId) <==> draw.payment in db.payments)
                  && (draw.payment !in db.payments ==>
                        && r.reply == Charged(draw.payment, if draw.success then Success else Failed)
                        && r.db.byOrder == db.byOrder[order := draw.payment]
                        && r.db.payments.Keys == db.payments.Keys + {draw.payment}
                        && r.db.payments[draw.payment].order == order
                        && r.db.payments[draw.payment].amount == amount
                        && (forall id <- db.payments :: r.db.payments[id] == db.payments[id])))
            && (amount >= 0 && order in db.byOrder && db.byOrder[order] in db.payments ==>
                  var row := db.payments[db.byOrder[order]];
                  && r.reply.Charged? && r.reply.id == db.byOrder[order]
                  && (row.status != Pending ==> r.db == db)
                  && (row.status == Pending ==>
                        && r.reply.status == (if draw.success then Success else Failed)
                        && r.db == db.(payments := db.payments[r.reply.id := row.(status := r.reply.status)])))
  {
  }

  // A request for 0 means the whole payment.
  function RefundAmount(requested: int, paid: int): int {
    if requested == 0 then paid else requested
  }

  function WithRefund(db: Tables, rid: RefundId, refund: Refund): Tables {
    db.(refunds := db.refunds[rid := refund],
        byKey := if refund.key == NoKey then db.byKey else db.byKey[refund.key := rid])
  }

  function WithStatus(db: Tables, pid: PaymentId, status: Status): Tables
    requires pid in db.payments
  {
    db.(payments := db.payments[pid := db.payments[pid].(status := status)])
  }

  function RefundTx(db: Tables, rid: RefundId, pid: PaymentId, amount: int, key: Key): Result {
    if key != NoKey && key in db.byKey then
      Result(db, RefundedBy(db.byKey[key]))
    else if pid !in db.payments then
      Result(db, Err(PaymentNotFound))
    else if db.payments[pid].status != Success then
      Result(db, Err(NotRefundable))
    else
      var a := RefundAmount(amount, db.payments[pid].amount);
      if a > db.payments[pid].amount then
        Result(db, Err(AmountExceeds))
      else if rid in db.refunds then
        Result(db, Err(DuplicateId))
      else
        Result(WithStatus(WithRefund(db, rid, Refund(pid, a, key)), pid, Refunded), RefundedBy(rid))
  }

  /** What every refund is answered.  A spent key is answered with its refund and nothing else
      is looked at.  Otherwise a successful payment of `paid` is refunded by exactly the amount
      asked for, by `paid` if that is 0, and not at all if it is more than `paid`. */
  lemma RefundAnswers(db: Tables, rid: RefundId, pid: PaymentId, amount: int, key: Key)
    ensures var r := RefundTx(db, rid, pid, amount, key);
            && (key != NoKey && key in db.byKey ==> r == Result(db, RefundedBy(db.byKey[key])))
            && (key == NoKey || key !in db.byKey ==>
                  && (pid !in db.payments ==> r == Result(db, Err(PaymentNotFound)))
                  && (pid in db.payments && db.payments[pid].status != Success ==>
                        r == Result(db, Err(NotRefundable)))
                  && (pid in db.payments && db.payments[pid].status == Success ==>
                        var paid := db.payments[pid].amount;
                        && (amount != 0 && amount > paid ==> r == Result(db, Err(AmountExceeds)))
                        && (amount == 0 || amount <= paid ==>
                              if rid in db.refunds then r == Result(db, Err(DuplicateId)) else
                                && r.reply == RefundedBy(rid)
                                && PaidBack(db, r.db, rid, pid, if amount == 0 then paid else amount, key))))
  {
  }

  // One new refund row, its key spent, and its payment's status moved; nothing else.
  ghost predicate PaidBack(db: Tables, db': Tables, rid: RefundId, pid: PaymentId, amount: int, key: Key)
    requires pid in db.payments
  {
    && db'.refunds == db.refunds[rid := Refund(pid, amount, key)]
    && db'.payments == db.payments[pid := Payment(db.payments[pid].order, db.payments[pid].amount, Refunded)]
    && db'.byOrder == db.byOrder
    && db'.byKey == if key == NoKey then db.byKey else db.byKey[key := rid]
  }

  function Apply(db: Tables, c: Call): Result {
    match c
    case ProcessPayment(order, total, draw) => ProcessPaymentTx(db, order, total, draw)
    case RefundPayment(rid, pid, amount, key) => RefundTx(db, rid, pid, amount, key)
  }

  function Run(db: Tables, calls: seq<Call>): Tables
    decreases |calls|
  {
    if calls == [] then db else Run(Apply(db, calls[0]).db, calls[1..])
  }

  /* ---------- Invariants of the tables ---------- */

  // The indexes agree with the rows, and refunds reference existing payments.
  ghost predicate Indexed(db: Tables) {
    && (forall o <- db.byOrder :: db.byOrder[o] in db.payments && db.payments[db.byOrder[o]].order == o)
    && (forall id <- db.payments ::
          db.payments[id].order in db.byOrder && db.byOrder[db.payments[id].order] == id)
    && (forall k <- db.byKey :: k != NoKey && db.byKey[k] in db.refunds && db.refunds[db.byKey[k]].key == k)
    && (forall r <- db.refunds ::
          db.refunds[r].key != NoKey ==> db.refunds[r].key in db.byKey && db.byKey[db.refunds[r].key] == r)
    && (forall r <- db.refunds :: db.refunds[r].payment in db.payments)
  }

  // The refunds recorded against one payment.
  ghost function RefundsOf(db: Tables, pid: PaymentId): set<RefundId> {
    set r | r in db.refunds && db.refunds[r].payment == pid
  }

  // A payment is refunded exactly when it has exactly one refund, for at most its amount;
  // otherwise it has none.
  ghost predicate RefundedOnce(db: Tables, pid: PaymentId)
    requires pid in db.payments
  {
    if db.payments[pid].status == Refunded then
      exists r :: r in db.refunds && RefundsOf(db, pid) == {r} && db.refunds[r].amount <= db.payments[pid].amount
    else
      RefundsOf(db, pid) == {}
  }

  ghost predicate WellFormed(db: Tables) {
    Indexed(db) && forall pid <- db.payments :: RefundedOnce(db, pid)
  }

  lemma PaymentKeepsIndexed(db: Tables, order: OrderId, amount: int, draw: Draw)
    requires Indexed(db)
    ensures Indexed(ProcessPaymentTx(db, order, amount, draw).db)
  {
  }

  lemma PaymentKeepsWellFormed(db: Tables, order: OrderId, amount: int, draw: Draw)
    requires WellFormed(db)
    ensures WellFormed(ProcessPaymentTx(db, order, amount, draw).db)
  {
    PaymentKeepsIndexed(db, order, amount, draw);
    var db' := ProcessPaymentTx(db, order, amount, draw).db;
    forall pid <- db'.payments ensures RefundedOnce(db', pid) {
      assert RefundsOf(db', pid) == RefundsOf(db, pid);
      if pid in db.payments {
        assert RefundedOnce(db, pid);
      } else {
        assert forall r <- db.refunds :: db.refunds[r].payment != pid;
      }
    }
  }

  lemma RefundKeepsIndexed(db: Tables, rid: RefundId, pid: PaymentId, amount: int, key: Key)
    requires Indexed(db)
    ensures Indexed(RefundTx(db, rid, pid, amount, key).db)
  {
  }

  // What a granted refund does to the refunds of each payment.
  lemma RefundAddsOne(db: Tables, rid: RefundId, pid: PaymentId, amount: int, key: Key, p: PaymentId)
    requires RefundTx(db, rid, pid, amount, key).db != db && p in db.payments
    ensures pid in db.payments && db.payments[pid].status == Success
    ensures var db' := RefundTx(db, rid, pid, amount, key).db;
            && RefundsOf(db', p) == RefundsOf(db, p) + (if p == pid then {rid} else {})
            && (p != pid ==> db'.payments[p] == db.payments[p])
            && (forall r <- RefundsOf(db, p) :: db'.refunds[r] == db.refunds[r])
            && rid in db'.refunds && db'.refunds[rid].amount <= db.payments[pid].amount
            && db'.payments[pid] == db.payments[pid].(status := Refunded)
  {
  }

  lemma RefundKeepsWellFormed(db: Tables, rid: RefundId, pid: PaymentId, amount: int, key: Key)
    requires WellFormed(db)
    ensures WellFormed(RefundTx(db, rid, pid, amount, key).db)
  {
    RefundKeepsIndexed(db, rid, pid, amount, key);
    var db' := RefundTx(db, rid, pid, amount, key).db;
    if db' != db {
      forall p <- db'.payments ensures RefundedOnce(db', p) {
        RefundAddsOne(db, rid, pid, amount, key, p);
        assert RefundedOnce(db, p);
        if p == pid {
          assert RefundsOf(db', p) == {rid};
        } else {
          assert RefundsOf(db', p) == RefundsOf(db, p);
        }
      }
    }
  }

  /* ---------- One payment per order, decided once ---------- */

  predicate MayBecome(from: Status, to: Status) {
    || from == to
    || (from == Pending && (to == Success || to == Failed || to == Refunded))
    || (from == Success && to == Refunded)
  }

  // Nothing about a committed payment changes except its status, and that only forward.
  ghost predicate Settled(db: Tables, db': Tables) {
    && (forall id <- db.payments ::
          && id in db'.payments
          && db'.payments[id].order == db.payments[id].order
          && db'.payments[id].amount == db.payments[id].amount
          && MayBecome(db.payments[id].status, db'.payments[id].status))
    && (forall o <- db.byOrder :: o in db'.byOrder && db'.byOrder[o] == db.byOrder[o])
    && (forall r <- db.refunds :: r in db'.refunds && db'.refunds[r] == db.refunds[r])
  }

  lemma ApplyKeepsWellFormed(db: Tables, c: Call)
    requires WellFormed(db)
    ensures WellFormed(Apply(db, c).db)
  {
    match c
    case ProcessPayment(order, total, draw) => PaymentKeepsWellFormed(db, order, total, draw);
    case RefundPayment(rid, pid, amount, key) => RefundKeepsWellFormed(db, rid, pid, amount, key);
  }

  // A single call moves a status one step at most: to a verdict, or from success to refunded.
  lemma ApplySettles(db: Tables, c: Call)
    ensures Settled(db, Apply(db, c).db)
    ensures forall id <- db.payments ::
      !(db.payments[id].status == Pending && Apply(db, c).db.payments[id].status == Refunded)
  {
  }

  lemma {:induction false} RunSettles(db: Tables, calls: seq<Call>)
    ensures Settled(db, Run(db, calls))
    decreases |calls|
  {
    if calls != [] {
      var db1 := Apply(db, calls[0]).db;
      ApplySettles(db, calls[0]);
      RunSettles(db1, calls[1..]);
      SettledTransitive(db, db1, Run(db, calls));
    }
  }

  lemma SettledTransitive(db: Tables, db1: Tables, db2: Tables)
    requires Settled(db, db1) && Settled(db1, db2)
    ensures Settled(db, db2)
  {
  }

  /** Over every run of payments and refunds, with any amounts, keys and verdicts: an
      order keeps its one payment, its id and amount never change, a verdict is never
      revised, and refunded means refunded exactly once. */
  lemma {:induction false} DecidedOnce(db: Tables, calls: seq<Call>)
    requires WellFormed(db)
    ensures WellFormed(Run(db, calls)) && Settled(db, Run(db, calls))
    decreases |calls|
  {
    RunSettles(db, calls);
    if calls != [] {
      ApplyKeepsWellFormed(db, calls[0]);
      DecidedOnce(Apply(db, calls[0]).db, calls[1..]);
    }
  }

  lemma ChargeStays(db: Tables, order: OrderId, amount: int, draw: Draw)
    requires order in db.byOrder && db.byOrder[order] in db.payments && amount >= 0
    requires db.payments[db.byOrder[order]].status != Pending
    ensures var id := db.byOrder[order];
            ProcessPaymentTx(db, order, amount, draw) == Result(db, Charged(id, db.payments[id].status))
  {
  }

  /** Once an order has been charged, every later charge of it, for any amount and with
      any draw, returns the same payment and changes nothing. */
  lemma ChargeIsIdempotent(db: Tables, order: OrderId, amount: int, draw: Draw, calls: seq<Call>,
                           amount': int, draw': Draw)
    requires amount' >= 0
    requires ProcessPaymentTx(db, order, amount, draw).reply.Charged?
    ensures var first := ProcessPaymentTx(db, order, amount, draw);
            var later := Run(first.db, calls);
            var again := ProcessPaymentTx(later, order, amount', draw');
            && again.db == later
            && again.reply.Charged? && again.reply.id == first.reply.id
            && MayBecome(first.reply.status, again.reply.status)
  {
    var first := ProcessPaymentTx(db, order, amount, draw);
    RunSettles(first.db, calls);
    ChargeStays(Run(first.db, calls), order, amount', draw');
  }

  /* ---------- What a successful refund reply means ---------- */

  // The key was used before, for a different payment.
  predicate KeyTaken(db: Tables, pid: PaymentId, key: Key) {
    key != NoKey && key in db.byKey && db.byKey[key] in db.refunds && db.refunds[db.byKey[key]].payment != pid
  }

  /** A refund that was acknowledged leaves the payment refunded exactly when its key had
      not been spent on another payment before. */
  lemma RefundAcknowledged(db: Tables, rid: RefundId, pid: PaymentId, amount: int, key: Key)
    requires WellFormed(db) && pid in db.payments && db.payments[pid].status != Refunded
    requires RefundTx(db, rid, pid, amount, key).reply.RefundedBy?
    ensures var db' := RefundTx(db, rid, pid, amount, key).db;
            db'.payments[pid].status == Refunded <==> !KeyTaken(db, pid, key)
  {
    if key != NoKey && key in db.byKey {
      var r := db.byKey[key];
      assert RefundedOnce(db, pid);
      assert r in db.refunds && r !in RefundsOf(db, pid);
    }
  }

  // The case the condition rules out: payment 1 is reported refunded and is not.
  lemma SpentKeyHidesARefund()
    ensures exists db: Tables, key: Key ::
      && WellFormed(db) && 1 in db.payments && db.payments[1].status == Success
      && RefundTx(db, 8, 1, 0, key).reply.RefundedBy?
      && RefundTx(db, 8, 1, 0, key).db.payments[1].status == Success
  {
    var key := OtherKey("k");
    var payments := map[0 := Payment(10, 5, Success), 1 := Payment(11, 5, Success)];
    var start := Tables(payments, map[10 := 0, 11 := 1], map[], map[]);
    assert WellFormed(start);
    var db := RefundTx(start, 7, 0, 0, key).db;
    RefundKeepsWellFormed(start, 7, 0, 0, key);
    assert RefundTx(db, 8, 1, 0, key).reply.RefundedBy?;
  }

  // A refund row is negative exactly when a negative amount was asked for: the code only
  // bounds the amount from above.
  lemma RefundSign(db: Tables, rid: RefundId, pid: PaymentId, amount: int, key: Key)
    requires pid in db.payments && db.payments[pid].amount >= 0
    requires RefundTx(db, rid, pid, amount, key).db != db
    ensures var db' := RefundTx(db, rid, pid, amount, key).db;
            && rid in db'.refunds && db'.refunds[rid].payment == pid
            && (0 <= db'.refunds[rid].amount <= db.payments[pid].amount <==> amount >= 0)
  {
  }

  /* ---------- The saga's keys ---------- */

  // Keys of the saga's form are only ever spent on the payment they name.
  ghost predicate KeysHonest(db: Tables) {
    forall r <- db.refunds :: db.refunds[r].key.RefundKey? ==> db.refunds[r].key.payment == db.refunds[r].payment
  }

  // A refund under the saga's key is granted: it is a repeat, or the payment succeeded.
  predicate Refundable(db: Tables, pid: PaymentId, base: string) {
    RefundKey(base, pid) in db.byKey || (pid in db.payments && db.payments[pid].status == Success)
  }

  // No key of the saga's form is spent on a payment that failed.
  lemma FailedIsNotRefundable(db: Tables, pid: PaymentId, base: string)
    requires WellFormed(db) && KeysHonest(db) && pid in db.payments && db.payments[pid].status == Failed
    ensures !Refundable(db, pid, base)
  {
    assert RefundedOnce(db, pid);
    forall r <- db.refunds ensures db.refunds[r].payment != pid {
      assert r !in RefundsOf(db, pid);
    }
  }

  /** A payment that failed stays failed and is never refunded: after any calls, and whatever
      refund is asked for next, with any amount and any key. */
  lemma FailedIsNeverRefunded(db: Tables, pid: PaymentId, calls: seq<Call>, rid: RefundId, amount: int, key: Key)
    requires WellFormed(db) && pid in db.payments && db.payments[pid].status == Failed
    ensures var db' := RefundTx(Run(db, calls), rid, pid, amount, key).db;
            pid in db'.payments && db'.payments[pid].status == Failed && RefundsOf(db', pid) == {}
  {
    var all := calls + [RefundPayment(rid, pid, amount, key)];
    RunAppend(db, calls, [RefundPayment(rid, pid, amount, key)]);
    assert [RefundPayment(rid, pid, amount, key)][1..] == [];
    DecidedOnce(db, all);
    assert RefundedOnce(Run(db, all), pid);
  }

  lemma {:induction false} RunAppend(db: Tables, a: seq<Call>, b: seq<Call>)
    ensures Run(db, a + b) == Run(Run(db, a), b)
    decreases |a|
  {
    if a == [] {
      assert a + b == b;
    } else {
      assert (a + b)[1..] == a[1..] + b;
      RunAppend(Apply(db, a[0]).db, a[1..], b);
    }
  }

  function RefundKeyText(base: string, paymentId: string): string {
    "refund:" + base + ":" + paymentId
  }

  /** The text of a saga key determines the payment it names, whatever the base contains,
      because UUID texts all have the same length. */
  lemma RefundKeyNamesPayment(base: string, id: string, base': string, id': string)
    requires |id| == |id'|
    requires RefundKeyText(base, id) == RefundKeyText(base', id')
    ensures base == base' && id == id'
  {
    var t := RefundKeyText(base, id);
    var n := |t| - |id|;
    assert t[n..] == id && t[n..] == id';
    assert t[7..n - 1] == base && t[7..n - 1] == base';
  }
}
