/**
Concurrent `Refund` and `ProcessPayment` transactions, one SQL statement at a time, under the
isolation PostgreSQL gives them (READ COMMITTED):

- a SELECT sees the committed tables;
- an INSERT waits while another open transaction holds the same unique value, and fails if
  that value is committed; with ON CONFLICT DO NOTHING on the order it finds that row instead;
- an UPDATE or a SELECT ... FOR UPDATE waits while another open transaction has the row, then
  goes by the committed row;
- COMMIT publishes all writes of the transaction at once, anything else publishes none.

The main result is that every interleaving leaves the tables that some serial execution of the
atomic transactions leaves, so everything proved of them holds of the real thing.
*/
module RefundInterleaving {
  import opened Common
  import opened Payments

  datatype Request = Request(refund: RefundId, payment: PaymentId, amount: int, key: Key)

  // How far an open refund has got.
  datatype Progress =
    | Begun
    | KeyFree                          // idempotency lookup found nothing
    | KeyFound(existing: RefundId)     // idempotency lookup found a refund to return
    | Checked(amount: int)             // payment read, status and amount accepted
    | Inserted(amount: int)            // refund row written, not yet visible to others
    | Updated(amount: int)             // payment row updated and locked
  {
    predicate Writing() { Inserted? || Updated? }
  }

  datatype Tx = Tx(request: Request, progress: Progress)

  // How far an open charge has got.
  datatype ChargeProgress =
    | Started
    | NewRow(decided: bool)                   // its own payment row, not yet visible
    | OrderTaken                              // the order has a committed payment
    | RowHeld(id: PaymentId, decided: bool)   // that row is locked

  datatype Charge = Charge(order: OrderId, total: int, draw: Draw, progress: ChargeProgress)

  datatype State = State(db: Tables, open: map<nat, Tx>, charges: map<nat, Charge>)

  datatype Label =
    | Begin(tx: nat, request: Request)
    | LookupKey(tx: nat)
    | ReadPayment(tx: nat)
    | InsertRefund(tx: nat)
    | UpdateStatusIf(tx: nat)
    | Commit(tx: nat)
    | Abort(tx: nat)
    | BeginCharge(charge: nat, order: OrderId, total: int, draw: Draw)
    | InsertPayment(charge: nat)
    | LockPayment(charge: nat)
    | Decide(charge: nat)              // UpdateStatusIf(pending) with the verdict
    | CommitCharge(charge: nat)
    | AbortCharge(charge: nat)

  function Goes(s: State, t: nat, p: Progress): State
    requires t in s.open
  {
    s.(open := s.open[t := s.open[t].(progress := p)])
  }

  function Aborted(s: State, t: nat): State {
    s.(open := s.open - {t})
  }

  predicate SameUnique(a: Request, b: Request) {
    a.refund == b.refund || (a.key != NoKey && a.key == b.key)
  }

  // Another open transaction holds a unique value this insert needs.
  ghost predicate InsertWaits(s: State, t: nat)
    requires t in s.open
  {
    exists u <- s.open ::
      u != t && s.open[u].progress.Writing() && SameUnique(s.open[u].request, s.open[t].request)
  }

  // Another open transaction has the payment row.
  ghost predicate UpdateWaits(s: State, t: nat)
    requires t in s.open
  {
    var id := s.open[t].request.payment;
    || (exists u <- s.open :: u != t && s.open[u].progress.Updated? && s.open[u].request.payment == id)
    || (exists c <- s.charges :: s.charges[c].progress.RowHeld? && s.charges[c].progress.id == id)
  }

  function Written(db: Tables, r: Request, amount: int): Tables
    requires r.payment in db.payments
  {
    WithStatus(WithRefund(db, r.refund, Refund(r.payment, amount, r.key)), r.payment, Refunded)
  }

  // One statement of a refund.
  ghost function RefundStep(s: State, l: Label): State {
    match l
    case Begin(t, request) =>
      if t in s.open then s else s.(open := s.open[t := Tx(request, Begun)])
    case LookupKey(t) =>
      if t !in s.open || !s.open[t].progress.Begun? then s
      else
        var key := s.open[t].request.key;
        Goes(s, t, if key != NoKey && key in s.db.byKey then KeyFound(s.db.byKey[key]) else KeyFree)
    case ReadPayment(t) =>
      if t !in s.open || !s.open[t].progress.KeyFree? then s
      else
        var r := s.open[t].request;
        if r.payment !in s.db.payments || s.db.payments[r.payment].status != Success then Aborted(s, t)
        else
          var a := RefundAmount(r.amount, s.db.payments[r.payment].amount);
          if a > s.db.payments[r.payment].amount then Aborted(s, t) else Goes(s, t, Checked(a))
    case InsertRefund(t) =>
      if t !in s.open || !s.open[t].progress.Checked? || InsertWaits(s, t) then s
      else
        var r := s.open[t].request;
        if r.refund in s.db.refunds || (r.key != NoKey && r.key in s.db.byKey) then Aborted(s, t)
        else Goes(s, t, Inserted(s.open[t].progress.amount))
    case UpdateStatusIf(t) =>
      if t !in s.open || !s.open[t].progress.Inserted? || UpdateWaits(s, t) then s
      else
        var r := s.open[t].request;
        if r.payment !in s.db.payments || s.db.payments[r.payment].status != Success then Aborted(s, t)
        else Goes(s, t, Updated(s.open[t].progress.amount))
    case Commit(t) =>
      if t !in s.open then s
      else if s.open[t].progress.KeyFound? then Aborted(s, t)
      else if s.open[t].progress.Updated? && s.open[t].request.payment in s.db.payments then
        s.(db := Written(s.db, s.open[t].request, s.open[t].progress.amount), open := s.open - {t})
      else s
    case Abort(t) => Aborted(s, t)
    case _ => s
  }

  /* ---------- Charges ---------- */

  function ChargeGoes(s: State, c: nat, p: ChargeProgress): State
    requires c in s.charges
  {
    s.(charges := s.charges[c := s.charges[c].(progress := p)])
  }

  function ChargeAborted(s: State, c: nat): State {
    s.(charges := s.charges - {c})
  }

  // Another open charge holds a new row for the order or with the id.
  ghost predicate PaymentInsertWaits(s: State, c: nat)
    requires c in s.charges
  {
    exists d :: d in s.charges && d != c && s.charges[d].progress.NewRow?
      && (s.charges[d].order == s.charges[c].order || s.charges[d].draw.payment == s.charges[c].draw.payment)
  }

  ghost predicate LockWaits(s: State, c: nat, id: PaymentId) {
    || (exists d :: d in s.charges && d != c && s.charges[d].progress.RowHeld? && s.charges[d].progress.id == id)
    || (exists t :: t in s.open && s.open[t].progress.Updated? && s.open[t].request.payment == id)
  }

  function Charged(db: Tables, charge: Charge): Tables {
    match charge.progress
    case NewRow(_) =>
      db.(payments := db.payments[charge.draw.payment := Payment(charge.order, charge.total, Verdict(charge.draw))],
          byOrder := db.byOrder[charge.order := charge.draw.payment])
    case RowHeld(id, _) =>
      if id in db.payments && db.payments[id].status == Pending then WithStatus(db, id, Verdict(charge.draw)) else db
    case _ => db
  }

  // One statement of a charge.
  ghost function ChargeStep(s: State, l: Label): State {
    match l
    case BeginCharge(c, order, total, draw) =>
      if c in s.charges then s else s.(charges := s.charges[c := Charge(order, total, draw, Started)])
    case InsertPayment(c) =>
      if c !in s.charges || !s.charges[c].progress.Started? || PaymentInsertWaits(s, c) then s
      else if s.charges[c].total < 0 then ChargeAborted(s, c)
      else if s.charges[c].order in s.db.byOrder then ChargeGoes(s, c, OrderTaken)
      else if s.charges[c].draw.payment in s.db.payments then ChargeAborted(s, c)
      else ChargeGoes(s, c, NewRow(false))
    case LockPayment(c) =>
      if c !in s.charges || !s.charges[c].progress.OrderTaken? || s.charges[c].order !in s.db.byOrder then s
      else if LockWaits(s, c, s.db.byOrder[s.charges[c].order]) then s
      else ChargeGoes(s, c, RowHeld(s.db.byOrder[s.charges[c].order], false))
    case Decide(c) =>
      if c !in s.charges then s
      else if s.charges[c].progress.NewRow? then ChargeGoes(s, c, NewRow(true))
      else if s.charges[c].progress.RowHeld? then ChargeGoes(s, c, RowHeld(s.charges[c].progress.id, true))
      else s
    case CommitCharge(c) =>
      if MayCommitCharge(s, c) then s.(db := Charged(s.db, s.charges[c]), charges := s.charges - {c}) else s
    case AbortCharge(c) => ChargeAborted(s, c)
    case _ => s
  }

  predicate MayCommitCharge(s: State, c: nat) {
    c in s.charges && (s.charges[c].progress.NewRow? || s.charges[c].progress.RowHeld?) && s.charges[c].progress.decided
  }

  predicate OfCharge(l: Label) {
    l.BeginCharge? || l.InsertPayment? || l.LockPayment? || l.Decide? || l.CommitCharge? || l.AbortCharge?
  }

  /** One statement.  A label that does not apply, or has to wait, leaves the state alone. */
  ghost function Step(s: State, l: Label): State {
    if OfCharge(l) then ChargeStep(s, l) else RefundStep(s, l)
  }

  ghost function Run(s: State, labels: seq<Label>): State
    decreases |labels|
  {
    if labels == [] then s else Run(Step(s, labels[0]), labels[1..])
  }

  /* ---------- What an open transaction may rely on ---------- */

  ghost predicate TxValid(db: Tables, tx: Tx) {
    var r := tx.request;
    && (tx.progress.Checked? || tx.progress.Writing() ==>
          && r.payment in db.payments
          && var paid := db.payments[r.payment].amount;
          tx.progress.amount == RefundAmount(r.amount, paid) <= paid)
    && (tx.progress.Writing() ==> r.refund !in db.refunds && (r.key != NoKey ==> r.key !in db.byKey))
    && (tx.progress.Updated? ==> db.payments[r.payment].status == Success)
    && (tx.progress.KeyFound? ==> r.key != NoKey && r.key in db.byKey && db.byKey[r.key] == tx.progress.existing)
  }

  ghost predicate ChargeValid(db: Tables, c: Charge) {
    && (!c.progress.Started? ==> c.total >= 0)
    && (c.progress.NewRow? ==> c.order !in db.byOrder && c.draw.payment !in db.payments)
    && (c.progress.OrderTaken? ==> c.order in db.byOrder)
    && (c.progress.RowHeld? ==>
          c.order in db.byOrder && db.byOrder[c.order] == c.progress.id && c.progress.id in db.payments)
  }

  // Two open transactions never hold the same unique value or the same locked row.
  ghost predicate Apart(a: Tx, b: Tx) {
    && (a.progress.Writing() && b.progress.Writing() ==> !SameUnique(a.request, b.request))
    && (a.progress.Updated? && b.progress.Updated? ==> a.request.payment != b.request.payment)
  }

  ghost predicate ChargesApart(a: Charge, b: Charge) {
    a.progress.NewRow? && b.progress.NewRow? ==> a.order != b.order && a.draw.payment != b.draw.payment
  }

  ghost predicate RefundsInv(s: State) {
    && (forall t <- s.open :: TxValid(s.db, s.open[t]))
    && (forall t, u :: t in s.open && u in s.open && t != u ==> Apart(s.open[t], s.open[u]))
  }

  ghost predicate ChargesInv(s: State) {
    && (forall o <- s.db.byOrder :: s.db.byOrder[o] in s.db.payments)
    && (forall c <- s.charges :: ChargeValid(s.db, s.charges[c]))
    && (forall c, d :: c in s.charges && d in s.charges && c != d ==> ChargesApart(s.charges[c], s.charges[d]))
  }

  ghost predicate Inv(s: State) {
    RefundsInv(s) && ChargesInv(s)
  }

  /** At the moment it commits, a refund has done what `RefundTx` does in one go. */
  lemma CommitIsAtomic(s: State, t: nat)
    requires t in s.open && TxValid(s.db, s.open[t])
    requires s.open[t].progress.Updated? || s.open[t].progress.KeyFound?
    ensures var r := s.open[t].request;
            var atomic := RefundTx(s.db, r.refund, r.payment, r.amount, r.key);
            && RefundStep(s, Commit(t)).db == atomic.db
            && atomic.reply ==
               RefundedBy(if s.open[t].progress.KeyFound? then s.open[t].progress.existing else r.refund)
  {
  }

  /** And a charge what `ProcessPaymentTx` does in one go, with its reply. */
  lemma ChargeIsAtomic(s: State, c: nat)
    requires MayCommitCharge(s, c) && ChargeValid(s.db, s.charges[c])
    ensures var charge := s.charges[c];
            var atomic := ProcessPaymentTx(s.db, charge.order, charge.total, charge.draw);
            && Charged(s.db, charge) == atomic.db
            && atomic.reply.Charged?
            && atomic.reply.id == if charge.progress.NewRow? then charge.draw.payment else charge.progress.id
  {
  }

  /* ---------- Every statement keeps it ---------- */

  lemma RefundCommitKeepsInv(s: State, t: nat)
    requires Inv(s) && t in s.open && s.open[t].progress.Updated?
    ensures Inv(RefundStep(s, Commit(t)))
  {
    assert TxValid(s.db, s.open[t]);
    var s' := RefundStep(s, Commit(t));
    forall u <- s'.open ensures TxValid(s'.db, s'.open[u]) {
      assert TxValid(s.db, s.open[u]) && Apart(s.open[t], s.open[u]);
    }
    forall u, v | u in s'.open && v in s'.open && u != v ensures Apart(s'.open[u], s'.open[v]) {
      assert Apart(s.open[u], s.open[v]);
    }
    forall c <- s'.charges ensures ChargeValid(s'.db, s'.charges[c]) {
      assert ChargeValid(s.db, s.charges[c]);
    }
  }

  lemma RefundStepKeepsValid(s: State, l: Label, u: nat)
    requires u in s.open ==> TxValid(s.db, s.open[u])
    requires !OfCharge(l) && RefundStep(s, l).db == s.db && u in RefundStep(s, l).open
    ensures TxValid(s.db, RefundStep(s, l).open[u])
  {
  }

  lemma RefundStepKeepsApart(s: State, l: Label, u: nat, v: nat)
    requires u in s.open && v in s.open ==> Apart(s.open[u], s.open[v]) && Apart(s.open[v], s.open[u])
    requires !OfCharge(l) && u != v && u in RefundStep(s, l).open && v in RefundStep(s, l).open
    ensures Apart(RefundStep(s, l).open[u], RefundStep(s, l).open[v])
  {
  }

  lemma RefundStepKeepsInv(s: State, l: Label)
    requires Inv(s) && !OfCharge(l)
    ensures Inv(RefundStep(s, l))
  {
    var s' := RefundStep(s, l);
    if l.Commit? && s'.db != s.db {
      RefundCommitKeepsInv(s, l.tx);
    } else {
      forall u <- s'.open ensures TxValid(s'.db, s'.open[u]) {
        RefundStepKeepsValid(s, l, u);
      }
      forall u, v | u in s'.open && v in s'.open && u != v ensures Apart(s'.open[u], s'.open[v]) {
        RefundStepKeepsApart(s, l, u, v);
      }
    }
  }

  // A committed charge adds a payment or decides a pending one; no open refund minds.
  lemma ChargedKeepsRefund(db: Tables, charge: Charge, tx: Tx)
    requires ChargeValid(db, charge) && TxValid(db, tx)
    ensures TxValid(Charged(db, charge), tx)
  {
  }

  lemma ChargedKeepsCharge(db: Tables, a: Charge, b: Charge)
    requires ChargeValid(db, a) && ChargeValid(db, b) && ChargesApart(a, b)
    ensures ChargeValid(Charged(db, a), b)
  {
  }

  lemma ChargeCommitKeepsInv(s: State, c: nat)
    requires Inv(s) && MayCommitCharge(s, c)
    ensures Inv(ChargeStep(s, CommitCharge(c)))
  {
    var s' := ChargeStep(s, CommitCharge(c));
    assert ChargeValid(s.db, s.charges[c]);
    forall t <- s'.open ensures TxValid(s'.db, s'.open[t]) {
      ChargedKeepsRefund(s.db, s.charges[c], s.open[t]);
    }
    forall d <- s'.charges ensures ChargeValid(s'.db, s'.charges[d]) {
      ChargedKeepsCharge(s.db, s.charges[c], s.charges[d]);
    }
  }

  lemma ChargeStepKeepsValid(s: State, l: Label, c: nat)
    requires forall o <- s.db.byOrder :: s.db.byOrder[o] in s.db.payments
    requires c in s.charges ==> ChargeValid(s.db, s.charges[c])
    requires OfCharge(l) && !l.CommitCharge? && c in ChargeStep(s, l).charges
    ensures ChargeValid(s.db, ChargeStep(s, l).charges[c])
  {
  }

  lemma ChargeStepKeepsApart(s: State, l: Label, c: nat, d: nat)
    requires c in s.charges && d in s.charges ==>
      ChargesApart(s.charges[c], s.charges[d]) && ChargesApart(s.charges[d], s.charges[c])
    requires OfCharge(l) && c != d && c in ChargeStep(s, l).charges && d in ChargeStep(s, l).charges
    ensures ChargesApart(ChargeStep(s, l).charges[c], ChargeStep(s, l).charges[d])
  {
  }

  lemma OnlyTheCommitWrites(s: State, l: Label)
    requires OfCharge(l) && !l.CommitCharge?
    ensures ChargeStep(s, l).db == s.db && ChargeStep(s, l).open == s.open
  {
  }

  lemma ChargeStepKeepsInv(s: State, l: Label)
    requires Inv(s) && OfCharge(l)
    ensures Inv(ChargeStep(s, l))
  {
    var s' := ChargeStep(s, l);
    if l.CommitCharge? {
      if MayCommitCharge(s, l.charge) {
        ChargeCommitKeepsInv(s, l.charge);
      }
    } else {
      OnlyTheCommitWrites(s, l);
      forall c <- s'.charges ensures ChargeValid(s'.db, s'.charges[c]) {
        ChargeStepKeepsValid(s, l, c);
      }
      forall c, d | c in s'.charges && d in s'.charges && c != d ensures ChargesApart(s'.charges[c], s'.charges[d]) {
        ChargeStepKeepsApart(s, l, c, d);
      }
    }
  }

  lemma StepKeepsInv(s: State, l: Label)
    requires Inv(s)
    ensures Inv(Step(s, l))
  {
    if OfCharge(l) {
      ChargeStepKeepsInv(s, l);
    } else {
      RefundStepKeepsInv(s, l);
    }
  }

  /* ---------- Serialisability ---------- */

  // The atomic call a statement completes, if it is a commit.
  ghost function Completed(s: State, l: Label): Option<Call> {
    if l.CommitCharge? && MayCommitCharge(s, l.charge) then
      var c := s.charges[l.charge];
      Some(ProcessPayment(c.order, c.total, c.draw))
    else if l.Commit? && l.tx in s.open && (s.open[l.tx].progress.Updated? || s.open[l.tx].progress.KeyFound?) then
      var r := s.open[l.tx].request;
      Some(RefundPayment(r.refund, r.payment, r.amount, r.key))
    else None
  }

  // The atomic calls a run amounts to, in the order they committed.
  ghost function Serial(s: State, labels: seq<Label>): seq<Call>
    decreases |labels|
  {
    if labels == [] then []
    else
      var rest := Serial(Step(s, labels[0]), labels[1..]);
      match Completed(s, labels[0])
      case Some(call) => [call] + rest
      case None => rest
  }

  lemma StepIsCompleted(s: State, l: Label)
    requires Inv(s)
    ensures Completed(s, l).Some? ==> Step(s, l).db == Apply(s.db, Completed(s, l).value).db
    ensures Completed(s, l).None? ==> Step(s, l).db == s.db
  {
    if Completed(s, l).Some? {
      if l.Commit? {
        CommitIsAtomic(s, l.tx);
      } else {
        ChargeIsAtomic(s, l.charge);
      }
    }
  }

  /** Serialisability: every interleaving of the statements of concurrent refunds and charges
      leaves the tables that running the atomic transactions one after another, in commit order,
      leaves. */
  lemma {:induction false} Serializable(s: State, labels: seq<Label>)
    requires Inv(s)
    ensures Inv(Run(s, labels))
    ensures Run(s, labels).db == Payments.Run(s.db, Serial(s, labels))
    decreases |labels|
  {
    if labels != [] {
      var s1, rest := Step(s, labels[0]), Serial(Step(s, labels[0]), labels[1..]);
      StepKeepsInv(s, labels[0]);
      Serializable(s1, labels[1..]);
      StepIsCompleted(s, labels[0]);
      if Completed(s, labels[0]).Some? {
        var call := Completed(s, labels[0]).value;
        assert ([call] + rest)[1..] == rest;
      }
    }
  }

  /** At most one refund per payment and one payment per order, under every interleaving of
      concurrent refunds and charges with any keys: a payment is refunded exactly when it has
      exactly one committed refund, and that refund is for no more than was paid. */
  lemma RefundedAtMostOnce(db: Tables, labels: seq<Label>)
    requires WellFormed(db)
    ensures var db' := Run(State(db, map[], map[]), labels).db;
            WellFormed(db') && Settled(db, db')
  {
    var s := State(db, map[], map[]);
    Serializable(s, labels);
    DecidedOnce(db, Serial(s, labels));
  }

  // The statements of one refund, and of one charge.
  function RefundScript(t: nat, r: Request): seq<Label> {
    [Begin(t, r), LookupKey(t), ReadPayment(t), InsertRefund(t), UpdateStatusIf(t), Commit(t)]
  }

  function ChargeScript(c: nat, order: OrderId, total: int, draw: Draw): seq<Label> {
    [BeginCharge(c, order, total, draw), InsertPayment(c), LockPayment(c), Decide(c), CommitCharge(c)]
  }

  lemma RunFive(s: State, a: Label, b: Label, c: Label, d: Label, e: Label)
    ensures Run(s, [a, b, c, d, e]) == Step(Step(Step(Step(Step(s, a), b), c), d), e)
  {
    var s1, s2, s3 := Step(s, a), Step(Step(s, a), b), Step(Step(Step(s, a), b), c);
    assert [a, b, c, d, e][1..] == [b, c, d, e];
    assert [b, c, d, e][1..] == [c, d, e];
    assert [c, d, e][1..] == [d, e];
    assert [d, e][1..] == [e] && [e][1..] == [];
    assert Run(s3, [d, e]) == Run(Step(s3, d), [e]) == Step(Step(s3, d), e);
    assert Run(s1, [b, c, d, e]) == Run(s2, [c, d, e]) == Run(s3, [d, e]);
  }

  // A single open refund.
  function Alone(db: Tables, t: nat, r: Request, p: Progress): State {
    State(db, map[t := Tx(r, p)], map[])
  }

  // Its reads find a refund to return, or refuse, or settle the amount.
  lemma RefundReads(db: Tables, t: nat, r: Request)
    ensures var s := Step(Step(Step(State(db, map[], map[]), Begin(t, r)), LookupKey(t)), ReadPayment(t));
            if r.key != NoKey && r.key in db.byKey then s == Alone(db, t, r, KeyFound(db.byKey[r.key]))
            else if r.payment !in db.payments || db.payments[r.payment].status != Success
                    || RefundAmount(r.amount, db.payments[r.payment].amount) > db.payments[r.payment].amount
            then s == State(db, map[], map[])
            else s == Alone(db, t, r, Checked(RefundAmount(r.amount, db.payments[r.payment].amount)))
  {
    var s1 := Step(State(db, map[], map[]), Begin(t, r));
    assert s1 == Alone(db, t, r, Begun);
    assert map[t := Tx(r, Begun)] - {t} == map[];
    var s2 := Step(s1, LookupKey(t));
    assert s2.open - {t} == map[];
  }

  // Its writes.
  lemma RefundWrites(db: Tables, t: nat, r: Request, a: int)
    requires r.payment in db.payments && db.payments[r.payment].status == Success
    requires r.key == NoKey || r.key !in db.byKey
    ensures var s := Step(Step(Step(Alone(db, t, r, Checked(a)), InsertRefund(t)), UpdateStatusIf(t)), Commit(t));
            s == State(if r.refund in db.refunds then db else Written(db, r, a), map[], map[])
  {
    var s1 := Step(Alone(db, t, r, Checked(a)), InsertRefund(t));
    assert s1.open - {t} == map[] && (t !in s1.open ==> s1.open == map[]);
    var s2 := Step(s1, UpdateStatusIf(t));
    assert s2.open - {t} == map[];
  }

  /** Nobody waits for nothing: with no other transaction open, the statements of a refund run
      through and leave exactly what the atomic transaction leaves. */
  lemma UncontendedRefund(db: Tables, t: nat, r: Request)
    ensures Run(State(db, map[], map[]), RefundScript(t, r)) ==
      State(RefundTx(db, r.refund, r.payment, r.amount, r.key).db, map[], map[])
  {
    var s1 := Step(State(db, map[], map[]), Begin(t, r));
    assert RefundScript(t, r)[1..] == [LookupKey(t), ReadPayment(t), InsertRefund(t), UpdateStatusIf(t), Commit(t)];
    RunFive(s1, LookupKey(t), ReadPayment(t), InsertRefund(t), UpdateStatusIf(t), Commit(t));
    RefundReads(db, t, r);
    var s3 := Step(Step(s1, LookupKey(t)), ReadPayment(t));
    if t in s3.open && s3.open[t].progress.Checked? {
      RefundWrites(db, t, r, s3.open[t].progress.amount);
    } else {
      assert Step(Step(s3, InsertRefund(t)), UpdateStatusIf(t)) == s3;
      assert s3.open - {t} == map[];
    }
  }

  // A single open charge.
  function AloneCharge(db: Tables, c: nat, charge: Charge): State {
    State(db, map[], map[c := charge])
  }

  // Its insert finds the order taken, or refuses, or writes a row.
  lemma ChargeInserts(db: Tables, c: nat, order: OrderId, total: int, draw: Draw)
    ensures var s := Step(Step(State(db, map[], map[]), BeginCharge(c, order, total, draw)), InsertPayment(c));
            if total < 0 || (order !in db.byOrder && draw.payment in db.payments) then s == State(db, map[], map[])
            else s == AloneCharge(db, c, Charge(order, total, draw,
                                                if order in db.byOrder then OrderTaken else NewRow(false)))
  {
    var s1 := Step(State(db, map[], map[]), BeginCharge(c, order, total, draw));
    assert s1 == AloneCharge(db, c, Charge(order, total, draw, Started));
    assert s1.charges - {c} == map[];
  }

  lemma ChargeDecides(db: Tables, c: nat, charge: Charge)
    requires charge.progress == OrderTaken || charge.progress == NewRow(false)
    requires charge.progress == OrderTaken ==> charge.order in db.byOrder
    ensures var s := Step(Step(Step(AloneCharge(db, c, charge), LockPayment(c)), Decide(c)), CommitCharge(c));
            var p := if charge.progress == NewRow(false) then NewRow(true) else RowHeld(db.byOrder[charge.order], true);
            s == State(Charged(db, charge.(progress := p)), map[], map[])
  {
    var s2 := Step(Step(AloneCharge(db, c, charge), LockPayment(c)), Decide(c));
    assert s2.charges - {c} == map[];
  }

  /** And so do those of a charge. */
  lemma UncontendedCharge(db: Tables, c: nat, order: OrderId, total: int, draw: Draw)
    ensures Run(State(db, map[], map[]), ChargeScript(c, order, total, draw)) ==
      State(ProcessPaymentTx(db, order, total, draw).db, map[], map[])
  {
    var s0 := State(db, map[], map[]);
    RunFive(s0, BeginCharge(c, order, total, draw), InsertPayment(c), LockPayment(c), Decide(c), CommitCharge(c));
    ChargeInserts(db, c, order, total, draw);
    var s2 := Step(Step(s0, BeginCharge(c, order, total, draw)), InsertPayment(c));
    if c in s2.charges {
      ChargeDecides(db, c, s2.charges[c]);
    }
  }
}
