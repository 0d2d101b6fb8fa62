/**
What every transition of the saga machine keeps, in every run: crashes, lost requests, lost
replies, failed saves, cancellations and other orders' traffic included.
*/
module SagaInvariant {
  import opened Common
  import opened Saga
  import I = Inventory
  import P = Payments

  /* ---------- The invariant ---------- */

  ghost predicate Services(w: World) {
    I.WellFormed(w.inv) && P.WellFormed(w.pay) && P.KeysHonest(w.pay)
  }

  // The recorded items are the first items of the order, in order.
  predicate IsPrefix(order: Order, reserved: seq<ReservedItem>) {
    && |reserved| <= |order.items|
    && forall i :: 0 <= i < |reserved| ==> reserved[i] == ReservedItem(order.items[i].product, order.items[i].quantity)
  }

  predicate AllReserved(status: Status) {
    status == Reserved || status == Paying || status == Paid || status == Confirming || status == Confirmed
  }

  predicate HasPaid(status: Status) {
    status == Paid || status == Confirming || status == Confirmed
  }

  // Every recorded item has its reservation row, of the recorded quantity.
  ghost predicate RowsExist(order: Order, inv: I.Tables, reserved: seq<ReservedItem>) {
    forall i :: 0 <= i < |reserved| ==>
      && KeyOf(order, reserved[i].product) in inv.reservations
      && inv.reservations[KeyOf(order, reserved[i].product)].quantity == reserved[i].quantity
  }

  // A saga that tells no lies about the services.
  ghost predicate SagaOk(order: Order, w: World, sg: Saga) {
    && IsPrefix(order, sg.reserved)
    && (sg.status == Pending || sg.status == Failed ==> sg.reserved == [])
    && (AllReserved(sg.status) ==> |sg.reserved| == |order.items|)
    && RowsExist(order, w.inv, sg.reserved)
    && (sg.payment.Some? ==> order.id in w.pay.byOrder && w.pay.byOrder[order.id] == sg.payment.value)
    && (HasPaid(sg.status) ==> sg.payment.Some?)
    && (sg.status.Pending? || sg.status.Reserving? || sg.status.Reserved? || sg.status.Paying? || sg.status.Failed? ==>
          sg.payment.None?)
  }

  // The product is among the first n items.
  ghost predicate Among(order: Order, n: nat, product: ProductId) {
    exists i :: 0 <= i < n && i < |order.items| && order.items[i].product == product
  }

  // The order's rows belong to its first n items.
  ghost predicate RowsWithin(order: Order, inv: I.Tables, n: nat) {
    forall k <- inv.reservations :: k.order == order.id ==> Among(order, n, k.product)
  }

  // This order's payment, if there is one.
  ghost predicate PaymentOk(order: Order, pay: P.Tables) {
    order.id in pay.byOrder ==>
      && pay.byOrder[order.id] in pay.payments
      && pay.payments[pay.byOrder[order.id]].order == order.id
      && pay.payments[pay.byOrder[order.id]].amount == order.total
      && pay.payments[pay.byOrder[order.id]].status != P.Pending
  }

  // What a stored saga of this status allows the order's rows to be: the recorded items, and
  // the one item whose reservation may be under way.
  function RowLimit(sg: Saga): nat {
    if sg.status == Pending || sg.status == Failed then 0 else |sg.reserved| + 1
  }

  ghost predicate Stored(order: Order, s: State) {
    match s.world.saga
    case None =>
      s.runner.Idle? && s.reached == 0 && RowsWithin(order, s.world.inv, 0) && order.id !in s.world.pay.byOrder
    case Some(sg) =>
      && SagaOk(order, s.world, sg)
      && RowsWithin(order, s.world.inv, RowLimit(sg))
      && Rank(sg.status) <= s.reached
  }

  ghost predicate PersistBeforeAct(order: Order, s: State) {
    && (order.id in s.world.pay.byOrder ==> s.reached >= Rank(Paying))
    && (s.world.status == OrderPaid ==> s.reached >= Rank(Confirming))
  }

  ghost predicate Gone(order: Order, inv: I.Tables, item: ReservedItem) {
    && KeyOf(order, item.product) in inv.reservations
    && inv.reservations[KeyOf(order, item.product)] == I.Reservation(item.quantity, I.Released)
  }

  ghost predicate GoneAt(order: Order, inv: I.Tables, reserved: seq<ReservedItem>, landed: set<nat>) {
    forall i <- landed :: i < |reserved| && Gone(order, inv, reserved[i])
  }

  ghost predicate AllGone(order: Order, inv: I.Tables, reserved: seq<ReservedItem>) {
    forall i :: 0 <= i < |reserved| ==> Gone(order, inv, reserved[i])
  }

  ghost predicate PaidBack(pay: P.Tables, payment: Option<PaymentId>) {
    payment.Some? ==> payment.value in pay.payments && pay.payments[payment.value].status == P.Refunded
  }

  // The process and the stored row.
  ghost predicate Driving(order: Order, s: State) {
    var w := s.world;
    match s.runner
    case Idle => true
    case Looping(mem) => w.saga == Some(mem)
    case Ready(mem) => w.saga == Some(mem) && NextStep(mem.status).Some? && Prepared(mem) == mem
    case Executed(mem) =>
      && w.saga.Some? && SagaOk(order, w, mem)
      && mem.status != Failed && mem.status != Pending
      && |w.saga.value.reserved| <= |mem.reserved|
    case Undoing(mem, plan, landed) =>
      && SameRecord(w, mem) && SagaOk(order, w, mem)
      && (plan != [] && plan[0] == InventoryStep ==> GoneAt(order, w.inv, mem.reserved, landed))
    case Closing(mem) => SameRecord(w, mem) && SagaOk(order, w, mem)
    case CancelRefunding(mem) => w.saga == Some(mem) && mem.payment.Some?
    case CancelReleasing(mem, landed) =>
      w.saga == Some(mem) && PaidBack(w.pay, mem.payment) && GoneAt(order, w.inv, mem.reserved, landed)
    case CancelMarking(mem) =>
      w.saga == Some(mem) && PaidBack(w.pay, mem.payment) && AllGone(order, w.inv, mem.reserved)
    case CancelSaving(mem) =>
      w.saga == Some(mem) && PaidBack(w.pay, mem.payment) && AllGone(order, w.inv, mem.reserved)
  }

  // In memory the status may be ahead of the stored one, but the records are the same.
  ghost predicate SameRecord(w: World, mem: Saga) {
    && mem.status == Compensating
    && w.saga.Some? && w.saga.value.reserved == mem.reserved && w.saga.value.payment == mem.payment
    && RowLimit(w.saga.value) == |mem.reserved| + 1
  }

  ghost predicate Inv(order: Order, s: State) {
    && PaymentOk(order, s.world.pay)
    && Stored(order, s)
    && PersistBeforeAct(order, s)
    && Driving(order, s)
  }

  /* ---------- The services stay well formed ---------- */

  lemma InventoryKept(db: I.Tables, c: I.Call)
    requires I.WellFormed(db)
    ensures I.WellFormed(I.Apply(db, c).db) && I.Grows(db, I.Apply(db, c).db)
  {
    I.ApplyBalances(db, c);
    I.RunGrows(db, [c]);
    assert I.Run(db, [c]) == I.Apply(db, c).db;
  }

  lemma PaymentsKept(db: P.Tables, c: P.Call)
    requires P.WellFormed(db) && P.KeysHonest(db)
    requires c.RefundPayment? && c.key.RefundKey? ==> c.key.payment == c.payment
    ensures P.WellFormed(P.Apply(db, c).db) && P.KeysHonest(P.Apply(db, c).db)
    ensures P.Settled(db, P.Apply(db, c).db)
  {
    assert P.WellFormed(P.Apply(db, c).db) && P.KeysHonest(P.Apply(db, c).db) by {
      P.ApplyKeepsWellFormed(db, c);
    }
    P.ApplySettles(db, c);
  }

  // Each transition applies at most one call to at most one service.
  lemma StepKeepsServices(order: Order, s: State, l: Label)
    requires Services(s.world)
    ensures var w, w' := s.world, Step(order, s, l).world;
            && Services(w') && I.Grows(w.inv, w'.inv) && P.Settled(w.pay, w'.pay)
  {
    var w, w' := s.world, Step(order, s, l).world;
    if w'.inv != w.inv {
      var c := InventoryCall(order, s, l);
      InventoryKept(w.inv, c);
    }
    if w'.pay != w.pay {
      var c := PaymentCall(order, s, l);
      PaymentsKept(w.pay, c);
    }
  }

  // The services only move on: what later proofs need of the lemma above.
  ghost predicate Moved(w: World, w': World) {
    I.Grows(w.inv, w'.inv) && P.Settled(w.pay, w'.pay)
  }

  lemma StepMoves(order: Order, s: State, l: Label)
    requires Services(s.world)
    ensures Moved(s.world, Step(order, s, l).world)
  {
    StepKeepsServices(order, s, l);
  }

  function InventoryCall(order: Order, s: State, l: Label): I.Call
    requires Step(order, s, l).world.inv != s.world.inv
    ensures Step(order, s, l).world.inv == I.Apply(s.world.inv, InventoryCall(order, s, l)).db
  {
    match l
    case Attempt(_, _) =>
      var item := order.items[|s.runner.mem.reserved|];
      I.Reserve(KeyOf(order, item.product), item.quantity)
    case Release(i, _) =>
      var item := s.runner.mem.reserved[i];
      I.Release(KeyOf(order, item.product), item.quantity)
    case OtherInventory(c) => c
  }

  function PaymentCall(order: Order, s: State, l: Label): (c: P.Call)
    requires Step(order, s, l).world.pay != s.world.pay
    ensures Step(order, s, l).world.pay == P.Apply(s.world.pay, c).db
    ensures c.RefundPayment? && c.key.RefundKey? ==> c.key.payment == c.payment
  {
    match l
    case Attempt(_, draw) => P.ProcessPayment(order.id, order.total, draw)
    case Refund(_, rid, base) =>
      P.RefundPayment(rid, s.runner.mem.payment.value, 0, P.RefundKey(base, s.runner.mem.payment.value))
    case OtherPayment(c) => c
  }

  /* ---------- What survives when the services move on ---------- */

  lemma RecordsKept(order: Order, w: World, w': World, sg: Saga)
    requires I.Grows(w.inv, w'.inv) && P.Settled(w.pay, w'.pay)
    ensures SagaOk(order, w, sg) ==> SagaOk(order, w', sg)
    ensures AllGone(order, w.inv, sg.reserved) ==> AllGone(order, w'.inv, sg.reserved)
    ensures PaidBack(w.pay, sg.payment) ==> PaidBack(w'.pay, sg.payment)
    ensures forall landed :: GoneAt(order, w.inv, sg.reserved, landed) ==> GoneAt(order, w'.inv, sg.reserved, landed)
  {
  }

  lemma RowsWithinMonotone(order: Order, inv: I.Tables, m: nat, n: nat)
    requires RowsWithin(order, inv, m) && m <= n
    ensures RowsWithin(order, inv, n)
  {
    forall k <- inv.reservations | k.order == order.id ensures Among(order, n, k.product) {
      assert Among(order, m, k.product);
    }
  }

  // Releases add no rows, and neither do calls of other orders to this order's.
  lemma RowsWithinKept(order: Order, inv: I.Tables, c: I.Call, n: nat)
    requires RowsWithin(order, inv, n)
    requires c.Release? || c.key.order != order.id || Among(order, n, c.key.product)
    ensures RowsWithin(order, I.Apply(inv, c).db, n)
  {
  }

  // The services move on, and no row or payment of this order appears.
  ghost predicate Overtaken(order: Order, s: State, w: World) {
    && w.saga == s.world.saga && w.status == s.world.status
    && I.Grows(s.world.inv, w.inv) && P.Settled(s.world.pay, w.pay)
    && RowsWithin(order, w.inv, if s.world.saga.None? then 0 else RowLimit(s.world.saga.value))
    && (order.id in w.pay.byOrder ==> order.id in s.world.pay.byOrder)
  }

  lemma OvertakenKeepsDriving(order: Order, s: State, w: World)
    requires Driving(order, s) && Overtaken(order, s, w)
    ensures Driving(order, s.(world := w))
  {
    if !s.runner.Idle? {
      RecordsKept(order, s.world, w, s.runner.mem);
    }
  }

  lemma OvertakenKeepsInv(order: Order, s: State, w: World)
    requires Inv(order, s) && Overtaken(order, s, w)
    ensures Inv(order, s.(world := w))
  {
    OvertakenKeepsDriving(order, s, w);
    if s.world.saga.Some? {
      RecordsKept(order, s.world, w, s.world.saga.value);
    }
  }

  // Other orders' traffic, and a crash, keep everything.
  lemma QuietStepKeepsInv(order: Order, s: State, l: Label)
    requires Inv(order, s) && Moved(s.world, Step(order, s, l).world)
    requires l.OtherInventory? || l.OtherPayment? || l.Crash?
    ensures Inv(order, Step(order, s, l))
  {
    var s' := Step(order, s, l);
    if !l.Crash? {
      var n := if s.world.saga.None? then 0 else RowLimit(s.world.saga.value);
      if l.OtherInventory? && s'.world.inv != s.world.inv {
        RowsWithinKept(order, s.world.inv, l.invCall, n);
      }
      assert s' == s.(world := s'.world);
      assert Overtaken(order, s, s'.world);
      OvertakenKeepsInv(order, s, s'.world);
    }
  }

  lemma BeginKeepsInv(order: Order, s: State)
    requires Inv(order, s)
    ensures Inv(order, Step(order, s, Begin))
  {
  }

  lemma PrepareKeepsInv(order: Order, s: State)
    requires Inv(order, s)
    ensures Inv(order, Step(order, s, Prepare))
  {
    if s.runner.Looping? && NextStep(s.runner.mem.status).Some? {
      assert SagaOk(order, s.world, Prepared(s.runner.mem));
      assert RowLimit(Prepared(s.runner.mem)) == RowLimit(s.runner.mem);
    }
  }

  lemma PersistKeepsInv(order: Order, s: State)
    requires Inv(order, s)
    ensures Inv(order, Step(order, s, Persist))
  {
    if s.runner.Executed? {
      RowsWithinMonotone(order, s.world.inv, RowLimit(s.world.saga.value), RowLimit(s.runner.mem));
    }
  }

  lemma GiveUpKeepsInv(order: Order, s: State, saved: bool)
    requires Inv(order, s)
    ensures Inv(order, Step(order, s, GiveUp(saved)))
  {
    if s.runner.Ready? {
      var mem := s.runner.mem;
      assert mem.status != Pending ==> SagaOk(order, s.world, mem.(status := Compensating));
      assert mem.status == Pending ==> SagaOk(order, s.world, mem.(status := Failed));
    }
  }

  // Reserving the next item: its row is the only one that may be new, and the saga that
  // records it tells the truth.
  lemma ReserveNext(order: Order, w: World, mem: Saga)
    requires SagaOk(order, w, mem) && mem.status == Reserving && RowsWithin(order, w.inv, |mem.reserved| + 1)
    requires Moved(w, ExecuteInventory(order, w, mem).world)
    ensures var e := ExecuteInventory(order, w, mem);
            && SagaOk(order, e.world, mem)
            && RowsWithin(order, e.world.inv, |mem.reserved| + 1)
            && (e.saga.Some? ==> SagaOk(order, e.world, e.saga.value) && |mem.reserved| <= |e.saga.value.reserved|)
  {
    var idx := |mem.reserved|;
    RecordsKept(order, w, ExecuteInventory(order, w, mem).world, mem);
    if idx < |order.items| {
      var item := order.items[idx];
      assert Among(order, idx + 1, item.product);
      RowsWithinKept(order, w.inv, I.Reserve(KeyOf(order, item.product), item.quantity), idx + 1);
    }
  }

  lemma InventoryAttemptKeepsInv(order: Order, s: State, outcome: Outcome, draw: P.Draw)
    requires Inv(order, s) && Moved(s.world, Step(order, s, Attempt(outcome, draw)).world)
    requires s.runner.Ready? && s.runner.mem.status == Reserving
    ensures Inv(order, Step(order, s, Attempt(outcome, draw)))
  {
    if outcome != Dropped {
      ReserveNext(order, s.world, s.runner.mem);
    }
  }

  lemma PaymentAttemptKeepsInv(order: Order, s: State, outcome: Outcome, draw: P.Draw)
    requires Inv(order, s) && Moved(s.world, Step(order, s, Attempt(outcome, draw)).world)
    requires s.runner.Ready? && s.runner.mem.status == Paying
    ensures Inv(order, Step(order, s, Attempt(outcome, draw)))
  {
    RecordsKept(order, s.world, Step(order, s, Attempt(outcome, draw)).world, s.runner.mem);
  }

  lemma AttemptKeepsInv(order: Order, s: State, outcome: Outcome, draw: P.Draw)
    requires Inv(order, s) && Moved(s.world, Step(order, s, Attempt(outcome, draw)).world)
    ensures Inv(order, Step(order, s, Attempt(outcome, draw)))
  {
    if s.runner.Ready? {
      match s.runner.mem.status
      case Reserving => InventoryAttemptKeepsInv(order, s, outcome, draw);
      case Paying => PaymentAttemptKeepsInv(order, s, outcome, draw);
      case _ =>
    }
  }

  // With honest keys an acknowledged refund is a refund of that payment.
  lemma SagaRefundWorks(pay: P.Tables, rid: RefundId, pid: PaymentId, base: string)
    requires P.WellFormed(pay) && P.KeysHonest(pay) && pid in pay.payments
    ensures var r := RefundCharge(pay, rid, pid, base);
            && pid in r.db.payments
            && (r.reply.RefundedBy? ==> r.db.payments[pid].status == P.Refunded)
            && (rid !in pay.refunds ==> r.db.payments[pid].status != P.Success)
  {
    var key := P.RefundKey(base, pid);
    if key in pay.byKey {
      var r := pay.byKey[key];
      assert pay.refunds[r].payment == pid;
      assert P.RefundedOnce(pay, pid);
      assert r in P.RefundsOf(pay, pid);
    }
  }

  lemma RefundKeepsInv(order: Order, s: State, outcome: Outcome, rid: RefundId, base: string)
    requires Inv(order, s) && Moved(s.world, Step(order, s, Refund(outcome, rid, base)).world)
    requires s.runner.CancelRefunding? && s.runner.mem.payment.Some? ==>
      var r := RefundCharge(s.world.pay, rid, s.runner.mem.payment.value, base);
      r.reply.RefundedBy? ==> PaidBack(r.db, s.runner.mem.payment)
    ensures Inv(order, Step(order, s, Refund(outcome, rid, base)))
  {
    var s' := Step(order, s, Refund(outcome, rid, base));
    if s' != s {
      assert Overtaken(order, s, s'.world);
      OvertakenKeepsInv(order, s, s'.world);
      assert Driving(order, s');
    }
  }

  /** A compensating release never fails for a business reason, and does its work. */
  lemma ReleaseAlwaysWorks(order: Order, w: World, sg: Saga, i: nat)
    requires I.WellFormed(w.inv) && SagaOk(order, w, sg) && i < |sg.reserved|
    ensures ReleaseItem(order, w.inv, sg.reserved[i]).reply == I.Ok
    ensures Gone(order, ReleaseItem(order, w.inv, sg.reserved[i]).db, sg.reserved[i])
  {
    I.ReleaseSucceeds(w.inv, KeyOf(order, sg.reserved[i].product), sg.reserved[i].quantity);
  }

  lemma ReleaseKeepsInv(order: Order, s: State, i: nat, outcome: Outcome)
    requires Inv(order, s) && Moved(s.world, Step(order, s, Release(i, outcome)).world)
    requires MayRelease(s.runner) && i < |s.runner.mem.reserved| ==>
      Gone(order, ReleaseItem(order, s.world.inv, s.runner.mem.reserved[i]).db, s.runner.mem.reserved[i])
    ensures Inv(order, Step(order, s, Release(i, outcome)))
  {
    var s' := Step(order, s, Release(i, outcome));
    if s' != s {
      var item := s.runner.mem.reserved[i];
      RowsWithinKept(order, s.world.inv, I.Release(KeyOf(order, item.product), item.quantity),
                     RowLimit(s.world.saga.value));
      assert Overtaken(order, s, s'.world);
      OvertakenKeepsInv(order, s, s'.world);
      assert Driving(order, s');
    }
  }

  lemma SaveCancelledKeepsInv(order: Order, s: State, saved: bool)
    requires Inv(order, s)
    ensures Inv(order, Step(order, s, SaveCancelled(saved)))
  {
    if saved && (s.runner.Closing? || s.runner.CancelSaving?) {
      var w, mem := s.world, s.runner.mem;
      RowsWithinMonotone(order, w.inv, RowLimit(w.saga.value), |mem.reserved| + 1);
      assert SagaOk(order, w, mem.(status := Cancelled));
    }
  }

  lemma MarkKeepsInv(order: Order, s: State, outcome: Outcome)
    requires Inv(order, s)
    ensures Inv(order, Step(order, s, MarkCancelled(outcome)))
  {
    var s' := Step(order, s, MarkCancelled(outcome));
    if s.world.saga.Some? {
      assert SagaOk(order, s'.world, s.world.saga.value);
    }
    if s.runner.Undoing? {
      assert SagaOk(order, s'.world, s.runner.mem);
    }
  }

  lemma DirectCancelKeepsInv(order: Order, s: State)
    requires Inv(order, s)
    ensures Inv(order, Step(order, s, DirectCancel))
  {
    var w' := Step(order, s, DirectCancel).world;
    if s.world.saga.Some? {
      assert SagaOk(order, w', s.world.saga.value);
    }
    if !s.runner.Idle? {
      assert SagaOk(order, s.world, s.runner.mem) ==> SagaOk(order, w', s.runner.mem);
    }
  }

  lemma NextUndoKeepsInv(order: Order, s: State)
    requires Inv(order, s)
    ensures Inv(order, Step(order, s, NextUndo))
  {
    assert Driving(order, Step(order, s, NextUndo));
  }

  lemma BeginCancelKeepsInv(order: Order, s: State)
    requires Inv(order, s)
    ensures Inv(order, Step(order, s, BeginCancel))
  {
    assert Driving(order, Step(order, s, BeginCancel));
  }

  lemma CancelReleasedKeepsInv(order: Order, s: State)
    requires Inv(order, s)
    ensures Inv(order, Step(order, s, CancelReleased))
  {
    assert Driving(order, Step(order, s, CancelReleased));
  }

  // The call a compensation is about to send does what it is for.
  ghost predicate UndoWorks(order: Order, s: State, l: Label) {
    && (l.Refund? && s.runner.CancelRefunding? && s.runner.mem.payment.Some? ==>
          var r := RefundCharge(s.world.pay, l.refund, s.runner.mem.payment.value, l.base);
          r.reply.RefundedBy? ==> PaidBack(r.db, s.runner.mem.payment))
    && (l.Release? && MayRelease(s.runner) && l.index < |s.runner.mem.reserved| ==>
          var item := s.runner.mem.reserved[l.index];
          Gone(order, ReleaseItem(order, s.world.inv, item).db, item))
  }

  lemma UndosWork(order: Order, s: State, l: Label)
    requires Inv(order, s) && Services(s.world)
    ensures UndoWorks(order, s, l)
  {
    if l.Refund? && s.runner.CancelRefunding? {
      SagaRefundWorks(s.world.pay, l.refund, s.runner.mem.payment.value, l.base);
    }
    if l.Release? && MayRelease(s.runner) && l.index < |s.runner.mem.reserved| {
      ReleaseAlwaysWorks(order, s.world, s.runner.mem, l.index);
    }
  }

  lemma StepKeepsLocal(order: Order, s: State, l: Label)
    requires Inv(order, s) && Moved(s.world, Step(order, s, l).world) && UndoWorks(order, s, l)
    ensures Inv(order, Step(order, s, l))
  {
    match l
    case Begin => BeginKeepsInv(order, s);
    case Prepare => PrepareKeepsInv(order, s);
    case Persist => PersistKeepsInv(order, s);
    case GiveUp(saved) => GiveUpKeepsInv(order, s, saved);
    case Attempt(outcome, draw) => AttemptKeepsInv(order, s, outcome, draw);
    case Refund(outcome, rid, base) => RefundKeepsInv(order, s, outcome, rid, base);
    case Release(i, outcome) => ReleaseKeepsInv(order, s, i, outcome);
    case SaveCancelled(saved) => SaveCancelledKeepsInv(order, s, saved);
    case MarkCancelled(outcome) => MarkKeepsInv(order, s, outcome);
    case NextUndo => NextUndoKeepsInv(order, s);
    case BeginCancel => BeginCancelKeepsInv(order, s);
    case CancelReleased => CancelReleasedKeepsInv(order, s);
    case DirectCancel => DirectCancelKeepsInv(order, s);
    case Crash | OtherInventory(_) | OtherPayment(_) => QuietStepKeepsInv(order, s, l);
  }

  lemma StepKeepsInv(order: Order, s: State, l: Label)
    requires Inv(order, s) && Services(s.world)
    ensures Inv(order, Step(order, s, l)) && Services(Step(order, s, l).world)
  {
    StepKeepsServices(order, s, l);
    UndosWork(order, s, l);
    StepKeepsLocal(order, s, l);
  }

  lemma {:induction false} RunKeepsInv(order: Order, s: State, labels: seq<Label>)
    requires Inv(order, s) && Services(s.world)
    ensures Inv(order, Run(order, s, labels)) && Services(Run(order, s, labels).world)
    decreases |labels|
  {
    if labels != [] {
      StepKeepsInv(order, s, labels[0]);
      RunKeepsInv(order, Step(order, s, labels[0]), labels[1..]);
    }
  }
}
