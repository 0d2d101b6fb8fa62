/**
How ProcessOrder ends.  Crashes, restarts, lost requests and lost replies are all allowed;
what is asked of a run is only that giving up on a step is recorded and that the calls of the
compensation get through (the code logs a failure of either and carries on).
*/
module SagaOutcome {
  import opened Common
  import opened Saga
  import opened SagaInvariant
  import opened SagaClaims
  import opened SagaResume
  import I = Inventory
  import P = Payments

  /* ---------- The runs ---------- */

  // The compensation step in hand has got every one of its calls through.
  ghost predicate UndoComplete(r: Runner)
    requires r.Undoing? && r.plan != []
  {
    if r.plan[0] == InventoryStep then forall i :: 0 <= i < |r.mem.reserved| ==> i in r.landed
    else r.mem.payment.Some? ==> 0 in r.landed
  }

  ghost predicate Diligent(s: State, l: Label) {
    match l
    case GiveUp(saved) => saved
    case Refund(_, rid, _) => rid !in s.world.pay.refunds   // a fresh UUID
    case NextUndo => s.runner.Undoing? && s.runner.plan != [] ==> UndoComplete(s.runner)
    case MarkCancelled(outcome) => outcome == Delivered
    case BeginCancel | DirectCancel => false
    case _ => true
  }

  ghost predicate DiligentRun(order: Order, s: State, labels: seq<Label>)
    decreases |labels|
  {
    labels != [] ==> Diligent(s, labels[0]) && DiligentRun(order, Step(order, s, labels[0]), labels[1..])
  }

  /* ---------- The accounts ---------- */

  predicate Recorded(reserved: seq<ReservedItem>, product: ProductId) {
    exists i :: 0 <= i < |reserved| && reserved[i].product == product
  }

  // A reservation row of this order that the saga knows nothing of.
  predicate Stray(order: Order, inv: I.Tables, reserved: seq<ReservedItem>, product: ProductId) {
    KeyOf(order, product) in inv.reservations && !Recorded(reserved, product)
  }

  predicate Live(order: Order, inv: I.Tables, product: ProductId) {
    var k := KeyOf(order, product);
    k in inv.reservations ==> inv.reservations[k].status == I.Reserved
  }

  ghost predicate AllLive(order: Order, inv: I.Tables) {
    forall p: ProductId :: Live(order, inv, p)
  }

  ghost predicate StraysLive(order: Order, inv: I.Tables, reserved: seq<ReservedItem>) {
    forall p: ProductId :: !Recorded(reserved, p) ==> Live(order, inv, p)
  }

  predicate Kept(order: Order, pay: P.Tables) {
    order.id in pay.byOrder && pay.byOrder[order.id] in pay.payments ==>
      pay.payments[pay.byOrder[order.id]].status != P.Refunded
  }

  // A recorded payment does not leave the customer charged.
  predicate NotCharged(pay: P.Tables, payment: Option<PaymentId>) {
    payment.Some? && payment.value in pay.payments ==> pay.payments[payment.value].status != P.Success
  }

  predicate MovingForward(status: Status) {
    NextStep(status).Some? || status == Confirmed
  }

  predicate NotUnderway(status: OrderStatus) {
    status == OrderPending || status == AwaitingPayment
  }

  ghost predicate StoredAccount(order: Order, w: World) {
    if w.saga.None? then w.status == OrderPending else
      var sg := w.saga.value;
      && StraysLive(order, w.inv, sg.reserved)
      && (sg.payment.None? ==> Kept(order, w.pay))
      && (MovingForward(sg.status) ==> AllLive(order, w.inv) && Kept(order, w.pay))
      && (sg.status == Confirmed ==> w.status == OrderPaid)
      && (sg.status == Failed || sg.status == Pending ==> order.id !in w.pay.byOrder && NotUnderway(w.status))
      && (sg.status == Cancelled ==>
            AllGone(order, w.inv, sg.reserved) && NotCharged(w.pay, sg.payment) && w.status == OrderCancelled)
  }

  ghost predicate RunnerAccount(order: Order, s: State) {
    var w := s.world;
    match s.runner
    case Idle | Looping(_) => true
    case Ready(mem) => MovingForward(mem.status)
    case Executed(mem) =>
      && w.saga.Some? && MovingForward(w.saga.value.status) && MovingForward(mem.status)
      && (mem.status == Confirmed ==> w.status == OrderPaid)
    case Undoing(mem, plan, landed) =>
      && w.saga == Some(mem)
      && (plan == [PaymentStep, InventoryStep] || plan == [InventoryStep] || plan == [])
      && (|plan| == 2 && 0 in landed ==> NotCharged(w.pay, mem.payment))
      && (|plan| < 2 ==> NotCharged(w.pay, mem.payment))
      && (plan == [] ==> AllGone(order, w.inv, mem.reserved))
    case Closing(mem) =>
      && w.saga == Some(mem) && w.status == OrderCancelled
      && NotCharged(w.pay, mem.payment) && AllGone(order, w.inv, mem.reserved)
    case _ => false
  }

  ghost predicate Account(order: Order, s: State) {
    StoredAccount(order, s.world) && RunnerAccount(order, s)
  }

  /* ---------- Every diligent step keeps the accounts ---------- */

  // A call about other keys leaves this order's rows alone.
  ghost predicate SameRows(order: Order, inv: I.Tables, inv': I.Tables, except: Option<ProductId>) {
    forall p: ProductId {:trigger KeyOf(order, p)} :: except != Some(p) ==>
      var k := KeyOf(order, p);
      && (k in inv.reservations <==> k in inv'.reservations)
      && (k in inv.reservations ==> inv'.reservations[k] == inv.reservations[k])
  }

  ghost predicate SamePayment(order: Order, pay: P.Tables, pay': P.Tables) {
    && (order.id in pay.byOrder <==> order.id in pay'.byOrder)
    && (order.id in pay.byOrder && pay.byOrder[order.id] in pay.payments ==>
          && pay'.byOrder[order.id] == pay.byOrder[order.id]
          && pay.byOrder[order.id] in pay'.payments
          && pay'.payments[pay.byOrder[order.id]] == pay.payments[pay.byOrder[order.id]])
  }

  lemma ForeignCallIsQuiet(order: Order, pay: P.Tables, c: P.Call)
    requires P.Indexed(pay) && PaymentOk(order, pay) && Foreign(order, pay, c)
    ensures SamePayment(order, pay, P.Apply(pay, c).db)
  {
  }

  lemma QuietKeepsStored(order: Order, w: World, w': World)
    requires StoredAccount(order, w)
    requires w.saga.Some? ==> SagaOk(order, w, w.saga.value)
    requires w'.saga == w.saga && w'.status == w.status && PaymentOk(order, w.pay)
    requires SameRows(order, w.inv, w'.inv, None) && SamePayment(order, w.pay, w'.pay)
    ensures StoredAccount(order, w')
  {
    if w.saga.Some? {
      var sg := w.saga.value;
      assert StraysLive(order, w'.inv, sg.reserved) by {
        forall p: ProductId | !Recorded(sg.reserved, p) ensures Live(order, w'.inv, p) {
          assert Live(order, w.inv, p);
        }
      }
      if MovingForward(sg.status) {
        forall p: ProductId ensures Live(order, w'.inv, p) {
          assert Live(order, w.inv, p);
        }
      }
      if sg.status == Cancelled {
        forall i | 0 <= i < |sg.reserved| ensures Gone(order, w'.inv, sg.reserved[i]) {
          assert Gone(order, w.inv, sg.reserved[i]);
        }
      }
    }
  }

  lemma QuietKeepsRunner(order: Order, s: State, w': World)
    requires Inv(order, s) && RunnerAccount(order, s)
    requires w'.saga == s.world.saga && w'.status == s.world.status
    requires SameRows(order, s.world.inv, w'.inv, None) && SamePayment(order, s.world.pay, w'.pay)
    ensures RunnerAccount(order, s.(world := w'))
  {
    if s.runner.Undoing? || s.runner.Closing? {
      var mem := s.runner.mem;
      if AllGone(order, s.world.inv, mem.reserved) {
        forall i | 0 <= i < |mem.reserved| ensures Gone(order, w'.inv, mem.reserved[i]) {
          assert Gone(order, s.world.inv, mem.reserved[i]);
        }
      }
    }
  }

  lemma QuietKeepsAccount(order: Order, s: State, l: Label)
    requires Inv(order, s) && Services(s.world) && Account(order, s)
    requires l.OtherInventory? || l.OtherPayment?
    ensures Account(order, Step(order, s, l))
  {
    var s' := Step(order, s, l);
    if s' != s {
      if l.OtherPayment? {
        ForeignCallIsQuiet(order, s.world.pay, l.payCall);
      }
      assert SameRows(order, s.world.inv, s'.world.inv, None);
      assert SamePayment(order, s.world.pay, s'.world.pay);
      QuietKeepsStored(order, s.world, s'.world);
      QuietKeepsRunner(order, s, s'.world);
      assert s' == s.(world := s'.world);
    }
  }

  lemma NoRows(order: Order, inv: I.Tables)
    requires RowsWithin(order, inv, 0)
    ensures forall p: ProductId {:trigger KeyOf(order, p)} :: KeyOf(order, p) !in inv.reservations
    ensures AllLive(order, inv)
  {
  }

  lemma LoopKeepsAccount(order: Order, s: State, l: Label)
    requires Inv(order, s) && Account(order, s)
    requires l.Begin? || l.Prepare? || l.Persist? || l.Crash?
    ensures Account(order, Step(order, s, l))
  {
    if s.world.saga.None? {
      NoRows(order, s.world.inv);
    }
  }

  lemma GiveUpKeepsAccount(order: Order, s: State)
    requires Inv(order, s) && Account(order, s)
    ensures Account(order, Step(order, s, GiveUp(true)))
  {
  }

  lemma AttemptKeepsAccount(order: Order, s: State, outcome: Outcome, draw: P.Draw)
    requires Inv(order, s) && Account(order, s)
    ensures Account(order, Step(order, s, Attempt(outcome, draw)))
  {
    var s' := Step(order, s, Attempt(outcome, draw));
    if s.runner.Ready? && outcome != Dropped {
      assert AllLive(order, s.world.inv);
      forall p: ProductId ensures Live(order, s'.world.inv, p) {
        assert Live(order, s.world.inv, p);
      }
      assert Kept(order, s'.world.pay);
    }
  }

  lemma RefundKeepsAccount(order: Order, s: State, outcome: Outcome, rid: RefundId, base: string)
    requires Inv(order, s) && Services(s.world) && Account(order, s) && rid !in s.world.pay.refunds
    ensures Account(order, Step(order, s, Refund(outcome, rid, base)))
  {
    var s' := Step(order, s, Refund(outcome, rid, base));
    if s' != s {
      SagaRefundWorks(s.world.pay, rid, s.runner.mem.payment.value, base);
      assert NotCharged(s'.world.pay, s.runner.mem.payment);
    }
  }

  lemma ReleaseKeepsAccount(order: Order, s: State, i: nat, outcome: Outcome)
    requires Inv(order, s) && Account(order, s)
    ensures Account(order, Step(order, s, Release(i, outcome)))
  {
    var s' := Step(order, s, Release(i, outcome));
    if s' != s {
      var reserved := s.runner.mem.reserved;
      forall p: ProductId | !Recorded(reserved, p) ensures Live(order, s'.world.inv, p) {
        assert Live(order, s.world.inv, p);
        assert p != reserved[i].product;
      }
    }
  }

  lemma ClosingKeepsAccount(order: Order, s: State, l: Label)
    requires Inv(order, s) && Account(order, s) && Diligent(s, l)
    requires l.NextUndo? || l.MarkCancelled? || l.SaveCancelled? || l.CancelReleased?
    ensures Account(order, Step(order, s, l))
  {
    if l.NextUndo? && s.runner.Undoing? && s.runner.plan == [InventoryStep] {
      assert AllGone(order, s.world.inv, s.runner.mem.reserved) by {
        assert GoneAt(order, s.world.inv, s.runner.mem.reserved, s.runner.landed);
      }
    }
  }

  lemma StepKeepsAccount(order: Order, s: State, l: Label)
    requires Inv(order, s) && Services(s.world) && Account(order, s) && Diligent(s, l)
    ensures Account(order, Step(order, s, l))
  {
    match l
    case Begin | Prepare | Persist | Crash => LoopKeepsAccount(order, s, l);
    case GiveUp(_) => GiveUpKeepsAccount(order, s);
    case Attempt(outcome, draw) => AttemptKeepsAccount(order, s, outcome, draw);
    case Refund(outcome, rid, base) => RefundKeepsAccount(order, s, outcome, rid, base);
    case Release(i, outcome) => ReleaseKeepsAccount(order, s, i, outcome);
    case NextUndo | MarkCancelled(_) | SaveCancelled(_) | CancelReleased => ClosingKeepsAccount(order, s, l);
    case OtherInventory(_) | OtherPayment(_) => QuietKeepsAccount(order, s, l);
    case BeginCancel | DirectCancel =>
  }

  lemma {:induction false} RunKeepsAccount(order: Order, s: State, labels: seq<Label>)
    requires Inv(order, s) && Services(s.world) && Account(order, s) && DiligentRun(order, s, labels)
    ensures Account(order, Run(order, s, labels))
    decreases |labels|
  {
    if labels != [] {
      StepKeepsInv(order, s, labels[0]);
      StepKeepsAccount(order, s, labels[0]);
      RunKeepsAccount(order, Step(order, s, labels[0]), labels[1..]);
    }
  }

  /* ---------- The three endings ---------- */

  ghost predicate ConfirmedMeans(order: Order, w: World, sg: Saga) {
    && w.status == OrderPaid
    && (forall i :: 0 <= i < |order.items| ==>
          && KeyOf(order, order.items[i].product) in w.inv.reservations
          && w.inv.reservations[KeyOf(order, order.items[i].product)] ==
             I.Reservation(order.items[i].quantity, I.Reserved))
    && sg.payment.Some?
    && order.id in w.pay.byOrder && w.pay.byOrder[order.id] == sg.payment.value
    && sg.payment.value in w.pay.payments
    && w.pay.payments[sg.payment.value].amount == order.total
    && (w.pay.payments[sg.payment.value].status == P.Success || w.pay.payments[sg.payment.value].status == P.Failed)
  }

  // Exactly the effects the saga never learnt of are still there.
  ghost predicate CancelledMeans(order: Order, w: World, sg: Saga) {
    && w.status == OrderCancelled
    && (forall p: ProductId ::
          I.Net(w.inv.ledger, KeyOf(order, p)) == 0 <==> !Stray(order, w.inv, sg.reserved, p))
    && (order.id in w.pay.byOrder && w.pay.byOrder[order.id] in w.pay.payments ==>
          var verdict := w.pay.payments[w.pay.byOrder[order.id]].status;
          verdict != P.Failed ==> (verdict == P.Success <==> sg.payment.None?))
  }

  ghost predicate FailedMeans(order: Order, w: World) {
    && (forall p: ProductId :: KeyOf(order, p) !in w.inv.reservations && I.Net(w.inv.ledger, KeyOf(order, p)) == 0)
    && order.id !in w.pay.byOrder && NotUnderway(w.status)
  }

  lemma ConfirmedEnding(order: Order, s: State, sg: Saga)
    requires Inv(order, s) && Account(order, s) && s.world.saga == Some(sg) && sg.status == Confirmed
    ensures ConfirmedMeans(order, s.world, sg)
  {
    forall i | 0 <= i < |order.items|
      ensures KeyOf(order, order.items[i].product) in s.world.inv.reservations
      ensures s.world.inv.reservations[KeyOf(order, order.items[i].product)] ==
              I.Reservation(order.items[i].quantity, I.Reserved)
    {
      assert sg.reserved[i] == ReservedItem(order.items[i].product, order.items[i].quantity);
      assert Live(order, s.world.inv, order.items[i].product);
    }
  }

  lemma CancelledEnding(order: Order, s: State, sg: Saga)
    requires Inv(order, s) && Services(s.world) && Account(order, s)
    requires s.world.saga == Some(sg) && sg.status == Cancelled
    ensures CancelledMeans(order, s.world, sg)
  {
    var inv := s.world.inv;
    forall p: ProductId ensures I.Net(inv.ledger, KeyOf(order, p)) == 0 <==> !Stray(order, inv, sg.reserved, p) {
      I.NetIsWhatIsHeld(inv, KeyOf(order, p));
      if Recorded(sg.reserved, p) {
        var i :| 0 <= i < |sg.reserved| && sg.reserved[i].product == p;
        assert Gone(order, inv, sg.reserved[i]);
      } else {
        assert Live(order, inv, p);
      }
    }
  }

  lemma FailedEnding(order: Order, s: State, sg: Saga)
    requires Inv(order, s) && Services(s.world) && Account(order, s)
    requires s.world.saga == Some(sg) && sg.status == Failed
    ensures FailedMeans(order, s.world)
  {
    var inv := s.world.inv;
    NoRows(order, inv);
    forall p: ProductId ensures KeyOf(order, p) !in inv.reservations && I.Net(inv.ledger, KeyOf(order, p)) == 0 {
      I.NetIsWhatIsHeld(inv, KeyOf(order, p));
    }
  }

  // What the stored status means, at any moment of a diligent run.
  lemma WhatStatusMeans(order: Order, w: World, labels: seq<Label>)
    requires Fresh(order, w) && DiligentRun(order, Initial(w), labels)
    requires Run(order, Initial(w), labels).world.saga.Some?
    ensures var w' := Run(order, Initial(w), labels).world;
            var sg := w'.saga.value;
            && (sg.status == Confirmed ==> ConfirmedMeans(order, w', sg))
            && (sg.status == Cancelled ==> CancelledMeans(order, w', sg))
            && (sg.status == Failed ==> FailedMeans(order, w'))
  {
    var s := Run(order, Initial(w), labels);
    FreshIsInv(order, w);
    RunKeepsInv(order, Initial(w), labels);
    RunKeepsAccount(order, Initial(w), labels);
    var sg := s.world.saga.value;
    if sg.status == Confirmed { ConfirmedEnding(order, s, sg); }
    if sg.status == Cancelled { CancelledEnding(order, s, sg); }
    if sg.status == Failed { FailedEnding(order, s, sg); }
  }

  // From its start on, the process is neither killed nor overtaken by a cancellation, and the
  // save that closes a compensation succeeds.
  predicate Undisturbed(l: Label) {
    !l.Crash? && !l.BeginCancel? && !l.DirectCancel? && (l.SaveCancelled? ==> l.saved)
  }

  // A process that has not been disturbed rests only at the end.
  ghost predicate Underway(s: State) {
    match s.runner
    case Idle => s.world.saga.Some? && IsTerminal(s.world.saga.value.status)
    case Looping(mem) => s.world.saga == Some(mem) && mem.status != Compensating
    case Ready(mem) => NextStep(mem.status).Some?
    case Executed(mem) => mem.status != Compensating
    case Undoing(_, _, _) | Closing(_) => true
    case _ => false
  }

  lemma StepKeepsUnderway(order: Order, s: State, l: Label)
    requires Underway(s) && Undisturbed(l) && Diligent(s, l)
    ensures Underway(Step(order, s, l))
  {
  }

  lemma {:induction false} RunKeepsUnderway(order: Order, s: State, labels: seq<Label>)
    requires Underway(s) && DiligentRun(order, s, labels) && forall l <- labels :: Undisturbed(l)
    ensures Underway(Run(order, s, labels))
    decreases |labels|
  {
    if labels != [] {
      assert Undisturbed(labels[0]);
      StepKeepsUnderway(order, s, labels[0]);
      RunKeepsUnderway(order, Step(order, s, labels[0]), labels[1..]);
    }
  }

  lemma {:induction false} DiligentAppend(order: Order, s: State, a: seq<Label>, b: seq<Label>)
    ensures DiligentRun(order, s, a + b) <==> DiligentRun(order, s, a) && DiligentRun(order, Run(order, s, a), b)
    decreases |a|
  {
    if a == [] {
      assert a + b == b;
    } else {
      assert (a + b)[1..] == a[1..] + b;
      DiligentAppend(order, Step(order, s, a[0]), a[1..], b);
    }
  }

  // Where an order may rest.
  ghost predicate Ends(order: Order, w: World) {
    && w.saga.Some?
    && var sg := w.saga.value;
    || (sg.status == Confirmed && ConfirmedMeans(order, w, sg))
    || (sg.status == Cancelled && CancelledMeans(order, w, sg))
    || (sg.status == Failed && FailedMeans(order, w))
  }

  // A start, and what follows it, from a process that is not running.
  lemma StartedRunSettles(order: Order, s: State, after: seq<Label>)
    requires s.runner.Idle? && (s.world.saga.Some? ==> s.world.saga.value.status != Compensating)
    requires DiligentRun(order, s, [Begin] + after) && forall l <- after :: Undisturbed(l)
    requires Run(order, s, [Begin] + after).runner.Idle?
    ensures var w' := Run(order, s, [Begin] + after).world;
            w'.saga.Some? && IsTerminal(w'.saga.value.status)
  {
    assert ([Begin] + after)[1..] == after;
    RunKeepsUnderway(order, Step(order, s, Begin), after);
  }

  /** How ProcessOrder ends.  Let there have been any diligent run, with crashes, restarts and
      lost messages, and let the process start once more and not be disturbed until it stops.
      Then the order rests in one of three ways, unless the stored saga was compensating, which
      a restart never finishes: confirmed with every item reserved and one payment of the total;
      cancelled with everything the saga recorded given back, so that a product's ledger is off
      balance exactly when the saga never learnt that its reservation landed, and the customer
      stays charged exactly when it never learnt of the charge; or failed with nothing reserved
      and nothing charged. */
  lemma HowItEnds(order: Order, w: World, before: seq<Label>, after: seq<Label>)
    requires Fresh(order, w) && DiligentRun(order, Initial(w), before + ([Begin] + after))
    requires Run(order, Initial(w), before).runner.Idle? && forall l <- after :: Undisturbed(l)
    requires Run(order, Initial(w), before + ([Begin] + after)).runner.Idle?
    ensures var sg := Run(order, Initial(w), before).world.saga;
            Ends(order, Run(order, Initial(w), before + ([Begin] + after)).world)
            <==> !(sg.Some? && sg.value.status == Compensating)
  {
    var s := Run(order, Initial(w), before);
    RunAppend(order, Initial(w), before, [Begin] + after);
    DiligentAppend(order, Initial(w), before, [Begin] + after);
    if s.world.saga.Some? && s.world.saga.value.status == Compensating {
      forall l <- [Begin] + after ensures RecoveryLabel(l) {
        assert l != Begin ==> l in after;
      }
      CompensatingIsStuck(order, s, [Begin] + after);
    } else {
      StartedRunSettles(order, s, after);
      WhatStatusMeans(order, w, before + ([Begin] + after));
    }
  }

  /* ---------- All or nothing ---------- */

  // No reply is lost, and no crash falls between a step's success and its save.
  predicate Acknowledged(s: State, l: Label) {
    !(l.Attempt? && l.outcome == ReplyLost) && !(l.Crash? && s.runner.Executed?)
  }

  predicate AcknowledgedRun(order: Order, s: State, labels: seq<Label>)
    decreases |labels|
  {
    labels != [] ==> Acknowledged(s, labels[0]) && AcknowledgedRun(order, Step(order, s, labels[0]), labels[1..])
  }

  // The saga in hand knows of every effect that has landed.
  ghost predicate NoStrays(order: Order, s: State) {
    match InHand(s)
    case None => true
    case Some(sg) =>
      && (forall p: ProductId :: !Stray(order, s.world.inv, sg.reserved, p))
      && (order.id in s.world.pay.byOrder ==> sg.payment.Some?)
  }

  lemma NoStraysKept(order: Order, s: State, s': State)
    requires NoStrays(order, s) && InHand(s).Some? && InHand(s').Some?
    requires forall p: ProductId :: Recorded(InHand(s).value.reserved, p) ==> Recorded(InHand(s').value.reserved, p)
    requires InHand(s).value.payment.Some? ==> InHand(s').value.payment.Some?
    requires forall p: ProductId {:trigger KeyOf(order, p)} :: KeyOf(order, p) in s'.world.inv.reservations ==>
               KeyOf(order, p) in s.world.inv.reservations || Recorded(InHand(s').value.reserved, p)
    requires order.id in s'.world.pay.byOrder ==> order.id in s.world.pay.byOrder || InHand(s').value.payment.Some?
    ensures NoStrays(order, s')
  {
    forall p: ProductId ensures !Stray(order, s'.world.inv, InHand(s').value.reserved, p) {
      assert !Stray(order, s.world.inv, InHand(s).value.reserved, p);
    }
  }

  // Everything but an attempt leaves the records in hand and this order's effects as they are.
  ghost predicate SameKnowledge(order: Order, s: State, s': State) {
    && InHand(s).Some? && InHand(s').Some?
    && InHand(s').value.reserved == InHand(s).value.reserved
    && InHand(s').value.payment == InHand(s).value.payment
    && (forall p: ProductId {:trigger KeyOf(order, p)} ::
          KeyOf(order, p) in s'.world.inv.reservations ==> KeyOf(order, p) in s.world.inv.reservations)
    && (order.id in s'.world.pay.byOrder ==> order.id in s.world.pay.byOrder)
  }

  predicate CallsAService(l: Label) {
    l.Refund? || l.Release? || l.OtherInventory? || l.OtherPayment?
  }

  lemma CallsKnowTheSame(order: Order, s: State, l: Label)
    requires PaymentOk(order, s.world.pay) && P.Indexed(s.world.pay) && s.world.saga.Some? && CallsAService(l)
    ensures InHand(s).Some? && SameKnowledge(order, s, Step(order, s, l))
  {
    if l.OtherPayment? && Foreign(order, s.world.pay, l.payCall) {
      ForeignCallIsQuiet(order, s.world.pay, l.payCall);
    }
  }

  lemma OtherStepsKnowTheSame(order: Order, s: State, l: Label)
    requires Inv(order, s) && P.Indexed(s.world.pay) && s.world.saga.Some?
    requires !l.Attempt? && Acknowledged(s, l)
    ensures InHand(s).Some? && SameKnowledge(order, s, Step(order, s, l))
  {
    if CallsAService(l) {
      CallsKnowTheSame(order, s, l);
    }
  }

  lemma AttemptLeavesNoStrays(order: Order, s: State, l: Label)
    requires Inv(order, s) && NoStrays(order, s) && s.runner.Ready? && l.Attempt? && l.outcome == Delivered
    ensures NoStrays(order, Step(order, s, l))
  {
    var s' := Step(order, s, l);
    var was, now := s.runner.mem.reserved, InHand(s').value.reserved;
    forall p: ProductId | Recorded(was, p) ensures Recorded(now, p) {
      var i :| 0 <= i < |was| && was[i].product == p;
      assert now[i].product == p;
    }
    assert now != was ==> Recorded(now, now[|was|].product);
    NoStraysKept(order, s, s');
  }

  lemma StepLeavesNoStrays(order: Order, s: State, l: Label)
    requires Inv(order, s) && Services(s.world) && NoStrays(order, s) && Acknowledged(s, l)
    ensures NoStrays(order, Step(order, s, l))
  {
    var s' := Step(order, s, l);
    if s.world.saga.None? {
      NoRows(order, s.world.inv);
    } else if !l.Attempt? {
      OtherStepsKnowTheSame(order, s, l);
      NoStraysKept(order, s, s');
    } else if s.runner.Ready? && l.outcome == Delivered {
      AttemptLeavesNoStrays(order, s, l);
    }
  }

  lemma {:induction false} RunLeavesNoStrays(order: Order, s: State, labels: seq<Label>)
    requires Inv(order, s) && Services(s.world) && NoStrays(order, s) && AcknowledgedRun(order, s, labels)
    ensures NoStrays(order, Run(order, s, labels))
    decreases |labels|
  {
    if labels != [] {
      StepKeepsInv(order, s, labels[0]);
      StepLeavesNoStrays(order, s, labels[0]);
      RunLeavesNoStrays(order, Step(order, s, labels[0]), labels[1..]);
    }
  }

  // The order holds no stock and no successful payment.
  ghost predicate NothingLeft(order: Order, w: World) {
    && (forall p: ProductId :: I.Net(w.inv.ledger, KeyOf(order, p)) == 0)
    && (order.id in w.pay.byOrder ==>
          && w.pay.byOrder[order.id] in w.pay.payments
          && w.pay.payments[w.pay.byOrder[order.id]].status != P.Success)
  }

  lemma CancelledLeavesNothing(order: Order, w: World, labels: seq<Label>)
    requires Fresh(order, w)
    requires DiligentRun(order, Initial(w), labels) && AcknowledgedRun(order, Initial(w), labels)
    requires var s := Run(order, Initial(w), labels);
             s.runner.Idle? && s.world.saga.Some? && s.world.saga.value.status == Cancelled
    ensures NothingLeft(order, Run(order, Initial(w), labels).world)
  {
    var s := Run(order, Initial(w), labels);
    FreshIsInv(order, w);
    RunKeepsInv(order, Initial(w), labels);
    RunKeepsAccount(order, Initial(w), labels);
    CancelledEnding(order, s, s.world.saga.value);
    RunLeavesNoStrays(order, Initial(w), labels);
    forall p: ProductId ensures I.Net(s.world.inv.ledger, KeyOf(order, p)) == 0 {
      assert !Stray(order, s.world.inv, s.world.saga.value.reserved, p);
    }
  }

  /** All or nothing: when in addition an error means no effect, the run ends confirmed with
      every item and one payment, or cancelled or failed with its ledger summing to zero for
      every product and no successful payment left. */
  lemma AllOrNothing(order: Order, w: World, before: seq<Label>, after: seq<Label>)
    requires Fresh(order, w)
    requires DiligentRun(order, Initial(w), before + ([Begin] + after))
    requires AcknowledgedRun(order, Initial(w), before + ([Begin] + after))
    requires Run(order, Initial(w), before).runner.Idle? && forall l <- after :: Undisturbed(l)
    requires var sg := Run(order, Initial(w), before).world.saga; sg.Some? ==> sg.value.status != Compensating
    requires Run(order, Initial(w), before + ([Begin] + after)).runner.Idle?
    ensures var w' := Run(order, Initial(w), before + ([Begin] + after)).world;
            && w'.saga.Some?
            && var sg := w'.saga.value;
            || (sg.status == Confirmed && ConfirmedMeans(order, w', sg))
            || (sg.status == Cancelled && w'.status == OrderCancelled && NothingLeft(order, w'))
            || (sg.status == Failed && FailedMeans(order, w') && NothingLeft(order, w'))
  {
    HowItEnds(order, w, before, after);
    var w' := Run(order, Initial(w), before + ([Begin] + after)).world;
    if w'.saga.value.status == Cancelled {
      CancelledLeavesNothing(order, w, before + ([Begin] + after));
    }
  }

  /* ---------- Amid other orders' traffic ---------- */

  // Everything that is this order's is the same.
  ghost predicate SameForOrder(order: Order, a: World, b: World) {
    && a.saga == b.saga && a.status == b.status
    && SameRows(order, a.inv, b.inv, None)
    && (forall p: ProductId {:trigger KeyOf(order, p)} ::
          I.History(a.inv.ledger, KeyOf(order, p)) == I.History(b.inv.ledger, KeyOf(order, p)))
    && (order.id in a.pay.byOrder <==> order.id in b.pay.byOrder)
    && SamePayment(order, a.pay, b.pay)
  }

  // A confirmed order's rows, whatever led there.
  lemma ConfirmedRows(order: Order, s: State, p: ProductId)
    requires Inv(order, s) && Account(order, s) && s.world.saga.Some? && s.world.saga.value.status == Confirmed
    ensures KeyOf(order, p) in s.world.inv.reservations <==> Among(order, |order.items|, p)
    ensures KeyOf(order, p) in s.world.inv.reservations ==>
      forall i :: 0 <= i < |order.items| && order.items[i].product == p ==>
        s.world.inv.reservations[KeyOf(order, p)] == I.Reservation(order.items[i].quantity, I.Reserved)
  {
    ConfirmedEnding(order, s, s.world.saga.value);
    if KeyOf(order, p) in s.world.inv.reservations {
      assert Among(order, |order.items| + 1, p);
    }
  }

  lemma ConfirmedSagaIs(order: Order, a: State, b: State, d: P.Draw)
    requires Inv(order, a) && a.world.saga.Some? && a.world.saga.value.status == Confirmed && Agrees(order, a.world, d)
    requires Inv(order, b) && b.world.saga.Some? && b.world.saga.value.status == Confirmed && Agrees(order, b.world, d)
    ensures a.world.saga == b.world.saga
    ensures order.id in a.world.pay.byOrder && order.id in b.world.pay.byOrder
    ensures SamePayment(order, a.world.pay, b.world.pay)
  {
    var x, y := a.world.saga.value, b.world.saga.value;
    assert x.reserved == y.reserved;
  }

  lemma ConfirmedIsDetermined(order: Order, a: State, b: State, d: P.Draw)
    requires Inv(order, a) && Services(a.world) && Account(order, a) && Agrees(order, a.world, d)
    requires Inv(order, b) && Services(b.world) && Account(order, b) && Agrees(order, b.world, d)
    requires a.world.saga.Some? && a.world.saga.value.status == Confirmed
    requires b.world.saga.Some? && b.world.saga.value.status == Confirmed
    ensures SameForOrder(order, a.world, b.world)
  {
    ConfirmedSagaIs(order, a, b, d);
    forall p: ProductId
      ensures var k := KeyOf(order, p);
              && (k in a.world.inv.reservations <==> k in b.world.inv.reservations)
              && (k in a.world.inv.reservations ==> b.world.inv.reservations[k] == a.world.inv.reservations[k])
              && I.History(a.world.inv.ledger, k) == I.History(b.world.inv.ledger, k)
    {
      ConfirmedRows(order, a, p);
      ConfirmedRows(order, b, p);
      var k := KeyOf(order, p);
      assert I.History(a.world.inv.ledger, k) == I.Owed(a.world.inv.reservations, k);
      assert I.History(b.world.inv.ledger, k) == I.Owed(b.world.inv.reservations, k);
    }
  }

  predicate ForwardAmidTraffic(l: Label) {
    Forward(l) || l.OtherInventory? || l.OtherPayment?
  }

  // Without a step failing for good the stored saga only moves forward.
  ghost predicate MovesOn(s: State) {
    && (s.world.saga.Some? ==> MovingForward(s.world.saga.value.status))
    && (s.runner.Idle? || s.runner.Looping? || s.runner.Ready? || s.runner.Executed?)
    && (!s.runner.Idle? ==> MovingForward(s.runner.mem.status))
  }

  lemma {:induction false} TrafficRun(order: Order, s: State, labels: seq<Label>)
    requires MovesOn(s) && forall l <- labels :: ForwardAmidTraffic(l)
    ensures MovesOn(Run(order, s, labels)) && DiligentRun(order, s, labels)
    decreases |labels|
  {
    if labels != [] {
      assert ForwardAmidTraffic(labels[0]);
      var s1 := Step(order, s, labels[0]);
      assert MovesOn(s1);
      TrafficRun(order, s1, labels[1..]);
    }
  }

  lemma ConfirmedByRun(order: Order, w: World, labels: seq<Label>)
    requires Fresh(order, w) && forall l <- labels :: ForwardAmidTraffic(l)
    ensures var s := Run(order, Initial(w), labels);
            Inv(order, s) && Services(s.world) && Account(order, s) && MovesOn(s)
  {
    FreshIsInv(order, w);
    RunKeepsInv(order, Initial(w), labels);
    TrafficRun(order, Initial(w), labels);
    RunKeepsAccount(order, Initial(w), labels);
  }

  /** Crash and resume amid other orders' traffic: reserve and release calls of other orders and
      their charges and refunds may fall anywhere in the interrupted run.  Once it is done, all
      that is this order's (saga, order row, reservation rows, ledger entries, payment) is what
      one uninterrupted run with nobody else about leaves, if that run is granted its stock. */
  lemma ResumeAmidTraffic(order: Order, w: World, labels: seq<Label>, d: P.Draw)
    requires Fresh(order, w) && forall l <- labels :: ForwardAmidTraffic(l)
    requires var w' := Run(order, Initial(w), labels).world;
             w'.saga.Some? && NextStep(w'.saga.value.status).None? && Agrees(order, w', d)
    requires Confirms(order, w, d)
    ensures SameForOrder(order, Run(order, Initial(w), labels).world, Finish(order, w, d))
  {
    ConfirmedByRun(order, w, labels);
    var clean := CleanRun(order, w, d);
    ConfirmedByRun(order, w, clean);
    FinishAgrees(order, w, d);
    ConfirmedIsDetermined(order, Run(order, Initial(w), labels), Run(order, Initial(w), clean), d);
  }

  lemma CleanRun(order: Order, w: World, d: P.Draw) returns (labels: seq<Label>)
    requires w.saga.None? && Confirms(order, w, d)
    ensures Run(order, Initial(w), labels).world == Finish(order, w, d)
    ensures forall l <- labels :: ForwardAmidTraffic(l)
  {
    var s1 := Step(order, Initial(w), Begin);
    var rest := CleanLabels(order, s1.world, d);
    labels := [Begin] + rest;
    assert labels[1..] == rest;
    FinishIsARun(order, s1, d);
    CleanIsForward(order, s1.world, d);
  }
}
