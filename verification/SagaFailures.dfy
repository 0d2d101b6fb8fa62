/**
Where the saga does not do what one would hope: each failure as a run from a fresh order, and
the exact condition under which it does not happen.
*/
module SagaFailures {
  import opened Common
  import opened Saga
  import opened SagaInvariant
  import opened SagaClaims
  import opened SagaResume
  import opened SagaOutcome
  import I = Inventory
  import P = Payments

  /* ---------- Lost replies ---------- */

  // A fresh order of one item, up to its payment.
  function ToPaymentLabels(draw: P.Draw): seq<Label> {
    Start(draw) + Round(draw) + Round(draw)
  }

  lemma ToPayment(order: Order, w: World, item: Item, draw: P.Draw) returns (s: State)
    requires w.saga.None? && order.items == [item] && KeyOf(order, item.product) !in w.inv.reservations
    requires I.InStock(w.inv, item.product, item.quantity)
    ensures s == Run(order, Initial(w), ToPaymentLabels(draw))
    ensures s.runner == Ready(Saga(Paying, None, [ReservedItem(item.product, item.quantity)]))
    ensures s.world == World(Some(s.runner.mem), AwaitingPayment,
                             I.ReserveTx(w.inv, KeyOf(order, item.product), item.quantity).db, w.pay)
  {
    StartRuns(order, w, draw);
    var s1 := Run(order, Initial(w), Start(draw));
    RoundRuns(order, s1, draw);
    var s2 := Run(order, s1, Round(draw));
    assert s2.runner.mem == Saga(Reserving, None, [] + [ReservedItem(item.product, item.quantity)]);
    RoundRuns(order, s2, draw);
    s := Run(order, s2, Round(draw));
    RunAppend(order, Initial(w), Start(draw), Round(draw));
    RunAppend(order, Initial(w), Start(draw) + Round(draw), Round(draw));
  }

  function LoseReplyThenGiveUp(draw: P.Draw): seq<Label> {
    [Attempt(ReplyLost, draw), GiveUp(true), NextUndo, MarkCancelled(Delivered), SaveCancelled(true)]
  }

  // With nothing recorded the compensation releases and refunds nothing: what the lost reply
  // was about stays.
  lemma LostReplyIsForgotten(order: Order, s: State, draw: P.Draw)
    requires s.runner.Ready? && s.runner.mem.reserved == [] && s.runner.mem.payment.None?
    requires s.runner.mem.status == Reserving || s.runner.mem.status == Paying
    ensures var end := Run(order, s, LoseReplyThenGiveUp(draw));
            end.world == Execute(order, s.world, s.runner.mem, draw).world
                           .(status := OrderCancelled, saga := Some(Saga(Cancelled, None, [])))
  {
    var mem := s.runner.mem;
    var s1 := Step(order, s, Attempt(ReplyLost, draw));
    var s2 := Step(order, s1, GiveUp(true));
    assert s2.runner == Undoing(mem.(status := Compensating), [InventoryStep], {});
    var s3 := Step(order, s2, NextUndo);
    assert s3.runner == Undoing(mem.(status := Compensating), [], {});
    FiveSteps(order, s, Attempt(ReplyLost, draw), GiveUp(true), NextUndo,
              MarkCancelled(Delivered), SaveCancelled(true));
  }

  /** A reservation whose reply is lost is not given back: from any fresh order with an item in
      stock, the order ends cancelled and its stock stays held. */
  lemma LostReplyLeaksStock(order: Order, w: World, draw: P.Draw)
    requires Fresh(order, w) && order.items != []
    requires I.InStock(w.inv, order.items[0].product, order.items[0].quantity)
    ensures var end := Run(order, Initial(w), Start(draw) + LoseReplyThenGiveUp(draw));
            && end.world.saga == Some(Saga(Cancelled, None, [])) && end.world.status == OrderCancelled
            && Stray(order, end.world.inv, [], order.items[0].product)
  {
    StartRuns(order, w, draw);
    RunAppend(order, Initial(w), Start(draw), LoseReplyThenGiveUp(draw));
    LostReplyIsForgotten(order, Run(order, Initial(w), Start(draw)), draw);
  }

  function LoseChargeThenGiveUp(draw: P.Draw): seq<Label> {
    [Attempt(ReplyLost, draw), GiveUp(true), Release(0, Delivered)]
  }

  // The plan for a failed payment releases stock and refunds nothing.
  lemma LostChargeIsForgotten(order: Order, s: State, x: ReservedItem, draw: P.Draw)
    requires s.runner == Ready(Saga(Paying, None, [x])) && s.world.saga == Some(s.runner.mem)
    requires ReleaseItem(order, s.world.inv, x).reply == I.Ok
    ensures var t := Run(order, s, LoseChargeThenGiveUp(draw));
            && t.runner.Undoing? && t.runner.mem == Saga(Compensating, None, [x]) && t.runner.plan == [InventoryStep]
            && t.world.inv == ReleaseItem(order, s.world.inv, x).db
            && t.world.pay == P.ProcessPaymentTx(s.world.pay, order.id, order.total, draw).db
  {
    var s1 := Step(order, s, Attempt(ReplyLost, draw));
    var s2 := Step(order, s1, GiveUp(true));
    assert s2.runner == Undoing(Saga(Compensating, None, [x]), [InventoryStep], {});
    ThreeSteps(order, s, Attempt(ReplyLost, draw), GiveUp(true), Release(0, Delivered), []);
    assert LoseChargeThenGiveUp(draw) + [] == LoseChargeThenGiveUp(draw);
  }

  /** A charge whose reply is lost is not refunded: from any fresh order of one item in stock,
      the order ends cancelled with its stock given back and its customer charged. */
  lemma LostReplyLeaksCharge(order: Order, w: World, item: Item, draw: P.Draw)
    requires Fresh(order, w) && order.items == [item] && order.total > 0
    requires I.InStock(w.inv, item.product, item.quantity)
    requires draw.success && draw.payment !in w.pay.payments
    ensures var x := ReservedItem(item.product, item.quantity);
            var end := Run(order, Initial(w), ToPaymentLabels(draw) + (LoseChargeThenGiveUp(draw) + Close())).world;
            && end.saga == Some(Saga(Cancelled, None, [x])) && end.status == OrderCancelled
            && Gone(order, end.inv, x)
            && draw.payment in end.pay.payments
            && end.pay.payments[draw.payment] == P.Payment(order.id, order.total, P.Success)
  {
    var x := ReservedItem(item.product, item.quantity);
    var s := ToPayment(order, w, item, draw);
    var released := ReleaseItem(order, s.world.inv, x);
    assert released.reply == I.Ok && Gone(order, released.db, x) by {
      EveryReleaseWorks(order, w, ToPaymentLabels(draw), s.world.saga.value, 0);
    }
    LostChargeIsForgotten(order, s, x, draw);
    RunAppend(order, s, LoseChargeThenGiveUp(draw), Close());
    CloseRuns(order, Run(order, s, LoseChargeThenGiveUp(draw)));
    RunAppend(order, Initial(w), ToPaymentLabels(draw), LoseChargeThenGiveUp(draw) + Close());
  }

  lemma FiveSteps(order: Order, s: State, a: Label, b: Label, c: Label, d: Label, e: Label)
    ensures Run(order, s, [a, b, c, d, e]) ==
            Step(order, Step(order, Step(order, Step(order, Step(order, s, a), b), c), d), e)
  {
    var s1 := Step(order, s, a);
    var s2 := Step(order, s1, b);
    var s3 := Step(order, s2, c);
    RunAppend(order, s, [a], [b, c, d, e]);
    RunAppend(order, s1, [b], [c, d, e]);
    RunAppend(order, s2, [c], [d, e]);
    RunAppend(order, s3, [d], [e]);
    assert [a, b, c, d, e] == [a] + [b, c, d, e] && [b, c, d, e] == [b] + [c, d, e];
    assert [c, d, e] == [c] + [d, e] && [d, e] == [d] + [e];
    OneStep(order, s, a);
    OneStep(order, s1, b);
    OneStep(order, s2, c);
    OneStep(order, s3, d);
    OneStep(order, Step(order, s3, d), e);
  }

  /* ---------- A compensation that was not recorded ---------- */

  function UndoUnsaved(): seq<Label> {
    [GiveUp(false), Release(0, Delivered), Crash, Begin, Prepare]
  }

  function ResumeAndConfirm(draw: P.Draw): seq<Label> {
    Round(draw) + [Attempt(Delivered, draw), Persist]
  }

  // From any point at which the saga is about to pay for something it has reserved.
  lemma UnsavedGiveUp(order: Order, s: State, draw: P.Draw)
    requires Inv(order, s) && I.WellFormed(s.world.inv)
    requires s.runner.Ready? && s.runner.mem.status == Paying && s.runner.mem.reserved != []
    requires P.ProcessPaymentTx(s.world.pay, order.id, order.total, draw).reply.Charged?
    ensures var end := Run(order, s, UndoUnsaved() + ResumeAndConfirm(draw));
            && end.world.saga.Some? && end.world.saga.value.status == Confirmed && end.world.status == OrderPaid
            && Gone(order, end.world.inv, s.runner.mem.reserved[0])
  {
    GiveUpUnsaved(order, s);
    ResumePaying(order, Run(order, s, UndoUnsaved()), draw);
    RunAppend(order, s, UndoUnsaved(), ResumeAndConfirm(draw));
  }

  /** When the save of the decision to compensate is lost and the process crashes, the restarted
      saga carries on and confirms an order whose stock it has given back: from any fresh order
      of one item in stock. */
  lemma UnsavedGiveUpConfirmsReleasedStock(order: Order, w: World, item: Item, draw: P.Draw)
    requires Fresh(order, w) && order.items == [item] && order.total >= 0 && draw.payment !in w.pay.payments
    requires I.InStock(w.inv, item.product, item.quantity)
    ensures var toPayment := ToPaymentLabels(draw);
            var end := Run(order, Initial(w), toPayment + (UndoUnsaved() + ResumeAndConfirm(draw)));
            && end.world.saga.Some? && end.world.saga.value.status == Confirmed && end.world.status == OrderPaid
            && Gone(order, end.world.inv, ReservedItem(item.product, item.quantity))
  {
    var toPayment := ToPaymentLabels(draw);
    var s := ToPayment(order, w, item, draw);
    FreshIsInv(order, w);
    RunKeepsInv(order, Initial(w), toPayment);
    UnsavedGiveUp(order, s, draw);
    RunAppend(order, Initial(w), toPayment, UndoUnsaved() + ResumeAndConfirm(draw));
  }

  lemma GiveUpUnsaved(order: Order, s: State)
    requires Inv(order, s) && I.WellFormed(s.world.inv)
    requires s.runner.Ready? && s.runner.mem.status == Paying && s.runner.mem.reserved != []
    ensures var t := Run(order, s, UndoUnsaved());
            && t.runner == s.runner && t.world.pay == s.world.pay && t.world.saga == s.world.saga
            && Gone(order, t.world.inv, s.runner.mem.reserved[0])
  {
    FiveSteps(order, s, GiveUp(false), Release(0, Delivered), Crash, Begin, Prepare);
    ReleaseAlwaysWorks(order, s.world, s.runner.mem, 0);
    ReleasedThenResumed(order, s);
  }

  // The unsaved compensation is forgotten by the crash; its release is not.
  lemma ReleasedThenResumed(order: Order, s: State)
    requires s.runner.Ready? && s.runner.mem.status == Paying && s.runner.mem.reserved != []
    requires s.world.saga == Some(s.runner.mem)
    requires ReleaseItem(order, s.world.inv, s.runner.mem.reserved[0]).reply == I.Ok
    ensures var s2 := Step(order, Step(order, s, GiveUp(false)), Release(0, Delivered));
            var t := Step(order, Step(order, Step(order, s2, Crash), Begin), Prepare);
            && t.runner == s.runner
            && t.world == s.world.(inv := ReleaseItem(order, s.world.inv, s.runner.mem.reserved[0]).db)
  {
    var mem := s.runner.mem;
    var s1 := Step(order, s, GiveUp(false));
    assert s1 == s.(runner := Undoing(mem.(status := Compensating), [InventoryStep], {}));
    var s2 := Step(order, s1, Release(0, Delivered));
    assert s2.world == s.world.(inv := ReleaseItem(order, s.world.inv, mem.reserved[0]).db);
  }

  lemma ResumePaying(order: Order, t: State, draw: P.Draw)
    requires t.runner.Ready? && t.runner.mem.status == Paying
    requires P.ProcessPaymentTx(t.world.pay, order.id, order.total, draw).reply.Charged?
    ensures var end := Run(order, t, ResumeAndConfirm(draw));
            && end.world.saga.Some? && end.world.saga.value.status == Confirmed
            && end.world.saga.value.payment ==
               Some(P.ProcessPaymentTx(t.world.pay, order.id, order.total, draw).reply.id)
            && end.world.status == OrderPaid && end.world.inv == t.world.inv
            && end.world.pay == P.ProcessPaymentTx(t.world.pay, order.id, order.total, draw).db
  {
    RoundRuns(order, t, draw);
    var t3 := Run(order, t, Round(draw));
    RunAppend(order, t, Round(draw), [Attempt(Delivered, draw), Persist]);
    var t4 := Step(order, t3, Attempt(Delivered, draw));
    RunAppend(order, t3, [Attempt(Delivered, draw)], [Persist]);
    OneStep(order, t3, Attempt(Delivered, draw));
    OneStep(order, t4, Persist);
    assert [Attempt(Delivered, draw)] + [Persist] == [Attempt(Delivered, draw), Persist];
  }

  /** Exactly when a restart is safe.  After any run at all, let the process start again from the
      stored saga and end confirmed: it holds every item if and only if no item the saga had
      recorded was already released when it started. */
  lemma RestartHoldsAllIff(order: Order, w: World, labels: seq<Label>, sg: Saga, draw: P.Draw)
    requires Fresh(order, w) && Run(order, Initial(w), labels).world.saga == Some(sg)
    requires Confirms(order, Run(order, Initial(w), labels).world, draw)
    ensures var w' := Run(order, Initial(w), labels).world;
            HoldsAll(order, Finish(order, w', draw).inv) <==>
            forall i :: 0 <= i < |sg.reserved| ==> !Gone(order, w'.inv, sg.reserved[i])
  {
    var w' := Run(order, Initial(w), labels).world;
    FreshIsInv(order, w);
    RunKeepsInv(order, Initial(w), labels);
    assert SagaOk(order, w', sg);
    RecordedAndHeld(order, w', sg, draw);
  }

  lemma RecordedIsHeldIff(order: Order, w: World, sg: Saga, draw: P.Draw, i: nat)
    requires w.saga == Some(sg) && SagaOk(order, w, sg) && Confirms(order, w, draw) && i < |sg.reserved|
    ensures HeldAt(order, Finish(order, w, draw).inv, i) <==> !Gone(order, w.inv, sg.reserved[i])
  {
    FinishHolds(order, w, draw, i);
    var k, q, end := KeyOf(order, order.items[i].product), order.items[i].quantity, Finish(order, w, draw).inv;
    assert sg.reserved[i] == ReservedItem(order.items[i].product, q);
    assert w.inv.reservations[k].quantity == q && end.reservations[k] == w.inv.reservations[k];
    match w.inv.reservations[k].status
    case Reserved => assert end.reservations[k] == I.Reservation(q, I.Reserved);
    case Released => assert end.reservations[k] == I.Reservation(q, I.Released);
  }

  lemma UnrecordedIsHeld(order: Order, w: World, sg: Saga, draw: P.Draw, i: nat)
    requires w.saga == Some(sg) && SagaOk(order, w, sg) && Confirms(order, w, draw)
    requires |sg.reserved| <= i < |order.items|
    ensures HeldAt(order, Finish(order, w, draw).inv, i)
  {
    FinishHolds(order, w, draw, i);
    assert ResumesAt(order, sg) == |sg.reserved|;
    assert ListedFrom(order.items, |sg.reserved|, order.items[i]);
  }

  lemma RecordedAndHeld(order: Order, w: World, sg: Saga, draw: P.Draw)
    requires w.saga == Some(sg) && SagaOk(order, w, sg) && Confirms(order, w, draw)
    ensures HoldsAll(order, Finish(order, w, draw).inv) <==>
      forall i :: 0 <= i < |sg.reserved| ==> !Gone(order, w.inv, sg.reserved[i])
  {
    var end := Finish(order, w, draw).inv;
    forall i | 0 <= i < |sg.reserved| ensures HeldAt(order, end, i) <==> !Gone(order, w.inv, sg.reserved[i]) {
      RecordedIsHeldIff(order, w, sg, draw, i);
    }
    forall i | |sg.reserved| <= i < |order.items| ensures HeldAt(order, end, i) {
      UnrecordedIsHeld(order, w, sg, draw, i);
    }
  }

  /* ---------- Two items of one product ---------- */

  function Wanted(items: seq<Item>, p: ProductId): int
    decreases |items|
  {
    if items == [] then 0 else
      Wanted(items[1..], p) + if items[0].product == p then items[0].quantity else 0
  }

  function Occurrences(items: seq<Item>, p: ProductId): nat
    decreases |items|
  {
    if items == [] then 0 else
      Occurrences(items[1..], p) + if items[0].product == p then 1 else 0
  }

  lemma {:induction false} WantedIsMultiple(items: seq<Item>, p: ProductId, q: int)
    requires forall i :: 0 <= i < |items| && items[i].product == p ==> items[i].quantity == q
    ensures Wanted(items, p) == Occurrences(items, p) * q
    decreases |items|
  {
    if items != [] {
      WantedIsMultiple(items[1..], p, q);
    }
  }

  /** A confirmed order holds what it wanted of a product exactly when it lists the product
      once: a second line of the same product and quantity is taken for a retry of the first. */
  lemma ConfirmedHoldsWhatWasWanted(order: Order, w: World, sg: Saga, i: nat)
    requires ConfirmedMeans(order, w, sg) && I.WellFormed(w.inv) && i < |order.items|
    ensures var p := order.items[i].product;
            w.inv.reservations[KeyOf(order, p)].quantity == Wanted(order.items, p) <==> Occurrences(order.items, p) == 1
  {
    var p, q := order.items[i].product, order.items[i].quantity;
    assert w.inv.reservations[KeyOf(order, p)].quantity == q > 0;
    forall j | 0 <= j < |order.items| && order.items[j].product == p ensures order.items[j].quantity == q {
      assert w.inv.reservations[KeyOf(order, order.items[j].product)].quantity == order.items[j].quantity;
    }
    WantedIsMultiple(order.items, p, q);
    var n: int := Occurrences(order.items, p);
    assert n * q == q <==> n == 1 by {
      assert n * q - q == (n - 1) * q;
    }
  }

  function TwiceToPayment(draw: P.Draw): seq<Label> {
    Start(draw) + Round(draw) + Round(draw) + Round(draw)
  }

  lemma TwiceRuns(order: Order, w: World, item: Item, draw: P.Draw) returns (s: State)
    requires w.saga.None? && order.items == [item, item]
    requires KeyOf(order, item.product) !in w.inv.reservations
    requires I.InStock(w.inv, item.product, item.quantity)
    ensures s == Run(order, Initial(w), TwiceToPayment(draw))
    ensures s.runner.Ready? && s.runner.mem.status == Paying && s.world.pay == w.pay
    ensures s.world.inv == I.ReserveTx(w.inv, KeyOf(order, item.product), item.quantity).db
  {
    var x := ReservedItem(item.product, item.quantity);
    StartRuns(order, w, draw);
    var s1 := Run(order, Initial(w), Start(draw));
    RoundRuns(order, s1, draw);
    var s2 := Run(order, s1, Round(draw));
    assert s2.runner.mem == Saga(Reserving, None, [] + [x]);
    RoundRuns(order, s2, draw);
    var s3 := Run(order, s2, Round(draw));
    assert s3.runner.mem == Saga(Reserving, None, [] + [x] + [x]);
    RoundRuns(order, s3, draw);
    s := Run(order, s3, Round(draw));
    RunAppend(order, Initial(w), Start(draw), Round(draw));
    RunAppend(order, Initial(w), Start(draw) + Round(draw), Round(draw));
    RunAppend(order, Initial(w), Start(draw) + Round(draw) + Round(draw), Round(draw));
  }

  /** The failing case: from any fresh order that lists one item twice, the order is confirmed
      and paid holding the quantity once. */
  lemma ListedTwiceIsHeldOnce(order: Order, w: World, item: Item, draw: P.Draw)
    requires Fresh(order, w) && order.items == [item, item] && order.total > 0
    requires I.InStock(w.inv, item.product, item.quantity)
    requires draw.payment !in w.pay.payments
    ensures var end := Run(order, Initial(w), TwiceToPayment(draw) + ResumeAndConfirm(draw)).world;
            && end.saga.Some? && end.saga.value.status == Confirmed && end.status == OrderPaid
            && KeyOf(order, item.product) in end.inv.reservations
            && end.inv.reservations[KeyOf(order, item.product)] == I.Reservation(item.quantity, I.Reserved)
            && Wanted(order.items, item.product) == 2 * item.quantity > item.quantity
  {
    var s := TwiceRuns(order, w, item, draw);
    ResumePaying(order, s, draw);
    RunAppend(order, Initial(w), TwiceToPayment(draw), ResumeAndConfirm(draw));
    assert order.items[1..] == [item] && [item][1..] == [];
    assert Wanted([item], item.product) == item.quantity;
  }

  /* ---------- Payments that failed ---------- */

  /** The failing case of CancelOrder: from any fresh order of one item in stock whose payment
      fails, the order is confirmed and paid all the same; and whatever happens after that, the
      payment cannot be refunded under any key and no cancellation gets past its refund. */
  lemma FailedPaymentCannotBeCancelled(order: Order, w: World, item: Item, draw: P.Draw,
                                       later: seq<Label>, base: string)
    requires Fresh(order, w) && order.items == [item] && order.total > 0
    requires I.InStock(w.inv, item.product, item.quantity)
    requires !draw.success && draw.payment !in w.pay.payments
    ensures var s := Run(order, Initial(w), ToPaymentLabels(draw) + ResumeAndConfirm(draw));
            var t := Run(order, s, later);
            && s.world.saga.Some? && s.world.saga.value.status == Confirmed && s.world.status == OrderPaid
            && s.world.saga.value.payment == Some(draw.payment)
            && !P.Refundable(t.world.pay, draw.payment, base)
            && !(t.runner.CancelSaving? && t.runner.mem.payment.Some?)
  {
    var labels := ToPaymentLabels(draw) + ResumeAndConfirm(draw);
    var s := Run(order, Initial(w), labels);
    var paying := ToPayment(order, w, item, draw);
    ResumePaying(order, paying, draw);
    RunAppend(order, Initial(w), ToPaymentLabels(draw), ResumeAndConfirm(draw));
    FreshIsInv(order, w);
    RunKeepsInv(order, Initial(w), labels);
    FailedStaysFailed(order, s, later, draw.payment, base);
  }

  lemma FailedStaysFailed(order: Order, s: State, later: seq<Label>, pid: PaymentId, base: string)
    requires Inv(order, s) && Services(s.world)
    requires order.id in s.world.pay.byOrder && s.world.pay.byOrder[order.id] == pid
    requires s.world.pay.payments[pid].status == P.Failed
    ensures var t := Run(order, s, later);
            !P.Refundable(t.world.pay, pid, base) && !(t.runner.CancelSaving? && t.runner.mem.payment.Some?)
  {
    var t := Run(order, s, later);
    assert P.WellFormed(t.world.pay) && P.KeysHonest(t.world.pay) && P.Settled(s.world.pay, t.world.pay) by {
      RunMovesForward(order, s, later);
    }
    assert t.world.pay.payments[pid].status == P.Failed && t.world.pay.byOrder[order.id] == pid;
    P.FailedIsNotRefundable(t.world.pay, pid, base);
    assert Inv(order, t) by {
      RunKeepsInv(order, s, later);
    }
  }

  /* ---------- Cancelling past the saga ---------- */

  /** The failing case of a direct cancellation: the process dies before the payment, the
      customer cancels the order, and recovery charges them and marks the order paid. */
  lemma DirectlyCancelledIsPaid(order: Order, w: World, item: Item, draw: P.Draw)
    requires Fresh(order, w) && order.items == [item] && order.total > 0
    requires I.InStock(w.inv, item.product, item.quantity)
    requires draw.success && draw.payment !in w.pay.payments
    ensures var start := ToPaymentLabels(draw);
            var cancelled := Run(order, Initial(w), start + [Crash, DirectCancel, Begin] + [Prepare]);
            var end := Run(order, cancelled, ResumeAndConfirm(draw)).world;
            && cancelled.world.status == OrderCancelled && order.id !in cancelled.world.pay.byOrder
            && end.status == OrderPaid
            && order.id in end.pay.byOrder && end.pay.byOrder[order.id] == draw.payment
            && draw.payment in end.pay.payments
            && end.pay.payments[draw.payment] == P.Payment(order.id, order.total, P.Success)
  {
    var start := ToPaymentLabels(draw);
    var s := ToPayment(order, w, item, draw);
    RunAppend(order, Initial(w), start, [Crash, DirectCancel, Begin] + [Prepare]);
    assert start + ([Crash, DirectCancel, Begin] + [Prepare]) == start + [Crash, DirectCancel, Begin] + [Prepare];
    ThreeSteps(order, s, Crash, DirectCancel, Begin, [Prepare]);
    var s3 := Step(order, Step(order, Step(order, s, Crash), DirectCancel), Begin);
    OneStep(order, s3, Prepare);
    var t := Step(order, s3, Prepare);
    ResumePaying(order, t, draw);
  }

  function CancelledInBetween(draw: P.Draw): seq<Label> {
    [Attempt(Delivered, draw), DirectCancel, Persist]
  }

  /** The other failing case: the cancellation was let through while the order awaited payment,
      and its update lands between the saga's update to paid and its save.  The order rests
      cancelled with its saga confirmed, its stock held and its customer charged. */
  lemma LateCancelKeepsStockAndCharge(order: Order, w: World, item: Item, draw: P.Draw)
    requires Fresh(order, w) && order.items == [item] && order.total > 0
    requires I.InStock(w.inv, item.product, item.quantity)
    requires draw.success && draw.payment !in w.pay.payments
    ensures var end := Run(order, Initial(w), ToPaymentLabels(draw) + (Round(draw) + CancelledInBetween(draw))).world;
            && end.status == OrderCancelled
            && end.saga.Some? && end.saga.value.status == Confirmed
            && HeldAt(order, end.inv, 0)
            && draw.payment in end.pay.payments
            && end.pay.payments[draw.payment] == P.Payment(order.id, order.total, P.Success)
  {
    var s := ToPayment(order, w, item, draw);
    RoundRuns(order, s, draw);
    var t := Run(order, s, Round(draw));
    RunAppend(order, s, Round(draw), CancelledInBetween(draw));
    RunAppend(order, Initial(w), ToPaymentLabels(draw), Round(draw) + CancelledInBetween(draw));
    ThreeSteps(order, t, Attempt(Delivered, draw), DirectCancel, Persist, []);
    assert CancelledInBetween(draw) + [] == CancelledInBetween(draw);
    assert t.runner.mem.status == Confirming;
    assert HeldAt(order, t.world.inv, 0);
  }
}
