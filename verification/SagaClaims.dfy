/**
What holds at every point of every run of the saga machine, read off its invariant.
*/
module SagaClaims {
  import opened Common
  import opened Saga
  import opened SagaInvariant
  import I = Inventory
  import P = Payments

  lemma FreshIsInv(order: Order, w: World)
    requires Fresh(order, w)
    ensures Inv(order, Initial(w)) && Services(w)
  {
  }

  /** Persist before act: whatever crashed or got lost, the order's reservation rows belong to
      the stored items and at most the next one, a payment exists only if the saga was stored
      as paying before, and the order is paid only if it was stored as confirming before. */
  lemma PersistsBeforeItActs(order: Order, w: World, labels: seq<Label>)
    requires Fresh(order, w)
    ensures var s := Run(order, Initial(w), labels);
            && (forall k <- s.world.inv.reservations :: k.order == order.id ==>
                  && s.world.saga.Some?
                  && Among(order, |s.world.saga.value.reserved| + 1, k.product))
            && (order.id in s.world.pay.byOrder ==> WasStored(order, w, labels, Rank(Paying)))
            && (s.world.status == OrderPaid ==> WasStored(order, w, labels, Rank(Confirming)))
  {
    var s := Run(order, Initial(w), labels);
    FreshIsInv(order, w);
    RunKeepsInv(order, Initial(w), labels);
    if s.world.saga.Some? {
      RowsWithinMonotone(order, s.world.inv, RowLimit(s.world.saga.value), |s.world.saga.value.reserved| + 1);
    }
    if order.id in s.world.pay.byOrder {
      ReachedWasStored(order, w, labels, Rank(Paying));
    }
    if s.world.status == OrderPaid {
      ReachedWasStored(order, w, labels, Rank(Confirming));
    }
  }

  ghost predicate StoredAtLeast(w: World, rank: nat) {
    w.saga.Some? && Rank(w.saga.value.status) >= rank
  }

  // At some moment of the run the stored saga had at least this rank.
  ghost predicate WasStored(order: Order, w: World, labels: seq<Label>, rank: nat) {
    exists n :: 0 <= n <= |labels| && StoredAtLeast(Run(order, Initial(w), labels[..n]).world, rank)
  }

  lemma {:induction false} ReachedWasStored(order: Order, w: World, labels: seq<Label>, rank: nat)
    requires rank > 0 && Run(order, Initial(w), labels).reached >= rank
    ensures WasStored(order, w, labels, rank)
    decreases |labels|
  {
    if labels != [] {
      var n := |labels| - 1;
      var before, last := labels[..n], labels[n];
      assert labels == before + [last];
      RunAppend(order, Initial(w), before, [last]);
      var s := Run(order, Initial(w), before);
      assert Run(order, s, [last]) == Step(order, s, last);
      if s.reached >= rank {
        ReachedWasStored(order, w, before, rank);
        var m :| 0 <= m <= n && StoredAtLeast(Run(order, Initial(w), before[..m]).world, rank);
        assert before[..m] == labels[..m];
      } else {
        assert labels[..|labels|] == labels;
        assert StoredAtLeast(Run(order, Initial(w), labels[..|labels|]).world, rank);
      }
    }
  }

  /** Release never fails for a business reason: in every reachable state, for every item the
      stored saga or the running process has recorded, the release the compensation would
      send is granted, and repeated releases of it change nothing more. */
  lemma EveryReleaseWorks(order: Order, w: World, labels: seq<Label>, sg: Saga, i: nat)
    requires Fresh(order, w)
    requires var s := Run(order, Initial(w), labels);
             s.world.saga == Some(sg) || (!s.runner.Idle? && s.runner.mem == sg)
    requires i < |sg.reserved|
    ensures var inv := Run(order, Initial(w), labels).world.inv;
            var r := ReleaseItem(order, inv, sg.reserved[i]);
            && r.reply == I.Ok
            && Gone(order, r.db, sg.reserved[i])
            && ReleaseItem(order, r.db, sg.reserved[i]) == I.Result(r.db, I.Ok)
  {
    var s := Run(order, Initial(w), labels);
    FreshIsInv(order, w);
    RunKeepsInv(order, Initial(w), labels);
    assert SagaOk(order, s.world, sg);
    ReleaseAlwaysWorks(order, s.world, sg, i);
  }

  /* ---------- CancelOrder ---------- */

  lemma {:induction false} RunMovesForward(order: Order, s: State, labels: seq<Label>)
    requires Services(s.world)
    ensures var w, w' := s.world, Run(order, s, labels).world;
            Services(w') && I.Grows(w.inv, w'.inv) && P.Settled(w.pay, w'.pay)
    decreases |labels|
  {
    if labels != [] {
      var s1 := Step(order, s, labels[0]);
      StepKeepsServices(order, s, labels[0]);
      RunMovesForward(order, s1, labels[1..]);
      P.SettledTransitive(s.world.pay, s1.world.pay, Run(order, s, labels).world.pay);
    }
  }

  // The pair was reserved once and released once, with the recorded quantity.
  ghost predicate ReleasedExactlyOnce(order: Order, inv: I.Tables, item: ReservedItem) {
    var k := KeyOf(order, item.product);
    I.History(inv.ledger, k) ==
    [I.LedgerEntry(k, -item.quantity, I.OpReserve), I.LedgerEntry(k, item.quantity, I.OpRelease)]
  }

  ghost predicate RefundedExactlyOnce(pay: P.Tables, pid: PaymentId) {
    && pid in pay.payments && pay.payments[pid].status == P.Refunded
    && exists r :: r in pay.refunds && P.RefundsOf(pay, pid) == {r}
  }

  lemma GoneIsReleasedOnce(order: Order, inv: I.Tables, item: ReservedItem)
    requires I.WellFormed(inv) && Gone(order, inv, item)
    ensures ReleasedExactlyOnce(order, inv, item)
  {
    var k := KeyOf(order, item.product);
    assert I.History(inv.ledger, k) == I.Owed(inv.reservations, k);
  }

  lemma PaidBackIsRefundedOnce(pay: P.Tables, pid: PaymentId)
    requires P.WellFormed(pay) && PaidBack(pay, Some(pid))
    ensures RefundedExactlyOnce(pay, pid)
  {
    assert P.RefundedOnce(pay, pid);
  }

  // Whatever has been refunded of this order's payment was refunded in full.
  ghost predicate RefundsFull(order: Order, pay: P.Tables) {
    forall r <- pay.refunds ::
      var pid := pay.refunds[r].payment;
      pid in pay.payments && pay.payments[pid].order == order.id ==> pay.refunds[r].amount == pay.payments[pid].amount
  }

  lemma CallKeepsRefundsFull(order: Order, pay: P.Tables, c: P.Call)
    requires P.Indexed(pay) && RefundsFull(order, pay)
    requires c.RefundPayment? ==>
      c.amount == 0 || (c.payment in pay.payments ==> pay.payments[c.payment].order != order.id)
    ensures RefundsFull(order, P.Apply(pay, c).db)
  {
    var pay' := P.Apply(pay, c).db;
    forall r <- pay'.refunds | r in pay.refunds
      ensures pay'.refunds[r] == pay.refunds[r] && pay.refunds[r].payment in pay.payments
    {
    }
    forall pid <- pay.payments
      ensures pid in pay'.payments && pay'.payments[pid].order == pay.payments[pid].order
      ensures pay'.payments[pid].amount == pay.payments[pid].amount
    {
    }
  }

  lemma {:induction false} RunKeepsRefundsFull(order: Order, s: State, labels: seq<Label>)
    requires Services(s.world) && RefundsFull(order, s.world.pay)
    ensures RefundsFull(order, Run(order, s, labels).world.pay)
    decreases |labels|
  {
    if labels != [] {
      var s' := Step(order, s, labels[0]);
      if s'.world.pay != s.world.pay {
        CallKeepsRefundsFull(order, s.world.pay, PaymentCall(order, s, labels[0]));
      }
      StepKeepsServices(order, s, labels[0]);
      RunKeepsRefundsFull(order, s', labels[1..]);
    }
  }

  /** In every run of an order, a refund of its payment is for the whole of it. */
  lemma RefundsAreFull(order: Order, w: World, labels: seq<Label>)
    requires Fresh(order, w)
    ensures RefundsFull(order, Run(order, Initial(w), labels).world.pay)
  {
    RunKeepsRefundsFull(order, Initial(w), labels);
  }

  // Everything the saga recorded has been undone, exactly once.
  ghost predicate Undone(order: Order, w: World, sg: Saga) {
    && (sg.payment.Some? ==> RefundedExactlyOnce(w.pay, sg.payment.value))
    && (forall i :: 0 <= i < |sg.reserved| ==> ReleasedExactlyOnce(order, w.inv, sg.reserved[i]))
  }

  lemma CancelledIsUndone(order: Order, s: State, later: seq<Label>)
    requires Services(s.world) && s.runner.CancelSaving? && Driving(order, s)
    ensures Undone(order, Run(order, s, later).world, s.runner.mem)
  {
    var mem, w' := s.runner.mem, Run(order, s, later).world;
    RunMovesForward(order, s, later);
    RecordsKept(order, s.world, w', mem);
    if mem.payment.Some? {
      PaidBackIsRefundedOnce(w'.pay, mem.payment.value);
    }
    forall i | 0 <= i < |mem.reserved| ensures ReleasedExactlyOnce(order, w'.inv, mem.reserved[i]) {
      GoneIsReleasedOnce(order, w'.inv, mem.reserved[i]);
    }
  }

  /** CancelOrder converges.  After any run at all, including any number of attempts that
      failed half way or whose replies were lost, an attempt that gets as far as returning nil
      has left exactly one refund of the recorded payment and every recorded reservation
      released exactly once; and no later event takes that away. */
  lemma CancelConverges(order: Order, w: World, labels: seq<Label>, later: seq<Label>)
    requires Fresh(order, w)
    requires Run(order, Initial(w), labels).runner.CancelSaving?
    ensures Undone(order, Run(order, Initial(w), labels + later).world, Run(order, Initial(w), labels).runner.mem)
  {
    RunAppend(order, Initial(w), labels, later);
    FreshIsInv(order, w);
    RunKeepsInv(order, Initial(w), labels);
    CancelledIsUndone(order, Run(order, Initial(w), labels), later);
  }

  /* ---------- Recovery does not finish a compensation ---------- */

  predicate RecoveryLabel(l: Label) {
    !l.BeginCancel?
  }

  /** A saga stored as compensating stays so through every restart and recovery. */
  lemma {:induction false} CompensatingIsStuck(order: Order, s: State, labels: seq<Label>)
    requires s.world.saga.Some? && s.world.saga.value.status == Compensating
    requires s.runner.Idle? || s.runner == Looping(s.world.saga.value)
    requires forall l <- labels :: RecoveryLabel(l)
    ensures Run(order, s, labels).world.saga == s.world.saga
    decreases |labels|
  {
    if labels != [] {
      var s1 := Step(order, s, labels[0]);
      assert RecoveryLabel(labels[0]);
      assert s1.world.saga == s.world.saga;
      assert s1.runner.Idle? || s1.runner == Looping(s1.world.saga.value);
      CompensatingIsStuck(order, s1, labels[1..]);
    }
  }
}
