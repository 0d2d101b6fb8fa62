/**
The network under the orchestrator and what retrying over it amounts to.

A network answers every interaction as it likes.  The functions here say what a sequence of
attempts at one step leaves, without reference to the loop that makes them.
*/
module Retries {
  import opened Common
  import opened Saga
  import opened SagaInvariant
  import opened SagaResume
  import I = Inventory
  import P = Payments

  // How the network answers one interaction, and what chance contributes to it.
  datatype Delivery = Delivery(outcome: Outcome, draw: P.Draw, refund: RefundId, expired: bool)

  const MAX_RETRIES: nat := 3

  // Nothing gets lost and no context expires.
  ghost predicate Calm(net: nat -> Delivery, draw: P.Draw) {
    forall n: nat :: net(n).outcome == Delivered && net(n).draw == draw && !net(n).expired
  }

  // Three interactions in a row get no answer.
  predicate ThreeLost(net: nat -> Delivery, n: nat) {
    net(n).outcome != Delivered && net(n + 1).outcome != Delivered && net(n + 2).outcome != Delivered
  }

  // No context expires, and of three interactions in a row one comes through.
  ghost predicate Persistent(net: nat -> Delivery) {
    (forall n: nat :: !net(n).expired) && (forall n: nat :: !ThreeLost(net, n))
  }

  // Every refund id chance will draw is new.
  ghost predicate FreshIds(net: nat -> Delivery, pay: P.Tables) {
    forall n: nat :: net(n).refund !in pay.refunds
  }

  ghost predicate CalmAndFresh(net: nat -> Delivery, pay: P.Tables) {
    (exists draw :: Calm(net, draw)) && FreshIds(net, pay)
  }

  // Some context expired between the two times, both included.
  ghost predicate Expired(net: nat -> Delivery, from: nat, to: nat) {
    exists c :: from <= c <= to && net(c).expired
  }

  // Some interaction between the two times was not acknowledged.
  ghost predicate Disturbed(net: nat -> Delivery, from: nat, to: nat) {
    exists c :: from <= c < to && net(c).outcome != Delivered
  }

  lemma DisturbedNext(net: nat -> Delivery, from: nat, to: nat)
    requires from <= to
    ensures Disturbed(net, from, to + 1) <==> Disturbed(net, from, to) || net(to).outcome != Delivered
  {
  }

  lemma DisturbedMore(net: nat -> Delivery, from: nat, from': nat, to: nat)
    requires Disturbed(net, from', to) && from <= from'
    ensures Disturbed(net, from, to)
  {
  }

  /* ---------- Attempts at one step ---------- */

  // The world after n attempts, the first at time c.
  function Tried(order: Order, w: World, mem: Saga, net: nat -> Delivery, c: nat, n: nat): World {
    if n == 0 then w else
      var before := Tried(order, w, mem, net, c, n - 1);
      var d := net(c + n - 1);
      if d.outcome == Dropped then before else Execute(order, before, mem, d.draw).world
  }

  // What the attempt after n others learns: the saga, if it is answered and the answer is yes.
  function Answer(order: Order, w: World, mem: Saga, net: nat -> Delivery, c: nat, n: nat): Option<Saga> {
    if net(c + n).outcome != Delivered then None
    else Execute(order, Tried(order, w, mem, net, c, n), mem, net(c + n).draw).saga
  }

  // None of the first n attempts learns of a success, and no context expires before another.
  ghost predicate InVain(order: Order, w: World, mem: Saga, net: nat -> Delivery, c: nat, n: nat) {
    n == 0 || (InVain(order, w, mem, net, c, n - 1) && Answer(order, w, mem, net, c, n - 1).None?
               && (n > 1 ==> !net(c + n - 1).expired))
  }

  // How up to three attempts end: with the first that is answered with a success, or after the
  // third, or when the context expires before another.
  ghost predicate Concluded(order: Order, w: World, mem: Saga, net: nat -> Delivery, c: nat, n: nat,
                            next: Option<Saga>) {
    if next.Some? then
      1 <= n <= 3 && InVain(order, w, mem, net, c, n - 1) && (n > 1 ==> !net(c + n - 1).expired)
      && next == Answer(order, w, mem, net, c, n - 1)
    else
      1 <= n <= 3 && InVain(order, w, mem, net, c, n) && (n == 3 || net(c + n).expired)
  }

  lemma AnswerIsProgress(order: Order, w: World, mem: Saga, net: nat -> Delivery, c: nat, n: nat)
    requires Prepared(mem) == mem && Answer(order, w, mem, net, c, n).Some?
    ensures StepsLeft(order, Answer(order, w, mem, net, c, n).value) == StepsLeft(order, mem) - 1
  {
    StepMakesProgress(order, Tried(order, w, mem, net, c, n), mem, net(c + n).draw);
  }

  // Over a calm network the first attempt decides.
  lemma CalmRetries(order: Order, w: World, mem: Saga, net: nat -> Delivery, c: nat, n: nat, next: Option<Saga>,
                    draw: P.Draw)
    requires Concluded(order, w, mem, net, c, n, next) && Calm(net, draw)
    ensures next == Execute(order, w, mem, draw).saga
    ensures Tried(order, w, mem, net, c, n) == Execute(order, w, mem, draw).world
    ensures next.None? ==> Tried(order, w, mem, net, c, n) == w
  {
    if Execute(order, w, mem, draw).saga.Some? {
      assert Answer(order, w, mem, net, c, 0) == Execute(order, w, mem, draw).saga;
      if next.None? || n > 1 {
        InVainAt(order, w, mem, net, c, if next.None? then n else n - 1, 0);
      }
    } else {
      RefusedStays(order, w, mem, net, c, n, draw);
      RefusedStays(order, w, mem, net, c, n - 1, draw);
    }
  }

  lemma {:induction false} RefusedStays(order: Order, w: World, mem: Saga, net: nat -> Delivery, c: nat, n: nat,
                                        draw: P.Draw)
    requires Calm(net, draw)
    ensures Execute(order, w, mem, draw).saga.None? ==>
      Tried(order, w, mem, net, c, n) == w == Execute(order, w, mem, draw).world
    decreases n
  {
    if n > 0 {
      RefusedStays(order, w, mem, net, c, n - 1, draw);
      assert net(c + n - 1).draw == draw;
    }
  }

  // Once a step has been granted another attempt at it, with whatever draw, changes nothing
  // and is given the same answer.
  lemma ExecuteAgain(order: Order, w: World, mem: Saga, draw: P.Draw, again: P.Draw)
    requires Decided(order, w)
    ensures var e := Execute(order, w, mem, draw);
            if e.saga.Some? then Execute(order, e.world, mem, again) == e else e.world == w
  {
  }

  /** However many attempts are made at a step and whatever the network does to them, they have
      the effect of one: of the first that arrived and was granted, or none.  And whoever of the
      later ones gets an answer gets the answer to that one. */
  lemma {:induction false} RetriesCountOnce(order: Order, w: World, mem: Saga, net: nat -> Delivery, c: nat, n: nat)
    requires Decided(order, w)
    ensures Decided(order, Tried(order, w, mem, net, c, n))
    ensures Tried(order, w, mem, net, c, n) == w || Effective(order, w, mem, net, c, n)
    decreases n
  {
    if n > 0 {
      RetriesCountOnce(order, w, mem, net, c, n - 1);
      var before, d := Tried(order, w, mem, net, c, n - 1), net(c + n - 1);
      ExecuteDecides(order, before, mem, d.draw);
      if before == w {
        ExecuteAgain(order, w, mem, d.draw, d.draw);
        if Tried(order, w, mem, net, c, n) != w {
          assert Lands(order, w, mem, net, c, n, n - 1) by {
            forall again ensures Execute(order, Execute(order, w, mem, d.draw).world, mem, again) ==
                                 Execute(order, w, mem, d.draw) {
              ExecuteAgain(order, w, mem, d.draw, again);
            }
          }
        }
      } else {
        var j :| 0 <= j < n - 1 && Lands(order, w, mem, net, c, n - 1, j);
        assert Lands(order, w, mem, net, c, n, j);
      }
    }
  }

  ghost predicate Effective(order: Order, w: World, mem: Saga, net: nat -> Delivery, c: nat, n: nat) {
    exists j :: 0 <= j < n && Lands(order, w, mem, net, c, n, j)
  }

  // Attempt j arrived and was granted; the n attempts left what it alone leaves, and any further
  // one would be given its answer.
  ghost predicate Lands(order: Order, w: World, mem: Saga, net: nat -> Delivery, c: nat, n: nat, j: nat) {
    var e := Execute(order, w, mem, net(c + j).draw);
    && net(c + j).outcome != Dropped && e.saga.Some?
    && Tried(order, w, mem, net, c, n) == e.world
    && forall again :: Execute(order, e.world, mem, again) == e
  }

  /* ---------- Orders that would be confirmed ---------- */

  // The undisturbed run confirms the order, whichever of the network's draws it gets.
  ghost predicate Sure(order: Order, w: World, net: nat -> Delivery) {
    forall c: nat {:trigger Confirms(order, w, net(c).draw)} :: Confirms(order, w, net(c).draw)
  }

  // Every payment id chance will draw is new.
  ghost predicate FreshDraws(net: nat -> Delivery, pay: P.Tables) {
    forall n: nat :: net(n).draw.payment !in pay.payments
  }

  /** A fresh order of different products, each in stock to the quantity ordered, is such an
      order. */
  lemma InStockIsSure(order: Order, w: World, net: nat -> Delivery)
    requires Fresh(order, w) && DistinctProducts(order.items) && order.total >= 0 && FreshDraws(net, w.pay)
    requires forall item <- order.items :: I.InStock(w.inv, item.product, item.quantity)
    ensures Sure(order, w, net)
  {
    forall c: nat ensures Confirms(order, w, net(c).draw) {
      assert net(c).draw.payment !in w.pay.payments;
      ConfirmedIffInStock(order, w, net(c).draw);
    }
  }

  ghost predicate PaymentKnown(order: Order, w: World) {
    order.id in w.pay.byOrder ==> w.pay.byOrder[order.id] in w.pay.payments
  }

  // Neither the new row nor the status a step prepares changes that.
  lemma BeganSure(order: Order, w: World, net: nat -> Delivery)
    requires w.saga.None?
    ensures Sure(order, w, net) ==> Sure(order, w.(saga := Some(NEW_SAGA)), net)
  {
    forall c: nat | Confirms(order, w, net(c).draw)
      ensures Confirms(order, w.(saga := Some(NEW_SAGA)), net(c).draw)
    {
    }
  }

  lemma PreparedSure(order: Order, w: World, sg: Saga, net: nat -> Delivery)
    requires w.saga == Some(sg) && NextStep(sg.status).Some?
    ensures Sure(order, w, net) ==> Sure(order, w.(saga := Some(Prepared(sg))), net)
  {
    var w' := w.(saga := Some(Prepared(sg)));
    forall c: nat | Confirms(order, w, net(c).draw) ensures Confirms(order, w', net(c).draw) {
      PreparedFinish(order, w, sg, net(c).draw);
    }
  }

  lemma PreparedFinish(order: Order, w: World, sg: Saga, draw: P.Draw)
    requires w.saga == Some(sg) && NextStep(sg.status).Some?
    ensures Finish(order, w.(saga := Some(Prepared(sg))), draw) == Finish(order, w, draw)
  {
    assert Prepared(Prepared(sg)) == Prepared(sg);
    var w' := w.(saga := Some(Prepared(sg)));
    assert w'.(saga := Some(Prepared(sg))) == w';
    StepMakesProgress(order, w, sg, draw);
  }

  // One turn of the undisturbed run.
  lemma TurnFinishes(order: Order, w: World, sg: Saga, draw: P.Draw)
    requires w.saga == Some(sg) && NextStep(sg.status).Some?
    ensures var ready := Prepared(sg);
            var e := Execute(order, w.(saga := Some(ready)), ready, draw);
            Finish(order, w, draw) == if e.saga.None? then Abandon(order, e.world, ready)
                                      else Finish(order, e.world.(saga := e.saga), draw)
  {
    StepMakesProgress(order, w.(saga := Some(Prepared(sg))), sg, draw);
  }

  // A start is only given up if its first attempt went unanswered.
  lemma StartLost(order: Order, w: World, mem: Saga, net: nat -> Delivery, c: nat, n: nat)
    requires Concluded(order, w, mem, net, c, n, None) && mem.status == Pending
    ensures net(c).outcome != Delivered
  {
    InVainAt(order, w, mem, net, c, n, 0);
  }

  lemma RestsConfirmed(order: Order, w: World, net: nat -> Delivery)
    requires w.saga.Some? && NextStep(w.saga.value.status).None?
    ensures forall d :: Finish(order, w, d) == w
    ensures Sure(order, w, net) ==> w.saga.value.status == Confirmed
  {
    assert Sure(order, w, net) ==> Confirms(order, w, net(0).draw);
  }

  // Attempts at the next step of such an order, recorded or not, leave it such an order.
  lemma AttemptKeepsSure(order: Order, w: World, sg: Saga, net: nat -> Delivery, c: nat)
    requires Sure(order, w, net) && PaymentKnown(order, w)
    requires w.saga == Some(sg) && NextStep(sg.status).Some? && Prepared(sg) == sg
    ensures var e := Execute(order, w, sg, net(c).draw);
            && e.saga.Some?
            && PaymentKnown(order, e.world)
            && e.world.saga == Some(sg) && Sure(order, e.world, net)
            && Sure(order, e.world.(saga := e.saga), net)
  {
    var e := Execute(order, w, sg, net(c).draw);
    assert w == w.(saga := Some(sg));
    assert Confirms(order, w, net(c).draw);
    var next := e.world.(saga := e.saga);
    forall b: nat ensures Confirms(order, e.world, net(b).draw) && Confirms(order, next, net(b).draw) {
      assert Confirms(order, w, net(b).draw);
      StepMakesProgress(order, w, sg, net(b).draw);
      if NextStep(sg.status) == Some(PaymentStep) {
        PaidConfirms(order, next, net(b).draw);
        ChargedConfirms(order, e.world, net(b).draw);
      } else {
        assert Execute(order, w, sg, net(b).draw) == e;
        assert Finish(order, w, net(b).draw) == Finish(order, next, net(b).draw);
        assert Execute(order, e.world, sg, net(b).draw) == e;
        assert e.world == e.world.(saga := Some(sg));
        assert Finish(order, e.world, net(b).draw) == Finish(order, next, net(b).draw);
      }
    }
  }

  /** Over a persistent network such an order is granted its next step within three attempts. */
  lemma SureRetries(order: Order, w: World, sg: Saga, net: nat -> Delivery, c: nat, n: nat, next: Option<Saga>)
    requires Sure(order, w, net) && PaymentKnown(order, w)
    requires w.saga == Some(sg) && NextStep(sg.status).Some? && Prepared(sg) == sg
    requires Concluded(order, w, sg, net, c, n, next)
    ensures Persistent(net) ==> next.Some?
    ensures next.Some? ==> Sure(order, Tried(order, w, sg, net, c, n).(saga := next), net)
  {
    if next.Some? {
      SureAnswer(order, w, sg, net, c, n - 1);
    } else if n == 3 {
      SureInVain(order, w, sg, net, c, 3, 0);
      SureInVain(order, w, sg, net, c, 3, 1);
      SureInVain(order, w, sg, net, c, 3, 2);
      assert ThreeLost(net, c);
    }
  }

  lemma SureInVain(order: Order, w: World, sg: Saga, net: nat -> Delivery, c: nat, n: nat, j: nat)
    requires Sure(order, w, net) && PaymentKnown(order, w)
    requires w.saga == Some(sg) && NextStep(sg.status).Some? && Prepared(sg) == sg
    requires InVain(order, w, sg, net, c, n) && j < n
    ensures net(c + j).outcome != Delivered
  {
    SureAnswer(order, w, sg, net, c, j);
    InVainAt(order, w, sg, net, c, n, j);
  }

  lemma {:induction false} InVainAt(order: Order, w: World, mem: Saga, net: nat -> Delivery, c: nat, n: nat, j: nat)
    requires InVain(order, w, mem, net, c, n) && j < n
    ensures Answer(order, w, mem, net, c, j).None? && (j > 0 ==> !net(c + j).expired)
    decreases n
  {
    if j < n - 1 {
      InVainAt(order, w, mem, net, c, n - 1, j);
    }
  }

  // Whoever is answered is answered with a success.
  lemma SureAnswer(order: Order, w: World, sg: Saga, net: nat -> Delivery, c: nat, n: nat)
    requires Sure(order, w, net) && PaymentKnown(order, w)
    requires w.saga == Some(sg) && NextStep(sg.status).Some? && Prepared(sg) == sg
    ensures net(c + n).outcome == Delivered ==>
      var next := Answer(order, w, sg, net, c, n);
      next.Some? && Sure(order, Tried(order, w, sg, net, c, n + 1).(saga := next), net)
  {
    SureTried(order, w, sg, net, c, n);
    AttemptKeepsSure(order, Tried(order, w, sg, net, c, n), sg, net, c + n);
  }

  lemma {:induction false} SureTried(order: Order, w: World, sg: Saga, net: nat -> Delivery, c: nat, n: nat)
    requires Sure(order, w, net) && PaymentKnown(order, w)
    requires w.saga == Some(sg) && NextStep(sg.status).Some? && Prepared(sg) == sg
    ensures var w' := Tried(order, w, sg, net, c, n);
            Sure(order, w', net) && PaymentKnown(order, w') && w'.saga == Some(sg)
    decreases n
  {
    if n > 0 {
      SureTried(order, w, sg, net, c, n - 1);
      AttemptKeepsSure(order, Tried(order, w, sg, net, c, n - 1), sg, net, c + n - 1);
    }
  }

  lemma PaidConfirms(order: Order, w: World, draw: P.Draw)
    requires w.saga.Some? && w.saga.value.status == Paid
    ensures Confirms(order, w, draw)
  {
    var end := w.(status := OrderPaid, saga := Some(w.saga.value.(status := Confirmed)));
    assert Finish(order, w, draw) == Finish(order, end, draw) == end;
  }

  lemma ChargedConfirms(order: Order, w: World, draw: P.Draw)
    requires w.saga.Some? && w.saga.value.status == Paying
    requires order.total >= 0 && order.id in w.pay.byOrder && PaymentKnown(order, w)
    ensures Confirms(order, w, draw)
  {
    P.ChargeAnswers(w.pay, order.id, order.total, draw);
    var e := Execute(order, w, w.saga.value, draw);
    assert w == w.(saga := Some(w.saga.value));
    assert Finish(order, w, draw) == Finish(order, e.world.(saga := e.saga), draw);
    PaidConfirms(order, e.world.(saga := e.saga), draw);
  }

  /* ---------- Releases ---------- */

  // The tables after the releases of the first n items were sent, the first at time c.
  function Sent(order: Order, inv: I.Tables, items: seq<ReservedItem>, net: nat -> Delivery, c: nat, n: nat): I.Tables
    requires n <= |items|
  {
    if n == 0 then inv else
      var before := Sent(order, inv, items, net, c, n - 1);
      if net(c + n - 1).outcome == Dropped then before else ReleaseItem(order, before, items[n - 1]).db
  }

  // Which of them are acknowledged.
  function Arrived(net: nat -> Delivery, c: nat, n: nat): set<nat> {
    if n == 0 then {} else
      Arrived(net, c, n - 1) + if net(c + n - 1).outcome == Delivered then {n - 1} else {}
  }

  lemma {:induction false} ArrivedAt(net: nat -> Delivery, c: nat, n: nat, i: nat)
    ensures i in Arrived(net, c, n) <==> i < n && net(c + i).outcome == Delivered
    decreases n
  {
    if n > 0 {
      ArrivedAt(net, c, n - 1, i);
    }
  }

  // The process has learnt of more releases.
  function WithLanded(r: Runner, more: set<nat>): Runner
    requires MayRelease(r)
  {
    if r.Undoing? then Undoing(r.mem, r.plan, r.landed + more) else CancelReleasing(r.mem, r.landed + more)
  }

  lemma {:induction false} CalmSent(order: Order, inv: I.Tables, items: seq<ReservedItem>, net: nat -> Delivery,
                                    c: nat, n: nat, draw: P.Draw)
    requires n <= |items| && Calm(net, draw)
    ensures Sent(order, inv, items, net, c, n) == ReleaseAll(order, inv, items[..n])
    decreases n
  {
    if n > 0 {
      CalmSent(order, inv, items, net, c, n - 1, draw);
      assert items[..n] == items[..n - 1] + [items[n - 1]];
      ReleaseOneMore(order, inv, items[..n - 1], items[n - 1]);
      assert net(c + n - 1).outcome == Delivered;
    }
  }

  lemma {:induction false} ReleaseOneMore(order: Order, inv: I.Tables, items: seq<ReservedItem>, item: ReservedItem)
    ensures ReleaseAll(order, inv, items + [item]) == ReleaseItem(order, ReleaseAll(order, inv, items), item).db
    decreases |items|
  {
    if items == [] {
      assert items + [item] == [item] && [item][1..] == [];
      assert ReleaseAll(order, ReleaseItem(order, inv, item).db, []) == ReleaseItem(order, inv, item).db;
    } else {
      assert (items + [item])[1..] == items[1..] + [item];
      ReleaseOneMore(order, ReleaseItem(order, inv, items[0]).db, items[1..], item);
    }
  }

  /* ---------- Refunds ---------- */

  predicate MayRefund(r: Runner) {
    r.CancelRefunding? || (r.Undoing? && r.plan != [] && r.plan[0] == PaymentStep)
  }

  // Whether a refund with the saga's key is granted, and that a refused one changes nothing.
  lemma RefundGranted(pay: P.Tables, rid: RefundId, pid: PaymentId, base: string)
    ensures var r := RefundCharge(pay, rid, pid, base);
            && (r.reply.Err? ==> r.db == pay)
            && (rid !in pay.refunds ==> (!r.reply.Err? <==> P.Refundable(pay, pid, base)))
  {
  }

  // Over a calm network: nothing has been refunded yet, and if there were requests before, the
  // payment cannot be refunded.
  ghost predicate CalmSoFar(net: nat -> Delivery, pay0: P.Tables, pay: P.Tables, pid: PaymentId, base: string, i: nat) {
    CalmAndFresh(net, pay0) ==> pay == pay0 && (i > 0 ==> !P.Refundable(pay0, pid, base))
  }

  // Over a calm network the first request decides, and it is granted exactly when the payment
  // can be refunded.
  ghost predicate CalmResult(net: nat -> Delivery, pay0: P.Tables, pay: P.Tables, pid: PaymentId, base: string, c: nat,
                             ok: bool) {
    CalmAndFresh(net, pay0) ==>
      && (ok <==> P.Refundable(pay0, pid, base))
      && pay == if ok then RefundCharge(pay0, net(c).refund, pid, base).db else pay0
  }

  lemma CalmRefund(net: nat -> Delivery, pay0: P.Tables, pay: P.Tables, pid: PaymentId, base: string, c: nat, i: nat)
    requires CalmSoFar(net, pay0, pay, pid, base, i)
    ensures var d := net(c + i);
            var r := RefundCharge(pay, d.refund, pid, base);
            var pay' := if d.outcome == Dropped then pay else r.db;
            if d.outcome == Delivered && !r.reply.Err? then CalmResult(net, pay0, pay', pid, base, c, true)
            else CalmSoFar(net, pay0, pay', pid, base, i + 1)
  {
    if CalmAndFresh(net, pay0) {
      assert net(c + i).outcome == Delivered && net(c + i).refund !in pay0.refunds;
      RefundGranted(pay0, net(c + i).refund, pid, base);
    }
  }

  /* ---------- What a log says was asked for ---------- */

  // A step was given up between the two logs.
  ghost predicate GaveUp(log: seq<Label>, log': seq<Label>) {
    exists i :: |log| <= i < |log'| && log'[i].GiveUp?
  }

  // No step was given up between the two logs; everything was driven forward.
  ghost predicate OnlyForward(log: seq<Label>, log': seq<Label>) {
    log <= log' && forall i :: |log| <= i < |log'| ==> Forward(log'[i])
  }

  // How often the release of item i was sent.
  function Releases(labels: seq<Label>, i: nat): nat {
    if labels == [] then 0 else
      var last := labels[|labels| - 1];
      Releases(labels[..|labels| - 1], i) + if last.Release? && last.index == i then 1 else 0
  }

  // How often the refund was sent.
  function Refunds(labels: seq<Label>): nat {
    if labels == [] then 0 else
      Refunds(labels[..|labels| - 1]) + if labels[|labels| - 1].Refund? then 1 else 0
  }

  lemma {:induction false} ReleasesAppend(a: seq<Label>, b: seq<Label>, i: nat)
    ensures Releases(a + b, i) == Releases(a, i) + Releases(b, i)
    decreases |b|
  {
    if b == [] {
      assert a + b == a;
    } else {
      assert (a + b)[..|a + b| - 1] == a + b[..|b| - 1];
      ReleasesAppend(a, b[..|b| - 1], i);
    }
  }

  lemma ReleasesOneMore(labels: seq<Label>, l: Label, i: nat)
    ensures Releases(labels + [l], i) == Releases(labels, i) + if l.Release? && l.index == i then 1 else 0
  {
    assert (labels + [l])[..|labels|] == labels;
  }

  lemma RefundsOneMore(labels: seq<Label>, l: Label)
    ensures Refunds(labels + [l]) == Refunds(labels) + if l.Refund? then 1 else 0
  {
    assert (labels + [l])[..|labels|] == labels;
  }

  lemma RefundsLogged(log0: seq<Label>, log: seq<Label>, log': seq<Label>, l: Label)
    requires log0 <= log && log' == log + [l] && l.Refund?
    ensures log0 <= log' && Refunds(log'[|log0|..]) == Refunds(log[|log0|..]) + 1
  {
    assert log'[|log0|..] == log[|log0|..] + [l];
    RefundsOneMore(log[|log0|..], l);
  }

  lemma {:induction false} RefundsAppend(a: seq<Label>, b: seq<Label>)
    ensures Refunds(a + b) == Refunds(a) + Refunds(b)
    decreases |b|
  {
    if b == [] {
      assert a + b == a;
    } else {
      assert (a + b)[..|a + b| - 1] == a + b[..|b| - 1];
      RefundsAppend(a, b[..|b| - 1]);
    }
  }

  // One round of releases: every item once, in order, each as the network takes it.
  function ReleaseRound(net: nat -> Delivery, c: nat, n: nat): seq<Label> {
    if n == 0 then [] else ReleaseRound(net, c, n - 1) + [Release(n - 1, net(c + n - 1).outcome)]
  }

  lemma {:induction false} RoundAt(net: nat -> Delivery, c: nat, n: nat, i: nat)
    requires i < n
    ensures |ReleaseRound(net, c, n)| == n && ReleaseRound(net, c, n)[i] == Release(i, net(c + i).outcome)
    decreases n
  {
    if n > 1 {
      RoundAt(net, c, n - 1, if i < n - 1 then i else 0);
    }
  }

  lemma {:induction false} RoundSendsEachOnce(net: nat -> Delivery, c: nat, n: nat, i: nat)
    ensures Releases(ReleaseRound(net, c, n), i) == if i < n then 1 else 0
    decreases n
  {
    if n > 0 {
      RoundSendsEachOnce(net, c, n - 1, i);
      ReleasesOneMore(ReleaseRound(net, c, n - 1), Release(n - 1, net(c + n - 1).outcome), i);
    }
  }

  /* ---------- How hard the undoing was tried ---------- */

  // Each item is given back, or its release was sent three times, or a context expired.
  ghost predicate Pressed(order: Order, inv: I.Tables, reserved: seq<ReservedItem>, labels: seq<Label>,
                          net: nat -> Delivery, from: nat, to: nat) {
    forall i :: 0 <= i < |reserved| ==>
      Gone(order, inv, reserved[i]) || Releases(labels, i) >= 3 || Expired(net, from, to)
  }

  // The payment is refunded, or its refund was sent three times, or a context expired.
  ghost predicate PressedRefund(pay: P.Tables, payment: Option<PaymentId>, labels: seq<Label>,
                                net: nat -> Delivery, from: nat, to: nat) {
    PaidBack(pay, payment) || Refunds(labels) >= 3 || Expired(net, from, to)
  }

  // Why a cancellation stops: nothing but these.
  ghost predicate CancelStopped(labels: seq<Label>, n: nat, net: nat -> Delivery, from: nat, to: nat) {
    || Refunds(labels) >= 3
    || (n > 0 && forall i :: 0 <= i < n ==> Releases(labels, i) >= 3)
    || Expired(net, from, to)
    || exists l <- labels :: l.MarkCancelled? && l.outcome != Delivered
  }

  // What was tried hard within a stretch of the log was tried hard within a longer one.
  lemma PressedMore(order: Order, inv: I.Tables, reserved: seq<ReservedItem>, a: seq<Label>, b: seq<Label>,
                    c: seq<Label>, net: nat -> Delivery, from: nat, from': nat, to': nat, to: nat)
    requires Pressed(order, inv, reserved, b, net, from', to') && from <= from' && to' <= to
    ensures Pressed(order, inv, reserved, a + b + c, net, from, to)
  {
    forall i: nat | i < |reserved| ensures Releases(a + b + c, i) >= Releases(b, i) {
      ReleasesAppend(a + b, c, i);
      ReleasesAppend(a, b, i);
    }
    ExpiredMore(net, from, from', to', to);
  }

  lemma PressedRefundMore(pay: P.Tables, payment: Option<PaymentId>, a: seq<Label>, b: seq<Label>, c: seq<Label>,
                          net: nat -> Delivery, from: nat, from': nat, to': nat, to: nat)
    requires PressedRefund(pay, payment, b, net, from', to') && from <= from' && to' <= to
    ensures PressedRefund(pay, payment, a + b + c, net, from, to)
  {
    RefundsAppend(a + b, c);
    RefundsAppend(a, b);
    ExpiredMore(net, from, from', to', to);
  }

  lemma ExpiredMore(net: nat -> Delivery, from: nat, from': nat, to': nat, to: nat)
    requires from <= from' && to' <= to
    ensures Expired(net, from', to') ==> Expired(net, from, to)
  {
  }

  lemma CancelStoppedMore(a: seq<Label>, b: seq<Label>, c: seq<Label>, n: nat, net: nat -> Delivery,
                          from: nat, from': nat, to': nat, to: nat)
    requires CancelStopped(b, n, net, from', to') && from <= from' && to' <= to
    ensures CancelStopped(a + b + c, n, net, from, to)
  {
    RefundsAppend(a + b, c);
    RefundsAppend(a, b);
    forall i: nat | i < n ensures Releases(a + b + c, i) >= Releases(b, i) {
      ReleasesAppend(a + b, c, i);
      ReleasesAppend(a, b, i);
    }
    ExpiredMore(net, from, from', to', to);
  }
}
