/**
The orchestrator as it runs: the ProcessOrder loop, its retries, the compensation after a
failed step, and CancelOrder, over a network that answers every interaction as it likes.

The ghost `log` holds the labels of the machine in `Saga`; that the machine, run on that log,
is in the world the code has produced is the class invariant.  Everything proved of all runs
of the machine therefore holds of this code.  A crash needs no statement of its own here: it
cuts the log short, and every prefix of a log followed by `Crash` is a run too.
*/
module Orchestrator {
  import opened Common
  import opened Saga
  import opened SagaInvariant
  import opened SagaClaims
  import opened SagaResume
  import opened Retries
  import I = Inventory
  import P = Payments

  // What a failed confirmation amounts to when nothing is lost: refund, release, cancel.
  function AbandonPaid(order: Order, w: World, mem: Saga, rid: RefundId, pid: PaymentId, base: string): World {
    World(Some(mem.(status := Cancelled)), OrderCancelled,
          ReleaseAll(order, w.inv, mem.reserved), RefundCharge(w.pay, rid, pid, base).db)
  }

  // What a cancellation amounts to when nothing is lost.
  function CancelledWorld(order: Order, w: World, sg: Saga, rid: RefundId, base: string): World {
    World(Some(sg.(status := Cancelled)), OrderCancelled,
          ReleaseAll(order, w.inv, sg.reserved),
          if sg.payment.Some? then RefundCharge(w.pay, rid, sg.payment.value, base).db else w.pay)
  }

  // `Fresh`, and the state after the labels of a log, each in a form that stays folded until a
  // proof asks for it.
  ghost predicate StartedFresh(order: Order, w: World) {
    forall o {:trigger Fresh(o, w)} :: o == order ==> Fresh(o, w)
  }

  ghost predicate Ran(order: Order, w: World, log: seq<Label>, s: State) {
    forall labels {:trigger Run(order, Initial(w), labels)} :: labels == log ==> s == Run(order, Initial(w), labels)
  }

  // The new value, unless it was lost.
  function Unless<T>(lost: bool, value: T, previous: T): T {
    if lost then previous else value
  }

  // Neither the start nor the confirmation is ever refused.
  lemma RefusedSteps(order: Order, w: World, mem: Saga, draw: P.Draw)
    requires Execute(order, w, mem, draw).saga.None? && NextStep(mem.status).Some?
    ensures mem.status == Reserving || mem.status == Reserved || mem.status == Paying
  {
  }

  class Orchestrator {
    const order: Order
    const net: nat -> Delivery
    ghost const origin: World

    var sagaRow: Option<Saga>
    var status: OrderStatus
    var inv: I.Tables
    var pay: P.Tables

    var clock: nat             // interactions so far
    ghost var log: seq<Label>
    ghost var machine: State   // the machine after the labels of the log
    ghost var executions: nat  // steps executed
    ghost var attempts: nat    // Execute calls made

    constructor (order: Order, w: World, net: nat -> Delivery)
      requires Fresh(order, w)
      ensures Valid() && this.order == order && this.net == net && origin == w
      ensures Now() == Initial(w)
    {
      this.order, this.net, origin := order, net, w;
      sagaRow, status, inv, pay := w.saga, w.status, w.inv, w.pay;
      clock, log, machine, executions, attempts := 0, [], Initial(w), 0, 0;
    }

    function TheWorld(): World
      reads this
    {
      World(sagaRow, status, inv, pay)
    }

    ghost function Now(): State
      reads this
    {
      machine
    }

    ghost predicate Valid()
      reads this
    {
      StartedFresh(order, origin) && Ran(order, origin, log, machine) && Now().world == TheWorld()
    }

    lemma ValidMeansInv()
      requires Valid()
      ensures Inv(order, Now()) && Services(TheWorld())
    {
      assert Fresh(order, origin) && machine == Run(order, Initial(origin), log);
      FreshIsInv(order, origin);
      RunKeepsInv(order, Initial(origin), log);
    }

    lemma ReadyMeans(mem: Saga)
      requires Valid() && Now().runner == Ready(mem)
      ensures sagaRow == Some(mem) && NextStep(mem.status).Some? && Prepared(mem) == mem
      ensures PaymentKnown(order, TheWorld())
    {
      ValidMeansInv();
    }

    /** The class invariant in full: the labels logged so far are a run of the machine from a
        fresh order, and it has led to the world the code has produced. */
    lemma ItIsARun()
      requires Valid()
      ensures Fresh(order, origin) && Run(order, Initial(origin), log) == Now() && Now().world == TheWorld()
    {
    }

    ghost method Record(l: Label)
      requires Ran(order, origin, log, machine)
      modifies `log, `machine
      ensures Ran(order, origin, log, machine) && log == old(log) + [l]
      ensures Now() == Step(order, old(Now()), l)
    {
      RunAppend(order, Initial(origin), log, [l]);
      OneStep(order, machine, l);
      log, machine := log + [l], Step(order, machine, l);
    }

    method Next() returns (d: Delivery)
      modifies `clock
      ensures d == net(old(clock)) && clock == old(clock) + 1
    {
      d := net(clock);
      clock := clock + 1;
    }

    method SetWorld(w: World)
      modifies `sagaRow, `status, `inv, `pay
      ensures TheWorld() == w
    {
      sagaRow, status, inv, pay := w.saga, w.status, w.inv, w.pay;
    }

    // Saves the row; true if the caller learns that it was saved.
    method Save(mem: Saga) returns (stored: bool, ok: bool)
      modifies `sagaRow, `clock
      ensures ok == (net(old(clock)).outcome == Delivered)
      ensures stored == (net(old(clock)).outcome != Dropped)
      ensures sagaRow == if stored then Some(mem) else old(sagaRow)
      ensures ok ==> stored
      ensures clock == old(clock) + 1
    {
      var d := Next();
      stored, ok := d.outcome != Dropped, d.outcome == Delivered;
      if stored {
        sagaRow := Some(mem);
      }
    }

    // One Execute call, as the network lets it happen.
    method AttemptOnce(mem: Saga, d: Delivery) returns (next: Option<Saga>)
      requires Valid() && Now().runner == Ready(mem)
      modifies `sagaRow, `status, `inv, `pay, `attempts, `log, `machine
      ensures Valid() && attempts == old(attempts) + 1
      ensures log == old(log) + [Attempt(d.outcome, d.draw)]
      ensures Now().runner == if next.Some? then Executed(next.value) else Ready(mem)
      ensures var e := Execute(order, old(TheWorld()), mem, d.draw);
              && next == (if d.outcome == Delivered then e.saga else None)
              && TheWorld() == (if d.outcome == Dropped then old(TheWorld()) else e.world)
    {
      attempts := attempts + 1;
      var e := Execute(order, TheWorld(), mem, d.draw);
      if d.outcome != Dropped {
        SetWorld(e.world);
      }
      Record(Attempt(d.outcome, d.draw));
      next := if d.outcome == Delivered then e.saga else None;
    }

    // The attempt after i others, the first of which was at time c in world w.
    method AttemptAfter(mem: Saga, ghost w: World, ghost c: nat, ghost i: nat, d: Delivery) returns (next: Option<Saga>)
      requires Valid() && Now().runner == Ready(mem)
      requires d == net(c + i) && TheWorld() == Tried(order, w, mem, net, c, i)
      modifies `sagaRow, `status, `inv, `pay, `attempts, `log, `machine
      ensures Valid() && attempts == old(attempts) + 1
      ensures log == old(log) + [Attempt(d.outcome, d.draw)]
      ensures Now().runner == if next.Some? then Executed(next.value) else Ready(mem)
      ensures next == Answer(order, w, mem, net, c, i)
      ensures TheWorld() == Tried(order, w, mem, net, c, i + 1)
    {
      next := AttemptOnce(mem, d);
    }

    // The retry loop: up to three attempts at the step, each of which may or may not land.
    method Retry(mem: Saga) returns (next: Option<Saga>)
      requires Valid() && Now().runner == Ready(mem)
      modifies `sagaRow, `status, `inv, `pay, `clock, `attempts, `log, `machine
      ensures Valid() && OnlyForward(old(log), log)
      ensures Now().runner == if next.Some? then Executed(next.value) else Ready(mem)
      ensures old(attempts) < attempts <= old(attempts) + 3
      ensures var n := attempts - old(attempts);
              && clock == old(clock) + n + (if next.None? && n < 3 then 1 else 0)
              && TheWorld() == Tried(order, old(TheWorld()), mem, net, old(clock), n)
              && Concluded(order, old(TheWorld()), mem, net, old(clock), n, next)
    {
      ghost var w, c := TheWorld(), clock;
      for i := 0 to MAX_RETRIES
        invariant Valid() && OnlyForward(old(log), log) && Now().runner == Ready(mem)
        invariant attempts == old(attempts) + i && clock == c + i
        invariant TheWorld() == Tried(order, w, mem, net, c, i) && InVain(order, w, mem, net, c, i)
      {
        var d := Next();
        if i > 0 && d.expired {
          return None;
        }
        next := AttemptAfter(mem, w, c, i, d);
        if next.Some? {
          return;
        }
      }
      return None;
    }

    /** Three attempts at the step.  It succeeds with the first that is delivered and granted,
        and gives up only after the third or when the context expires before another.  Over a
        network that lets one of three interactions through, an order that an undisturbed run
        confirms is never given up. */
    method ExecuteWithRetry(mem: Saga) returns (mem': Saga, ok: bool)
      requires Valid() && Now().runner == Ready(mem) && NextStep(mem.status).Some?
      modifies this
      ensures Valid() && OnlyForward(old(log), log)
      ensures ok ==> Now().runner == Executed(mem') && StepsLeft(order, mem') == StepsLeft(order, mem) - 1
      ensures !ok ==> Now().runner == Ready(mem)
      ensures executions == old(executions) + 1
      ensures old(attempts) < attempts <= old(attempts) + 3
      ensures !ok ==> attempts == old(attempts) + 3 || net(old(clock) + 1).expired || net(old(clock) + 2).expired
      ensures var n := attempts - old(attempts);
              && clock == old(clock) + n + (if !ok && n < 3 then 1 else 0)
              && TheWorld() == Tried(order, old(TheWorld()), mem, net, old(clock), n)
              && Concluded(order, old(TheWorld()), mem, net, old(clock), n, if ok then Some(mem') else None)
      ensures Sure(order, old(TheWorld()), net) && Persistent(net) ==> ok
      ensures Sure(order, old(TheWorld()), net) && ok ==> Sure(order, TheWorld().(saga := Some(mem')), net)
      ensures forall draw :: Calm(net, draw) ==>
        && Execute(order, old(TheWorld()), mem, draw) == Exec(TheWorld(), if ok then Some(mem') else None)
        && (!ok ==> TheWorld() == old(TheWorld()))
    {
      executions := executions + 1;
      ghost var w, c, tries := TheWorld(), clock, attempts;
      ReadyMeans(mem);
      var next := Retry(mem);
      ghost var n := attempts - tries;
      if Sure(order, w, net) {
        SureRetries(order, w, mem, net, c, n, next);
      }
      forall draw | Calm(net, draw)
        ensures Execute(order, w, mem, draw) == Exec(TheWorld(), next) && (next.None? ==> TheWorld() == w)
      {
        CalmRetries(order, w, mem, net, c, n, next, draw);
      }
      if next.None? {
        return mem, false;
      }
      AnswerIsProgress(order, w, mem, net, c, n - 1);
      return next.value, true;
    }

    /* ---------- Compensation ---------- */

    // One Release call, for the i-th recorded item.  It is granted whenever it arrives.
    method ReleaseOne(mem: Saga, i: nat) returns (ok: bool)
      requires Valid() && MayRelease(Now().runner) && Now().runner.mem == mem && i < |mem.reserved|
      modifies `inv, `clock, `log, `machine
      ensures Valid() && log == old(log) + [Release(i, net(old(clock)).outcome)]
      ensures clock == old(clock) + 1 && (ok <==> net(old(clock)).outcome == Delivered)
      ensures Now().runner == WithLanded(old(Now()).runner, if ok then {i} else {})
      ensures inv == if net(old(clock)).outcome == Dropped then old(inv)
                     else ReleaseItem(order, old(inv), mem.reserved[i]).db
    {
      var d := Next();
      var r := ReleaseItem(order, inv, mem.reserved[i]);
      assert r.reply.Ok? by {
        ValidMeansInv();
        ReleaseAlwaysWorks(order, TheWorld(), mem, i);
      }
      if d.outcome != Dropped {
        inv := r.db;
      }
      Record(Release(i, d.outcome));
      ok := d.outcome == Delivered && r.reply.Ok?;
    }

    // The releases of the first i items have been sent, the first at time c.
    ghost predicate SentSoFar(mem: Saga, was: Runner, log0: seq<Label>, inv0: I.Tables, c: nat, i: nat)
      requires i <= |mem.reserved| && MayRelease(was)
      reads this
    {
      && Valid() && clock == c + i
      && log == log0 + ReleaseRound(net, c, i)
      && Now().runner == WithLanded(was, Arrived(net, c, i))
      && inv == Sent(order, inv0, mem.reserved, net, c, i)
    }

    method ReleaseNext(mem: Saga, i: nat, ghost was: Runner, ghost log0: seq<Label>, ghost inv0: I.Tables, ghost c: nat)
      returns (ok: bool)
      requires MayRelease(was) && was.mem == mem && i < |mem.reserved| && SentSoFar(mem, was, log0, inv0, c, i)
      modifies `inv, `clock, `log, `machine
      ensures SentSoFar(mem, was, log0, inv0, c, i + 1) && (ok <==> net(c + i).outcome == Delivered)
    {
      ok := ReleaseOne(mem, i);
      assert log == log0 + (ReleaseRound(net, c, i) + [Release(i, net(c + i).outcome)]);
      assert Now().runner.landed == was.landed + Arrived(net, c, i + 1);
    }

    // The loop over the items.
    method SendReleases(mem: Saga, ghost was: Runner) returns (ok: bool)
      requires Valid() && MayRelease(was) && was.mem == mem && Now().runner == was
      modifies `inv, `clock, `log, `machine
      ensures SentSoFar(mem, was, old(log), old(inv), old(clock), |mem.reserved|)
      ensures ok <==> !Disturbed(net, old(clock), clock)
    {
      ok := true;
      ghost var log0, inv0, c := log, inv, clock;
      NothingSent(mem, was);
      for i := 0 to |mem.reserved|
        invariant SentSoFar(mem, was, log0, inv0, c, i)
        invariant ok <==> !Disturbed(net, c, c + i)
      {
        DisturbedNext(net, c, c + i);
        var released := ReleaseNext(mem, i, was, log0, inv0, c);
        ok := ok && released;
      }
    }

    lemma NothingSent(mem: Saga, was: Runner)
      requires Valid() && MayRelease(was) && was.mem == mem && Now().runner == was
      ensures SentSoFar(mem, was, log, inv, clock, 0)
    {
      assert log == log + [] && was.landed == was.landed + {};
    }

    /** One round of releases, in the order the items were reserved.  Every item's release is
        sent, whatever became of the ones before; errors are collected. */
    method CompensateInventory(mem: Saga) returns (ok: bool)
      requires Valid() && MayRelease(Now().runner) && Now().runner.mem == mem
      modifies `inv, `clock, `log, `machine
      ensures Valid() && log == old(log) + ReleaseRound(net, old(clock), |mem.reserved|)
      ensures clock == old(clock) + |mem.reserved|
      ensures MayRelease(Now().runner)
      ensures Now().runner == WithLanded(old(Now()).runner, Arrived(net, old(clock), |mem.reserved|))
      ensures inv == Sent(order, old(inv), mem.reserved, net, old(clock), |mem.reserved|)
      ensures forall i :: 0 <= i < |mem.reserved| && net(old(clock) + i).outcome == Delivered ==>
        i in Now().runner.landed
      ensures ok <==> !Disturbed(net, old(clock), clock)
      ensures ok ==> forall i :: 0 <= i < |mem.reserved| ==> i in Now().runner.landed
      ensures (exists draw :: Calm(net, draw)) ==> ok && inv == ReleaseAll(order, old(inv), mem.reserved)
    {
      ghost var c, n := clock, |mem.reserved|;
      ok := SendReleases(mem, Now().runner);
      forall i | 0 <= i < n && net(c + i).outcome == Delivered ensures i in Now().runner.landed {
        ArrivedAt(net, c, n, i);
      }
      if exists draw :: Calm(net, draw) {
        ghost var draw :| Calm(net, draw);
        CalmSent(order, old(inv), mem.reserved, net, c, n, draw);
        assert mem.reserved[..n] == mem.reserved;
      }
    }

    // The round of releases after i others, since the given log and time.
    method ReleaseAgain(mem: Saga, ghost was: Runner, ghost log0: seq<Label>, ghost c: nat, ghost i: nat)
      returns (ok: bool)
      requires Valid() && Releasing(was, Now().runner) && was.mem == mem
      requires log0 <= log && forall j :: 0 <= j < |mem.reserved| ==> Releases(log[|log0|..], j) == i
      requires if i == 0 then clock == c else Reached(net, c, mem, Now().runner)
      modifies `inv, `clock, `log, `machine
      ensures Valid() && Releasing(was, Now().runner) && clock >= old(clock)
      ensures log0 <= log && forall j :: 0 <= j < |mem.reserved| ==> Releases(log[|log0|..], j) == i + 1
      ensures Reached(net, c, mem, Now().runner)
      ensures ok ==> forall i :: 0 <= i < |mem.reserved| ==> i in Now().runner.landed
      ensures !ok ==> mem.reserved != []
      ensures (exists draw :: Calm(net, draw)) ==> ok && inv == ReleaseAll(order, old(inv), mem.reserved)
    {
      ghost var before, c' := log, clock;
      ok := CompensateInventory(mem);
      RoundCounts(log0, before, c', |mem.reserved|);
    }

    // The same activity, with more releases known to have landed.
    static predicate Releasing(r: Runner, r': Runner) {
      && MayRelease(r) && MayRelease(r') && r'.mem == r.mem && r'.Undoing? == r.Undoing?
      && (r.Undoing? ==> r'.plan == r.plan) && r.landed <= r'.landed
    }

    // The releases acknowledged in the round that began at time c are known.
    static ghost predicate Reached(net: nat -> Delivery, c: nat, mem: Saga, r: Runner)
      requires MayRelease(r)
    {
      forall i :: 0 <= i < |mem.reserved| && net(c + i).outcome == Delivered ==> i in r.landed
    }

    /** Up to three rounds of releases, ending with the first in which every one is acknowledged. */
    method ReleaseRounds(mem: Saga) returns (ok: bool)
      requires Valid() && MayRelease(Now().runner) && Now().runner.mem == mem
      modifies `inv, `clock, `log, `machine
      ensures Valid() && old(log) <= log && clock >= old(clock)
      ensures Releasing(old(Now()).runner, Now().runner)
      ensures ok ==> forall i :: 0 <= i < |mem.reserved| ==> i in Now().runner.landed
      ensures !ok ==> mem.reserved != []
      ensures !ok ==> net(clock).expired || forall i :: 0 <= i < |mem.reserved| ==> Releases(log[|old(log)|..], i) == 3
      ensures Reached(net, old(clock), mem, Now().runner)
      ensures (exists draw :: Calm(net, draw)) ==> ok && inv == ReleaseAll(order, old(inv), mem.reserved)
    {
      ghost var was := Now().runner;
      for i := 0 to MAX_RETRIES
        invariant Valid() && old(log) <= log && clock >= old(clock) && Releasing(was, Now().runner)
        invariant forall j :: 0 <= j < |mem.reserved| ==> Releases(log[|old(log)|..], j) == i
        invariant if i == 0 then clock == old(clock)
                  else mem.reserved != [] && Reached(net, old(clock), mem, Now().runner)
        invariant (exists draw :: Calm(net, draw)) ==> i == 0 && inv == old(inv)
      {
        if i > 0 && net(clock).expired {
          return false;
        }
        ok := ReleaseAgain(mem, was, old(log), old(clock), i);
        if ok {
          return true;
        }
      }
      return false;
    }

    /** Whatever became of the rounds, each item is given back, or its release was sent three
        times, or a context expired. */
    method ReleasePressed(mem: Saga) returns (ok: bool)
      requires Valid() && MayRelease(Now().runner) && Now().runner.mem == mem
      modifies `inv, `clock, `log, `machine
      ensures Valid() && old(log) <= log && clock >= old(clock)
      ensures Releasing(old(Now()).runner, Now().runner)
      ensures ok ==> forall i :: 0 <= i < |mem.reserved| ==> i in Now().runner.landed
      ensures !ok ==> CancelStopped(log[|old(log)|..], |mem.reserved|, net, old(clock), clock)
      ensures forall i :: 0 <= i < |mem.reserved| && net(old(clock) + i).outcome == Delivered ==>
        Gone(order, inv, mem.reserved[i])
      ensures Pressed(order, inv, mem.reserved, log[|old(log)|..], net, old(clock), clock)
      ensures (exists draw :: Calm(net, draw)) ==> ok && inv == ReleaseAll(order, old(inv), mem.reserved)
    {
      ok := ReleaseRounds(mem);
      LandedIsGone(mem);
      assert net(clock).expired ==> Expired(net, old(clock), clock);
    }

    lemma LandedIsGone(mem: Saga)
      requires Valid() && MayRelease(Now().runner) && Now().runner.mem == mem
      ensures forall i :: 0 <= i < |mem.reserved| && i in Now().runner.landed ==> Gone(order, inv, mem.reserved[i])
    {
      ValidMeansInv();
    }

    // A round adds one release of every item to the log.
    lemma RoundCounts(start: seq<Label>, before: seq<Label>, c: nat, n: nat)
      requires start <= before && log == before + ReleaseRound(net, c, n)
      ensures start <= log
      ensures forall j :: 0 <= j < n ==> Releases(log[|start|..], j) == Releases(before[|start|..], j) + 1
    {
      assert log[|start|..] == before[|start|..] + ReleaseRound(net, c, n);
      forall j | 0 <= j < n ensures Releases(log[|start|..], j) == Releases(before[|start|..], j) + 1 {
        ReleasesAppend(before[|start|..], ReleaseRound(net, c, n), j);
        RoundSendsEachOnce(net, c, n, j);
      }
    }

    // One refund request.
    method RefundOnce(mem: Saga, base: string) returns (ok: bool)
      requires Valid() && MayRefund(Now().runner) && Now().runner.mem == mem && mem.payment.Some?
      modifies `pay, `clock, `log, `machine
      ensures Valid() && clock == old(clock) + 1
      ensures log == old(log) + [Refund(net(old(clock)).outcome, net(old(clock)).refund, base)]
      ensures var d := net(old(clock));
              var r := RefundCharge(old(pay), d.refund, mem.payment.value, base);
              && pay == (if d.outcome == Dropped then old(pay) else r.db)
              && (ok <==> d.outcome == Delivered && !r.reply.Err?)
      ensures Refunded(old(Now()).runner, Now().runner, ok)
    {
      var d := Next();
      var r := RefundCharge(pay, d.refund, mem.payment.value, base);
      if d.outcome != Dropped {
        pay := r.db;
      }
      Record(Refund(d.outcome, d.refund, base));
      ok := d.outcome == Delivered && !r.reply.Err?;
    }

    // A refund of the recorded payment that is granted is one.
    lemma RefundIsOne(mem: Saga, base: string, rid: RefundId)
      requires Valid() && MayRefund(Now().runner) && Now().runner.mem == mem && mem.payment.Some?
      ensures var r := RefundCharge(pay, rid, mem.payment.value, base);
              !r.reply.Err? ==> PaidBack(r.db, mem.payment)
    {
      ValidMeansInv();
      SagaRefundWorks(pay, rid, mem.payment.value, base);
    }

    // The request after i others, since the given log and time.
    method RefundAgain(mem: Saga, base: string, ghost pay0: P.Tables, ghost log0: seq<Label>, ghost c: nat,
                       ghost i: nat)
      returns (ok: bool)
      requires Valid() && MayRefund(Now().runner) && Now().runner.mem == mem && mem.payment.Some?
      requires clock == c + i && CalmSoFar(net, pay0, pay, mem.payment.value, base, i)
      requires log0 <= log && Refunds(log[|log0|..]) == i
      modifies `pay, `clock, `log, `machine
      ensures Valid() && clock == c + i + 1 && Refunded(old(Now()).runner, Now().runner, ok)
      ensures log0 <= log && Refunds(log[|log0|..]) == i + 1
      ensures ok ==> PaidBack(pay, mem.payment) && CalmResult(net, pay0, pay, mem.payment.value, base, c, true)
      ensures !ok ==> CalmSoFar(net, pay0, pay, mem.payment.value, base, i + 1)
    {
      RefundIsOne(mem, base, net(clock).refund);
      CalmRefund(net, pay0, pay, mem.payment.value, base, c, i);
      ok := RefundOnce(mem, base);
      RefundsLogged(log0, old(log), log, Refund(net(c + i).outcome, net(c + i).refund, base));
    }

    // A cancellation goes on to the releases when it learns of the refund; a compensation stays
    // where it is until its step is over.
    static predicate Refunded(r: Runner, r': Runner, ok: bool)
      requires MayRefund(r)
    {
      if r.Undoing? then r'.Undoing? && r'.mem == r.mem && r'.plan == r.plan
      else r' == if ok then CancelReleasing(r.mem, {}) else r
    }

    /** Up to three refund requests.  It ends with the first that is granted and answered, and
        gives up only after the third or when the context expires before another. */
    method RefundRounds(mem: Saga, base: string) returns (ok: bool)
      requires Valid() && MayRefund(Now().runner) && Now().runner.mem == mem && mem.payment.Some?
      modifies `pay, `clock, `log, `machine
      ensures Valid() && old(log) <= log && Refunded(old(Now()).runner, Now().runner, ok)
      ensures var n := Refunds(log[|old(log)|..]);
              && 1 <= n <= 3 && clock == old(clock) + n
              && (!ok ==> n == 3 || net(clock).expired)
      ensures ok ==> PaidBack(pay, mem.payment)
      ensures CalmResult(net, old(pay), pay, mem.payment.value, base, old(clock), ok)
    {
      ghost var c, was := clock, Now().runner;
      for i := 0 to MAX_RETRIES
        invariant Valid() && old(log) <= log && clock == c + i && Refunded(was, Now().runner, false)
        invariant Refunds(log[|old(log)|..]) == i
        invariant CalmSoFar(net, old(pay), pay, mem.payment.value, base, i)
      {
        if i > 0 && net(clock).expired {
          return false;
        }
        ok := RefundAgain(mem, base, old(pay), old(log), c, i);
        if ok {
          return true;
        }
      }
      return false;
    }

    method CompensateWithRetry(step: StepName, mem: Saga, base: string)
      requires Valid() && Now().runner.Undoing? && Now().runner.mem == mem
      requires Now().runner.plan != [] && Now().runner.plan[0] == step && (step == PaymentStep || step == InventoryStep)
      modifies `inv, `pay, `clock, `log, `machine
      ensures Valid() && old(log) <= log && clock >= old(clock)
      ensures Now().runner.Undoing? && Now().runner.mem == mem && Now().runner.plan == old(Now()).runner.plan
      ensures step == InventoryStep ==>
        pay == old(pay) && Pressed(order, inv, mem.reserved, log[|old(log)|..], net, old(clock), clock)
      ensures step == PaymentStep ==>
        inv == old(inv) && PressedRefund(pay, mem.payment, log[|old(log)|..], net, old(clock), clock)
      ensures step == InventoryStep && (exists draw :: Calm(net, draw)) ==>
        inv == ReleaseAll(order, old(inv), mem.reserved)
      ensures step == PaymentStep && CalmAndFresh(net, old(pay)) && mem.payment.Some? ==>
        pay == RefundCharge(old(pay), net(old(clock)).refund, mem.payment.value, base).db
    {
      if step == InventoryStep {
        var _ := ReleasePressed(mem);
      } else if mem.payment.Some? {
        RefundGranted(pay, net(clock).refund, mem.payment.value, base);
        var _ := RefundRounds(mem, base);
      }
    }

    // Cancels the order row and closes the saga; a failure of either is only logged.
    method CloseCancelled(undo: Saga)
      requires Valid() && Now().runner.Undoing? && Now().runner.mem == undo && Now().runner.plan == []
      modifies `status, `sagaRow, `clock, `log, `machine
      ensures Valid() && Now().runner.Idle? && clock == old(clock) + 2
      ensures log == old(log) + [MarkCancelled(net(old(clock)).outcome),
                                 SaveCancelled(net(old(clock) + 1).outcome != Dropped)]
      ensures status == Unless(net(old(clock)).outcome == Dropped, OrderCancelled, old(status))
      ensures sagaRow == Unless(net(old(clock) + 1).outcome == Dropped, Some(undo.(status := Cancelled)), old(sagaRow))
    {
      var d := Next();
      if d.outcome != Dropped {
        status := OrderCancelled;
      }
      Record(MarkCancelled(d.outcome));
      var stored, _ := Save(undo.(status := Cancelled));
      Record(SaveCancelled(stored));
    }

    // Each step of the plan in turn, whether or not the one before got through.
    method RunPlan(plan: seq<StepName>, undo: Saga, base: string)
      requires Valid() && Now().runner.Undoing? && Now().runner.mem == undo && Now().runner.plan == plan
      requires plan == [InventoryStep] || plan == [PaymentStep, InventoryStep]
      modifies `inv, `pay, `clock, `log, `machine
      ensures Valid() && old(log) <= log && clock >= old(clock)
      ensures Now().runner.Undoing? && Now().runner.mem == undo && Now().runner.plan == []
      ensures Pressed(order, inv, undo.reserved, log[|old(log)|..], net, old(clock), clock)
      ensures plan[0] == PaymentStep ==>
        PressedRefund(pay, undo.payment, log[|old(log)|..], net, old(clock), clock)
      ensures (exists draw :: Calm(net, draw)) && plan == [InventoryStep] ==>
        pay == old(pay) && inv == ReleaseAll(order, old(inv), undo.reserved)
      ensures CalmAndFresh(net, old(pay)) && undo.payment.Some? && plan == [PaymentStep, InventoryStep] ==>
        && pay == RefundCharge(old(pay), net(old(clock)).refund, undo.payment.value, base).db
        && inv == ReleaseAll(order, old(inv), undo.reserved)
    {
      for i := 0 to |plan|
        invariant Valid() && old(log) <= log && clock >= old(clock)
        invariant Now().runner.Undoing? && Now().runner.mem == undo && Now().runner.plan == plan[i..]
        invariant i == |plan| ==> Pressed(order, inv, undo.reserved, log[|old(log)|..], net, old(clock), clock)
        invariant i > 0 && plan[0] == PaymentStep ==>
          PressedRefund(pay, undo.payment, log[|old(log)|..], net, old(clock), clock)
        invariant (exists draw :: Calm(net, draw)) && plan == [InventoryStep] ==>
          pay == old(pay) && inv == if i == 0 then old(inv) else ReleaseAll(order, old(inv), undo.reserved)
        invariant i == 0 ==> clock == old(clock)
        invariant CalmAndFresh(net, old(pay)) && undo.payment.Some? && plan == [PaymentStep, InventoryStep] ==>
          && pay == (if i == 0 then old(pay)
                     else RefundCharge(old(pay), net(old(clock)).refund, undo.payment.value, base).db)
          && inv == (if i < 2 then old(inv) else ReleaseAll(order, old(inv), undo.reserved))
      {
        assert plan[i..][0] == plan[i] && plan[i..][1..] == plan[i + 1..];
        ghost var before, c := log, clock;
        CompensateWithRetry(plan[i], undo, base);
        ghost var middle := log[|before|..];
        assert log == before + middle;
        Record(NextUndo);
        assert log == before + middle + [NextUndo];
        assert log[|old(log)|..] == before[|old(log)|..] + middle + [NextUndo];
        if plan[i] == InventoryStep {
          PressedMore(order, inv, undo.reserved, before[|old(log)|..], middle, [NextUndo],
                      net, old(clock), c, clock, clock);
          if i > 0 {
            assert [] + before[|old(log)|..] + (middle + [NextUndo]) == log[|old(log)|..];
            PressedRefundMore(pay, undo.payment, [], before[|old(log)|..], middle + [NextUndo],
                              net, old(clock), old(clock), c, clock);
          }
        } else {
          PressedRefundMore(pay, undo.payment, before[|old(log)|..], middle, [NextUndo],
                            net, old(clock), c, clock, clock);
        }
      }
    }

    // Runs the plan, then closes.
    method UndoAndClose(plan: seq<StepName>, undo: Saga, base: string)
      requires Valid() && Now().runner.Undoing? && Now().runner.mem == undo && Now().runner.plan == plan
      requires undo.status == Compensating
      requires plan == [InventoryStep] || plan == [PaymentStep, InventoryStep]
      modifies `sagaRow, `status, `inv, `pay, `clock, `log, `machine
      ensures Valid() && Now().runner.Idle?
      ensures old(log) <= log && |old(log)| + 2 <= |log| && old(clock) + 2 <= clock
      ensures log[|log| - 2] == MarkCancelled(net(clock - 2).outcome)
      ensures log[|log| - 1] == SaveCancelled(net(clock - 1).outcome != Dropped)
      ensures Pressed(order, inv, undo.reserved, log[|old(log)|..], net, old(clock), clock)
      ensures plan[0] == PaymentStep ==>
        PressedRefund(pay, undo.payment, log[|old(log)|..], net, old(clock), clock)
      ensures sagaRow == old(sagaRow) || sagaRow == Some(undo.(status := Cancelled))
      ensures (exists draw :: Calm(net, draw)) && plan == [InventoryStep] ==>
        TheWorld() == Abandon(order, old(TheWorld()), undo)
      ensures CalmAndFresh(net, old(pay)) && undo.payment.Some? && plan == [PaymentStep, InventoryStep] ==>
        TheWorld() == AbandonPaid(order, old(TheWorld()), undo, net(old(clock)).refund, undo.payment.value, base)
    {
      RunPlan(plan, undo, base);
      ghost var middle, c := log[|old(log)|..], clock;
      CloseCancelled(undo);
      ghost var last := log[|log| - 2..];
      assert log[|old(log)|..] == [] + middle + last;
      PressedMore(order, inv, undo.reserved, [], middle, last, net, old(clock), old(clock), c, clock);
      if plan[0] == PaymentStep {
        PressedRefundMore(pay, undo.payment, [], middle, last, net, old(clock), old(clock), c, clock);
      }
    }

    // Saves the decision to compensate, or goes on without; the plan depends on the failed step.
    method Decide(mem: Saga) returns (plan: seq<StepName>)
      requires Valid() && Now().runner == Ready(mem) && NextStep(mem.status).Some? && mem.status != Pending
      modifies `sagaRow, `clock, `log, `machine
      ensures Valid() && clock == old(clock) + 1 && log == old(log) + [GiveUp(net(old(clock)).outcome != Dropped)]
      ensures Now().runner.Undoing? && Now().runner.mem == mem.(status := Compensating) && Now().runner.plan == plan
      ensures plan == if mem.status == Paid || mem.status == Confirming then [PaymentStep, InventoryStep]
                      else [InventoryStep]
      ensures sagaRow == Unless(net(old(clock)).outcome == Dropped, Some(mem.(status := Compensating)), old(sagaRow))
    {
      var stored, _ := Save(mem.(status := Compensating));
      Record(GiveUp(stored));
      plan := Plan(NextStep(mem.status).value);
    }

    // Records the decision to compensate, runs the plan, cancels the order.
    method Compensate(mem: Saga, base: string)
      requires Valid() && Now().runner == Ready(mem) && NextStep(mem.status).Some? && mem.status != Pending
      modifies `sagaRow, `status, `inv, `pay, `clock, `log, `machine
      ensures Valid() && Now().runner.Idle?
      ensures Undertaken(mem, old(log), old(clock))
      ensures mem.status == Confirming ==>
        PressedRefund(pay, mem.payment, log[|old(log)|..], net, old(clock), clock)
      ensures old(sagaRow) == Some(mem) ==> sagaRow.Some? && sagaRow.value.reserved == mem.reserved
      ensures (exists draw :: Calm(net, draw)) && (mem.status == Reserving || mem.status == Paying) ==>
        TheWorld() == Abandon(order, old(TheWorld()), mem)
      ensures CalmAndFresh(net, old(pay)) && mem.status == Confirming && mem.payment.Some? ==>
        TheWorld() == AbandonPaid(order, old(TheWorld()), mem, net(old(clock) + 1).refund, mem.payment.value, base)
    {
      ghost var c, log0 := clock, log;
      var plan := Decide(mem);
      ghost var log1 := log;
      UndoAndClose(plan, mem.(status := Compensating), base);
      UndertakenSince(mem, log0, log1, c);
    }

    lemma UndertakenSince(mem: Saga, log0: seq<Label>, log1: seq<Label>, c: nat)
      requires log1 == log0 + [GiveUp(net(c).outcome != Dropped)] && log1 <= log
      requires |log1| + 2 <= |log| && c + 3 <= clock
      requires log[|log| - 2] == MarkCancelled(net(clock - 2).outcome)
      requires log[|log| - 1] == SaveCancelled(net(clock - 1).outcome != Dropped)
      requires Pressed(order, inv, mem.reserved, log[|log1|..], net, c + 1, clock)
      ensures Undertaken(mem, log0, c)
      ensures PressedRefund(pay, mem.payment, log[|log1|..], net, c + 1, clock) ==>
        PressedRefund(pay, mem.payment, log[|log0|..], net, c, clock)
    {
      var first, rest := [GiveUp(net(c).outcome != Dropped)], log[|log1|..];
      assert log[|log0|] == log1[|log0|];
      assert log[|log0|..] == first + rest + [];
      PressedMore(order, inv, mem.reserved, first, rest, [], net, c, c + 1, clock, clock);
      if PressedRefund(pay, mem.payment, rest, net, c + 1, clock) {
        PressedRefundMore(pay, mem.payment, first, rest, [], net, c, c + 1, clock, clock);
      }
    }

    // The step was given up at the given time: every recorded item's release was tried for as
    // long as the retries allow, and then the order row and the saga were closed.
    ghost predicate Undertaken(mem: Saga, log0: seq<Label>, c: nat)
      reads this
    {
      && |log0| + 3 <= |log| && log0 <= log && c + 3 <= clock
      && log[|log0|] == GiveUp(net(c).outcome != Dropped)
      && log[|log| - 2] == MarkCancelled(net(clock - 2).outcome)
      && log[|log| - 1] == SaveCancelled(net(clock - 1).outcome != Dropped)
      && Pressed(order, inv, mem.reserved, log[|log0|..], net, c, clock)
    }

    /** A step failed for good: record it, undo what was done, cancel the order.  Only a failed
        start is reported as an error.  Whatever the network does, every recorded item is given
        back unless its release was sent three times or a context expired, for a failed
        confirmation the payment likewise, and then the order is cancelled.  Over a calm network
        a refused reservation or payment releases what was reserved, and a failed confirmation
        refunds the payment as well. */
    method HandleStepFailure(mem: Saga, base: string) returns (err: bool)
      requires Valid() && Now().runner == Ready(mem) && NextStep(mem.status).Some?
      modifies `sagaRow, `status, `inv, `pay, `clock, `log, `machine
      ensures Valid() && old(log) < log && clock > old(clock) && Now().runner.Idle?
      ensures err <==> mem.status == Pending
      ensures GaveUp(old(log), log) && log[|old(log)|] == GiveUp(net(old(clock)).outcome != Dropped)
      ensures mem.status == Pending ==>
        && log == old(log) + [GiveUp(net(old(clock)).outcome != Dropped)]
        && TheWorld() == old(TheWorld()).(saga := if net(old(clock)).outcome == Dropped then old(sagaRow)
                                                  else Some(mem.(status := Failed)))
      ensures mem.status != Pending ==>
        && Undertaken(mem, old(log), old(clock))
        && sagaRow.Some? && sagaRow.value.reserved == mem.reserved
      ensures mem.status == Confirming ==>
        PressedRefund(pay, mem.payment, log[|old(log)|..], net, old(clock), clock)
      ensures (exists draw :: Calm(net, draw)) && mem.status in {Pending, Reserving, Paying} ==>
        TheWorld() == Abandon(order, old(TheWorld()), mem)
      ensures CalmAndFresh(net, old(pay)) && mem.status == Confirming && mem.payment.Some? ==>
        TheWorld() == AbandonPaid(order, old(TheWorld()), mem, net(old(clock) + 1).refund, mem.payment.value, base)
    {
      ReadyMeans(mem);
      if mem.status != Pending {
        Compensate(mem, base);
        assert log[|old(log)|].GiveUp?;
        return false;
      }
      var stored, _ := Save(mem.(status := Failed));
      Record(GiveUp(stored));
      assert log[|old(log)|].GiveUp?;
      return true;
    }

    /* ---------- ProcessOrder ---------- */

    // Loads the saga row or creates it; None when the row says the saga is over, or when the
    // row could not be created.
    method LoadOrCreate() returns (mem: Option<Saga>, err: bool)
      requires Valid() && Now().runner.Idle?
      modifies this
      ensures Valid() && OnlyForward(old(log), log) && clock >= old(clock)
      ensures attempts == old(attempts) && executions == old(executions)
      ensures mem.None? ==> Now().runner.Idle?
      ensures err <==> old(sagaRow).None? && net(old(clock)).outcome != Delivered
      ensures err ==> clock > old(clock)
      ensures mem.None? && !err ==>
        sagaRow.Some? && IsTerminal(sagaRow.value.status) && TheWorld() == old(TheWorld())
      ensures mem.Some? ==> !err && Now().runner == Looping(mem.value) && sagaRow == mem
      ensures mem.Some? ==>
        TheWorld() == old(TheWorld()).(saga := if old(sagaRow).None? then Some(NEW_SAGA) else old(sagaRow))
      ensures mem.Some? ==> StepsLeft(order, mem.value) <= |order.items| + 4
      ensures Sure(order, old(TheWorld()), net) ==> Sure(order, TheWorld(), net)
      ensures forall draw :: Calm(net, draw) ==> Finish(order, TheWorld(), draw) == Finish(order, old(TheWorld()), draw)
      ensures forall draw :: Calm(net, draw) ==> !err
    {
      err := false;
      if sagaRow.None? {
        ghost var w := TheWorld();
        var stored, ok := Save(NEW_SAGA);
        BeganSure(order, w, net);
        if stored {
          Record(Begin);
        }
        if !ok {
          Record(Crash);
          return None, true;
        }
        return Some(NEW_SAGA), false;
      }
      if IsTerminal(sagaRow.value.status) {
        return None, false;
      }
      Record(Begin);
      return sagaRow, false;
    }

    /** Fixes the step's status in the row before acting, if the step asks for it. */
    method PrepareStep(mem: Saga) returns (mem': Saga, ok: bool)
      requires Valid() && Now().runner == Looping(mem) && NextStep(mem.status).Some? && sagaRow == Some(mem)
      modifies this
      ensures Valid() && OnlyForward(old(log), log) && clock >= old(clock)
      ensures attempts == old(attempts) && executions == old(executions)
      ensures ok <==> Prepared(mem) == mem || net(old(clock)).outcome == Delivered
      ensures !ok ==> clock > old(clock)
      ensures ok ==> mem' == Prepared(mem) && Now().runner == Ready(mem') && sagaRow == Some(mem')
      ensures ok ==> TheWorld() == old(TheWorld()).(saga := Some(mem'))
      ensures !ok ==> Now().runner.Idle?
      ensures Sure(order, old(TheWorld()), net) ==> Sure(order, old(TheWorld()).(saga := Some(Prepared(mem))), net)
      ensures forall draw :: Calm(net, draw) ==> ok
    {
      mem' := Prepared(mem);
      PreparedSure(order, TheWorld(), mem, net);
      if mem' == mem {
        Record(Prepare);
        return mem', true;
      }
      var stored;
      stored, ok := Save(mem');
      if stored {
        Record(Prepare);
      }
      if !ok {
        Record(Crash);
      }
    }

    method PersistStep(mem: Saga) returns (ok: bool)
      requires Valid() && Now().runner == Executed(mem)
      modifies this
      ensures Valid() && OnlyForward(old(log), log) && clock == old(clock) + 1
      ensures attempts == old(attempts) && executions == old(executions)
      ensures ok <==> net(old(clock)).outcome == Delivered
      ensures ok ==> Now().runner == Looping(mem) && TheWorld() == old(TheWorld()).(saga := Some(mem))
      ensures !ok ==> Now().runner.Idle?
      ensures forall draw :: Calm(net, draw) ==> ok
    {
      var stored;
      stored, ok := Save(mem);
      if stored {
        Record(Persist);
      }
      if !ok {
        Record(Crash);
      }
    }

    // The failure of a step, within a run driven forward since the given time.
    method FailStep(mem: Saga, base: string, ghost log0: seq<Label>, ghost c: nat) returns (err: bool)
      requires Valid() && Now().runner == Ready(mem) && NextStep(mem.status).Some?
      requires log0 <= log && c <= clock && (mem.status == Pending ==> Disturbed(net, c, clock))
      requires forall draw :: Calm(net, draw) ==> Execute(order, TheWorld(), mem, draw).saga.None?
      modifies `sagaRow, `status, `inv, `pay, `clock, `log, `machine
      ensures Valid() && old(log) <= log && clock >= old(clock) && Now().runner.Idle?
      ensures err ==> Disturbed(net, c, clock)
      ensures !err ==> HandledFailure(log0, c)
      ensures forall draw :: Calm(net, draw) ==> !err && TheWorld() == Abandon(order, old(TheWorld()), mem)
    {
      forall draw | Calm(net, draw) ensures mem.status == Reserving || mem.status == Paying {
        RefusedSteps(order, TheWorld(), mem, draw);
        ReadyMeans(mem);
      }
      err := HandleStepFailure(mem, base);
      if !err {
        ghost var before, after := old(log)[|log0|..], log[|old(log)|..];
        assert log[|log0|..] == before + after + [];
        PressedMore(order, inv, mem.reserved, before, after, [], net, c, old(clock), clock, clock);
        assert log[|old(log)|].GiveUp?;
      }
    }

    // The step itself, once prepared: attempts, then the save or the compensation.
    method ActAndSave(mem: Saga, base: string) returns (next: Option<Saga>, err: bool)
      requires Valid() && Now().runner == Ready(mem) && sagaRow == Some(mem) && NextStep(mem.status).Some?
      modifies this
      ensures Valid() && old(log) <= log && clock >= old(clock)
      ensures executions == old(executions) + 1 && attempts <= old(attempts) + 3
      ensures next.Some? ==> Now().runner == Looping(next.value) && sagaRow == next
      ensures next.Some? ==> StepsLeft(order, next.value) == StepsLeft(order, mem) - 1
      ensures next.Some? ==> !err && OnlyForward(old(log), log)
      ensures next.None? ==> Now().runner.Idle?
      ensures err ==> Disturbed(net, old(clock), clock)
      ensures next.None? && !err ==> HandledFailure(old(log), old(clock))
      ensures Sure(order, old(TheWorld()), net) && next.Some? ==> Sure(order, TheWorld(), net)
      ensures Sure(order, old(TheWorld()), net) && Persistent(net) ==> OnlyForward(old(log), log)
      ensures forall draw :: Calm(net, draw) ==>
        && !err
        && var e := Execute(order, old(TheWorld()), mem, draw);
           if next.Some? then e.saga == next && TheWorld() == e.world.(saga := next)
           else e.saga.None? && TheWorld() == Abandon(order, e.world, mem)
    {
      ghost var w, c := TheWorld(), clock;
      var executed, ok := ExecuteWithRetry(mem);
      if !ok {
        if mem.status == Pending {
          StartLost(order, w, mem, net, c, attempts - old(attempts));
        }
        err := FailStep(mem, base, old(log), c);
        return None, err;
      }
      c := clock;
      ok := PersistStep(executed);
      if !ok {
        assert net(c).outcome != Delivered;
        return None, true;
      }
      return Some(executed), false;
    }

    // One turn of the loop: the next saga to drive, or none when the run is over.
    method DriveStep(mem: Saga, base: string) returns (next: Option<Saga>, err: bool)
      requires Valid() && Now().runner == Looping(mem) && sagaRow == Some(mem) && NextStep(mem.status).Some?
      modifies this
      ensures Valid() && old(log) <= log && clock >= old(clock)
      ensures executions <= old(executions) + 1 && attempts <= old(attempts) + 3
      ensures next.Some? ==> Now().runner == Looping(next.value) && sagaRow == next
      ensures next.Some? ==> StepsLeft(order, next.value) == StepsLeft(order, mem) - 1
      ensures next.Some? ==> !err && OnlyForward(old(log), log)
      ensures next.None? ==> Now().runner.Idle?
      ensures err ==> Disturbed(net, old(clock), clock)
      ensures next.None? && !err ==> HandledFailure(old(log), old(clock))
      ensures Sure(order, old(TheWorld()), net) && next.Some? ==> Sure(order, TheWorld(), net)
      ensures Sure(order, old(TheWorld()), net) && Persistent(net) ==> OnlyForward(old(log), log)
      ensures forall draw :: Calm(net, draw) ==> !err
      ensures forall draw :: Calm(net, draw) ==>
        Finish(order, old(TheWorld()), draw) == if next.Some? then Finish(order, TheWorld(), draw) else TheWorld()
    {
      ghost var w, c := TheWorld(), clock;
      var prepared, ok := PrepareStep(mem);
      if !ok {
        assert net(c).outcome != Delivered;
        return None, true;
      }
      StepMakesProgress(order, w, mem, P.Draw(0, true));
      ghost var log1, c1 := log, clock;
      next, err := ActAndSave(prepared, base);
      if err {
        DisturbedMore(net, c, c1, clock);
      } else if next.None? {
        HandledMore(old(log), log1, c, c1);
      }
      forall draw | Calm(net, draw)
        ensures Finish(order, w, draw) == if next.Some? then Finish(order, TheWorld(), draw) else TheWorld()
      {
        TurnFinishes(order, w, mem, draw);
      }
    }

    // A step was given up since the given time: what was recorded was undone as far as the
    // retries allow.
    ghost predicate HandledFailure(log0: seq<Label>, c: nat)
      reads this
    {
      && log0 <= log && GaveUp(log0, log) && sagaRow.Some?
      && Pressed(order, inv, sagaRow.value.reserved, log[|log0|..], net, c, clock)
    }

    // What was handled since a time was handled since an earlier one.
    lemma HandledMore(log0: seq<Label>, log1: seq<Label>, c0: nat, c1: nat)
      requires HandledFailure(log1, c1) && log0 <= log1 && c0 <= c1
      ensures HandledFailure(log0, c0)
    {
      var before, after := log1[|log0|..], log[|log1|..];
      assert log[|log0|..] == before + after + [];
      PressedMore(order, inv, sagaRow.value.reserved, before, after, [], net, c0, c1, clock, clock);
    }

    // A stretch driven forward leaves unchanged where the run will end.
    lemma ForwardSince(log0: seq<Label>, s0: State)
      requires Valid() && Ran(order, origin, log0, s0) && OnlyForward(log0, log)
      requires s0.runner.Idle?
      ensures forall d :: Agrees(order, TheWorld(), d) ==>
        Finish(order, TheWorld(), d) == Finish(order, s0.world, d)
    {
      var later := log[|log0|..];
      assert log == log0 + later && forall l <- later :: Forward(l);
      assert s0 == Run(order, Initial(origin), log0) && Now() == Run(order, Initial(origin), log);
      assert Fresh(order, origin);
      RunAppend(order, Initial(origin), log0, later);
      FreshIsInv(order, origin);
      RunKeepsInv(order, Initial(origin), log0);
      forall d | Agrees(order, TheWorld(), d) ensures Finish(order, TheWorld(), d) == Finish(order, s0.world, d) {
        FinishIsInvariant(order, s0, later, d);
      }
    }

    // The loop.
    method Drive(start: Saga, base: string) returns (err: bool)
      requires Valid() && Now().runner == Looping(start) && sagaRow == Some(start)
      modifies this
      ensures Valid() && old(log) <= log && clock >= old(clock) && Now().runner.Idle?
      ensures executions <= old(executions) + StepsLeft(order, start)
      ensures attempts <= old(attempts) + 3 * StepsLeft(order, start)
      ensures err ==> Disturbed(net, old(clock), clock)
      ensures !err && OnlyForward(old(log), log) ==> sagaRow.Some? && NextStep(sagaRow.value.status).None?
      ensures !err && !OnlyForward(old(log), log) ==> HandledFailure(old(log), old(clock))
      ensures Sure(order, old(TheWorld()), net) && Persistent(net) ==> OnlyForward(old(log), log)
      ensures Sure(order, old(TheWorld()), net) && !err && OnlyForward(old(log), log) ==>
        sagaRow.value.status == Confirmed
      ensures forall draw :: Calm(net, draw) ==> !err && TheWorld() == Finish(order, old(TheWorld()), draw)
    {
      var mem := start;
      while NextStep(mem.status).Some?
        invariant Valid() && OnlyForward(old(log), log) && Now().runner == Looping(mem) && sagaRow == Some(mem)
        invariant clock >= old(clock) && StepsLeft(order, mem) <= StepsLeft(order, start)
        invariant executions + StepsLeft(order, mem) <= old(executions) + StepsLeft(order, start)
        invariant attempts + 3 * StepsLeft(order, mem) <= old(attempts) + 3 * StepsLeft(order, start)
        invariant Sure(order, old(TheWorld()), net) ==> Sure(order, TheWorld(), net)
        invariant forall draw :: Calm(net, draw) ==>
          Finish(order, TheWorld(), draw) == Finish(order, old(TheWorld()), draw)
        decreases StepsLeft(order, mem)
      {
        StepMakesProgress(order, TheWorld(), mem, P.Draw(0, true));
        ghost var log1, c1 := log, clock;
        var next;
        next, err := DriveStep(mem, base);
        if next.None? {
          if err {
            DisturbedMore(net, old(clock), c1, clock);
          } else {
            HandledMore(old(log), log1, old(clock), c1);
          }
          return;
        }
        mem := next.value;
      }
      RestsConfirmed(order, TheWorld(), net);
      Record(Prepare);
      return false;
    }

    /** Drives the saga from wherever it is stored.  It is a run of the machine; it takes at
        most n + 4 step executions and three attempts at each.  It reports an error only if some
        interaction went unanswered.  If it reports none, then either a step was given up, and
        what was recorded was undone as far as three tries of everything allow; or the saga needs
        no further step and the world is the one of the undisturbed run, whatever was lost and
        repeated on the way.  And no step is given up if the undisturbed run confirms the order
        and of three interactions in a row the network lets one through.  Over a calm network it
        reports success and does what `Finish` says. */
    method ProcessOrder(base: string) returns (err: bool)
      requires Valid() && Now().runner.Idle?
      modifies this
      ensures Valid() && old(log) <= log && Now().runner.Idle?
      ensures executions <= old(executions) + |order.items| + 4
      ensures attempts <= old(attempts) + 3 * (|order.items| + 4)
      ensures err ==> Disturbed(net, old(clock), clock)
      ensures !err ==> (sagaRow.Some? && NextStep(sagaRow.value.status).None?) || GaveUp(old(log), log)
      ensures !err && GaveUp(old(log), log) ==> HandledFailure(old(log), old(clock))
      ensures !err && !GaveUp(old(log), log) ==>
        forall d :: Agrees(order, TheWorld(), d) ==> TheWorld() == Finish(order, old(TheWorld()), d)
      ensures Sure(order, old(TheWorld()), net) && Persistent(net) ==>
        !GaveUp(old(log), log) && (!err ==> sagaRow.value.status == Confirmed)
      ensures forall draw :: Calm(net, draw) ==> !err && TheWorld() == Finish(order, old(TheWorld()), draw)
    {
      ghost var log0, c0, start := log, clock, Now();
      var loaded;
      loaded, err := LoadOrCreate();
      if loaded.None? {
        assert err ==> net(c0).outcome != Delivered;
        if !err {
          RestsConfirmed(order, TheWorld(), net);
        }
        return;
      }
      ghost var log1, c1 := log, clock;
      err := Drive(loaded.value, base);
      if err {
        DisturbedMore(net, c0, c1, clock);
      } else if OnlyForward(log1, log) {
        ForwardSince(log0, start);
      } else {
        HandledMore(log0, log1, c0, c1);
      }
    }

    /* ---------- CancelOrder ---------- */

    method ReleaseWithRetry(mem: Saga) returns (ok: bool)
      requires Valid() && Now().runner.CancelReleasing? && Now().runner.mem == mem
      modifies `inv, `clock, `log, `machine
      ensures Valid() && old(log) <= log && clock >= old(clock)
      ensures ok ==> Now().runner == CancelMarking(mem)
      ensures !ok ==> Now().runner.CancelReleasing? && Now().runner.mem == mem
      ensures !ok ==> CancelStopped(log[|old(log)|..], |mem.reserved|, net, old(clock), clock)
      ensures (exists draw :: Calm(net, draw)) ==> ok && inv == ReleaseAll(order, old(inv), mem.reserved)
    {
      ok := ReleasePressed(mem);
      if ok {
        Record(CancelReleased);
      }
    }

    /** Refund, release, cancel, in that order, stopping at the first thing that cannot be
        got through.  It stops only when there is no saga, or after a third refund or a third
        round of releases, or when a context expires, or when the order's update goes
        unanswered.  When it returns nil, everything the saga recorded has been undone
        exactly once, however many earlier calls failed half way.  Over a calm network it
        returns nil exactly when there is a saga and its payment, if it has one, can be
        refunded: succeeded, or refunded before under this very key; it then leaves the payment
        refunded, the stock released, the order and the saga cancelled, and otherwise nothing
        changed. */
    method CancelOrder(orderText: string) returns (err: bool)
      requires Valid() && Now().runner.Idle?
      modifies this
      ensures Valid() && old(log) <= log && Now().runner.Idle?
      ensures err ==> old(sagaRow).None? ||
                      CancelStopped(log[|old(log)|..], |old(sagaRow).value.reserved|, net, old(clock), clock)
      ensures !err ==> old(sagaRow).Some? && Undone(order, TheWorld(), old(sagaRow).value) && status == OrderCancelled
      ensures CalmAndFresh(net, old(pay)) ==>
        (!err <==> old(sagaRow).Some? &&
                   (old(sagaRow).value.payment.Some? ==>
                      P.Refundable(old(pay), old(sagaRow).value.payment.value, orderText)))
      ensures CalmAndFresh(net, old(pay)) ==>
        TheWorld() == if err then old(TheWorld())
                      else CancelledWorld(order, old(TheWorld()), old(sagaRow).value, net(old(clock)).refund, orderText)
    {
      if sagaRow.None? {
        return true;
      }
      ghost var log0, c0 := log, clock;
      var mem := sagaRow.value;
      var refunded := RefundFirst(mem, orderText);
      if !refunded {
        return true;
      }
      ghost var log1, c1 := log, clock;
      err := ReleaseAndCancel(mem);
      if err {
        StoppedSince(log0, log1, c0, c1, |mem.reserved|);
      }
    }

    // A cancellation that stopped since a time stopped since an earlier one.
    lemma StoppedSince(log0: seq<Label>, log1: seq<Label>, c0: nat, c1: nat, n: nat)
      requires log0 <= log1 <= log && c0 <= c1 && CancelStopped(log[|log1|..], n, net, c1, clock)
      ensures CancelStopped(log[|log0|..], n, net, c0, clock)
    {
      assert log[|log0|..] == log1[|log0|..] + log[|log1|..] + [];
      CancelStoppedMore(log1[|log0|..], log[|log1|..], [], n, net, c0, c1, clock, clock);
    }

    method RefundWithRetry(mem: Saga, orderText: string) returns (ok: bool)
      requires Valid() && Now().runner == CancelRefunding(mem) && mem.payment.Some?
      modifies `pay, `clock, `log, `machine
      ensures Valid() && old(log) <= log && clock >= old(clock)
      ensures Now().runner == if ok then CancelReleasing(mem, {}) else CancelRefunding(mem)
      ensures !ok ==> CancelStopped(log[|old(log)|..], |mem.reserved|, net, old(clock), clock)
      ensures CalmAndFresh(net, old(pay)) ==>
        && (ok <==> P.Refundable(old(pay), mem.payment.value, orderText))
        && pay == if ok then RefundCharge(old(pay), net(old(clock)).refund, mem.payment.value, orderText).db
                  else old(pay)
    {
      ok := RefundRounds(mem, orderText);
    }

    // The refund, if anything was paid.
    method RefundFirst(mem: Saga, orderText: string) returns (ok: bool)
      requires Valid() && Now().runner.Idle? && sagaRow == Some(mem)
      modifies `pay, `clock, `log, `machine
      ensures Valid() && old(log) <= log && clock >= old(clock)
      ensures Now().runner == if ok then CancelReleasing(mem, {}) else Idle
      ensures !ok ==> CancelStopped(log[|old(log)|..], |mem.reserved|, net, old(clock), clock)
      ensures CalmAndFresh(net, old(pay)) ==>
        && (ok <==> (mem.payment.Some? ==> P.Refundable(old(pay), mem.payment.value, orderText)))
        && pay == if ok && mem.payment.Some?
                  then RefundCharge(old(pay), net(old(clock)).refund, mem.payment.value, orderText).db
                  else old(pay)
    {
      Record(BeginCancel);
      if mem.payment.None? {
        return true;
      }
      ghost var log1 := log;
      ok := RefundWithRetry(mem, orderText);
      if !ok {
        StoppedSince(old(log), log1, old(clock), old(clock), |mem.reserved|);
        Crashes(old(log), old(clock), |mem.reserved|);
      }
    }

    // The process stops short with an error.
    ghost method Crashes(log0: seq<Label>, c: nat, n: nat)
      requires Valid() && log0 <= log && CancelStopped(log[|log0|..], n, net, c, clock)
      modifies `log, `machine
      ensures Valid() && old(log) <= log && Now().runner.Idle?
      ensures CancelStopped(log[|log0|..], n, net, c, clock)
    {
      ghost var before := log[|log0|..];
      Record(Crash);
      assert log[|log0|..] == [] + before + [Crash];
      CancelStoppedMore([], before, [Crash], n, net, c, c, clock, clock);
    }

    // What follows the refund.
    method ReleaseAndCancel(mem: Saga) returns (err: bool)
      requires Valid() && Now().runner.CancelReleasing? && Now().runner.mem == mem
      modifies `status, `sagaRow, `inv, `clock, `log, `machine
      ensures Valid() && old(log) <= log && clock >= old(clock) && Now().runner.Idle?
      ensures err ==> CancelStopped(log[|old(log)|..], |mem.reserved|, net, old(clock), clock)
      ensures !err ==> Undone(order, TheWorld(), mem) && status == OrderCancelled
      ensures (exists draw :: Calm(net, draw)) ==>
        && !err
        && TheWorld() == World(Some(mem.(status := Cancelled)), OrderCancelled,
                               ReleaseAll(order, old(inv), mem.reserved), old(pay))
    {
      var released := ReleaseWithRetry(mem);
      ghost var sent, c := log[|old(log)|..], clock;
      if !released {
        Crashes(old(log), old(clock), |mem.reserved|);
        return true;
      }
      err := FinishCancel(mem);
      assert log[|old(log)|..][|sent|] == MarkCancelled(net(c).outcome);
    }

    /** Cancels the order row, then saves the saga; a failed save is only logged. */
    method FinishCancel(mem: Saga) returns (err: bool)
      requires Valid() && Now().runner == CancelMarking(mem)
      modifies `status, `sagaRow, `clock, `log, `machine
      ensures Valid() && clock >= old(clock) && Now().runner.Idle?
      ensures err <==> net(old(clock)).outcome != Delivered
      ensures log == old(log) + [MarkCancelled(net(old(clock)).outcome)]
                     + if err then [] else [SaveCancelled(net(old(clock) + 1).outcome != Dropped)]
      ensures status == if net(old(clock)).outcome == Dropped then old(status) else OrderCancelled
      ensures sagaRow == if err || net(old(clock) + 1).outcome == Dropped then old(sagaRow)
                         else Some(mem.(status := Cancelled))
      ensures !err ==> Undone(order, TheWorld(), mem)
    {
      var d := Next();
      if d.outcome != Dropped {
        status := OrderCancelled;
      }
      Record(MarkCancelled(d.outcome));
      if d.outcome != Delivered {
        return true;
      }
      ghost var before := log;
      var stored, _ := Save(mem.(status := Cancelled));
      Record(SaveCancelled(stored));
      ItIsARun();
      CancelConverges(order, origin, before, [SaveCancelled(stored)]);
      return false;
    }
  }
}
