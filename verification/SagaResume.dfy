/**
Crash and resume.  `Finish` is what one uninterrupted call of ProcessOrder makes of a
world, starting from the stored saga.  However often a run is cut short and restarted,
finishing it gives the very world that one uninterrupted run from the start would have given.
*/
module SagaResume {
  import opened Common
  import opened Saga
  import I = Inventory
  import P = Payments

  /* ---------- One uninterrupted run ---------- */

  function ReleaseAll(order: Order, inv: I.Tables, items: seq<ReservedItem>): I.Tables
    decreases |items|
  {
    if items == [] then inv
    else ReleaseAll(order, ReleaseItem(order, inv, items[0]).db, items[1..])
  }

  // A business refusal: nothing failed in transit, so the compensation plan runs through.
  // No undisturbed run fails at the confirm step, hence there is nothing to refund.
  function Abandon(order: Order, w: World, sg: Saga): World {
    if sg.status == Pending then
      w.(saga := Some(sg.(status := Failed)))
    else
      w.(inv := ReleaseAll(order, w.inv, sg.reserved),
         status := OrderCancelled,
         saga := Some(sg.(status := Cancelled)))
  }

  function Finish(order: Order, w: World, draw: P.Draw): World
    decreases if w.saga.None? then |order.items| + 5 else StepsLeft(order, w.saga.value)
  {
    if w.saga.None? then
      Finish(order, w.(saga := Some(NEW_SAGA)), draw)
    else if NextStep(w.saga.value.status).None? then
      w
    else
      var sg := Prepared(w.saga.value);
      var e := Execute(order, w.(saga := Some(sg)), sg, draw);
      if e.saga.None? then
        Abandon(order, e.world, sg)
      else
        StepMakesProgress(order, w.(saga := Some(sg)), w.saga.value, draw);
        Finish(order, e.world.(saga := e.saga), draw)
  }

  /* ---------- The invariant of interrupted runs ---------- */

  // The labels of runs in which no step fails for good: any number of starts, crashes, lost
  // requests and lost replies, but the retries are never exhausted.
  predicate Forward(l: Label) {
    l.Begin? || l.Prepare? || l.Attempt? || l.Persist? || l.Crash?
  }

  // The draw is the one that decided this order's payment, if it is decided.
  predicate Agrees(order: Order, w: World, draw: P.Draw) {
    order.id in w.pay.byOrder ==>
      && w.pay.byOrder[order.id] == draw.payment
      && draw.payment in w.pay.payments
      && w.pay.payments[draw.payment].status == P.Verdict(draw)
  }

  // A payment of this order, if there is one, has its verdict.
  ghost predicate Decided(order: Order, w: World) {
    order.id in w.pay.byOrder ==>
      && w.pay.byOrder[order.id] in w.pay.payments
      && w.pay.payments[w.pay.byOrder[order.id]].status != P.Pending
  }

  // Doing the step again from here would change nothing and give the saga in memory.
  ghost predicate Repeatable(order: Order, w: World, sg: Saga, mem: Saga) {
    forall draw :: Agrees(order, w, draw) ==> Execute(order, w, sg, draw) == Exec(w, Some(mem))
  }

  ghost predicate InStep(order: Order, s: State) {
    && Decided(order, s.world)
    && match s.runner
    case Idle => true
    case Looping(mem) => s.world.saga == Some(mem)
    case Ready(mem) => s.world.saga == Some(mem) && NextStep(mem.status).Some? && Prepared(mem) == mem
    case Executed(mem) =>
      && s.world.saga.Some?
      && var sg := s.world.saga.value;
      NextStep(sg.status).Some? && Prepared(sg) == sg && Repeatable(order, s.world, sg, mem)
    case _ => false
  }

  // An attempt that is refused changes nothing.  Two attempts at one step have the effect of
  // the first, and both see its reply.
  lemma ExecuteTwice(order: Order, w: World, sg: Saga, draw: P.Draw, again: P.Draw)
    requires Decided(order, w) && Agrees(order, Execute(order, w, sg, draw).world, again)
    ensures Decided(order, Execute(order, w, sg, draw).world) && Agrees(order, w, again)
    ensures Execute(order, w, sg, draw).saga.None? ==> Execute(order, w, sg, draw).world == w
    ensures Execute(order, w, sg, draw).saga.Some? ==>
      && Execute(order, w, sg, again) == Execute(order, w, sg, draw)
      && Execute(order, Execute(order, w, sg, draw).world, sg, again) == Execute(order, w, sg, draw)
  {
  }

  lemma ExecuteDecides(order: Order, w: World, sg: Saga, draw: P.Draw)
    requires Decided(order, w)
    ensures Decided(order, Execute(order, w, sg, draw).world)
  {
  }

  lemma AttemptAdvances(order: Order, s: State, outcome: Outcome, draw: P.Draw, d: P.Draw)
    requires InStep(order, s) && s.runner.Ready? && outcome != Dropped
    requires Agrees(order, AttemptStep(order, s, s.runner.mem, outcome, draw).world, d)
    ensures var s' := AttemptStep(order, s, s.runner.mem, outcome, draw);
            Agrees(order, s.world, d) && Finish(order, s'.world, d) == Finish(order, s.world, d)
  {
    ExecuteTwice(order, s.world, s.runner.mem, draw, d);
    var e := Execute(order, s.world, s.runner.mem, draw);
    assert e.world.saga == s.world.saga == Some(s.runner.mem);
  }

  lemma AttemptInStep(order: Order, s: State, outcome: Outcome, draw: P.Draw)
    requires InStep(order, s) && s.runner.Ready?
    ensures InStep(order, AttemptStep(order, s, s.runner.mem, outcome, draw))
  {
    var mem := s.runner.mem;
    var e := Execute(order, s.world, mem, draw);
    ExecuteDecides(order, s.world, mem, draw);
    if e.saga.Some? {
      forall d | Agrees(order, e.world, d) ensures Execute(order, e.world, mem, d) == Exec(e.world, e.saga) {
        ExecuteTwice(order, s.world, mem, draw, d);
      }
    }
  }

  lemma StepInStep(order: Order, s: State, l: Label)
    requires InStep(order, s) && Forward(l)
    ensures InStep(order, Step(order, s, l))
  {
    if l.Attempt? && s.runner.Ready? {
      AttemptInStep(order, s, l.outcome, l.draw);
    }
  }

  // No transition changes where the run would end up.
  lemma StepAdvances(order: Order, s: State, l: Label, d: P.Draw)
    requires InStep(order, s) && Forward(l)
    requires Agrees(order, Step(order, s, l).world, d)
    ensures Agrees(order, s.world, d)
    ensures Finish(order, Step(order, s, l).world, d) == Finish(order, s.world, d)
  {
    if l.Attempt? && s.runner.Ready? && l.outcome != Dropped {
      AttemptAdvances(order, s, l.outcome, l.draw, d);
    } else if l.Prepare? && s.runner.Looping? {
      assert Prepared(Prepared(s.runner.mem)) == Prepared(s.runner.mem);
    } else if l.Persist? && s.runner.Executed? {
      var sg := s.world.saga.value;
      assert Execute(order, s.world, sg, d) == Exec(s.world, Some(s.runner.mem));
      assert s.world.(saga := Some(sg)) == s.world;
    }
  }

  /** The invariant of every interrupted run: whatever was cut short and whatever was repeated,
      completing it now gives what completing it at once would have given. */
  lemma {:induction false} FinishIsInvariant(order: Order, s: State, labels: seq<Label>, d: P.Draw)
    requires InStep(order, s) && forall l <- labels :: Forward(l)
    requires Agrees(order, Run(order, s, labels).world, d)
    ensures InStep(order, Run(order, s, labels)) && Agrees(order, s.world, d)
    ensures Finish(order, Run(order, s, labels).world, d) == Finish(order, s.world, d)
    decreases |labels|
  {
    if labels != [] {
      StepInStep(order, s, labels[0]);
      FinishIsInvariant(order, Step(order, s, labels[0]), labels[1..], d);
      StepAdvances(order, s, labels[0], d);
    }
  }

  /** Crash-and-resume refinement.  Take any run from a fresh order in which no step fails for
      good, with any number of crashes, restarts, lost requests and lost replies and any draws.
      Once the stored saga needs no further step, stock, reservations, ledger, payment, order
      and saga are those of one uninterrupted run with the draw that decided the payment. */
  lemma CrashResumeRefinement(order: Order, w: World, labels: seq<Label>, d: P.Draw)
    requires Fresh(order, w) && forall l <- labels :: Forward(l)
    requires var w' := Run(order, Initial(w), labels).world;
             w'.saga.Some? && NextStep(w'.saga.value.status).None? && Agrees(order, w', d)
    ensures Run(order, Initial(w), labels).world == Finish(order, w, d)
  {
    FinishIsInvariant(order, Initial(w), labels, d);
  }

  /* ---------- Finish is a run ---------- */

  // The labels of an undisturbed run from the top of the loop.
  function CleanLabels(order: Order, w: World, draw: P.Draw): seq<Label>
    requires w.saga.Some?
    decreases StepsLeft(order, w.saga.value)
  {
    if NextStep(w.saga.value.status).None? then
      [Prepare]
    else
      var sg := Prepared(w.saga.value);
      var e := Execute(order, w.(saga := Some(sg)), sg, draw);
      if e.saga.None? then
        [Prepare, Attempt(Delivered, draw), GiveUp(true)]
        + (ReleaseLabels(0, |sg.reserved|) + Close())
      else
        StepMakesProgress(order, w.(saga := Some(sg)), w.saga.value, draw);
        [Prepare, Attempt(Delivered, draw), Persist] + CleanLabels(order, e.world.(saga := e.saga), draw)
  }

  function ReleaseLabels(i: nat, n: nat): seq<Label>
    requires i <= n
    decreases n - i
  {
    if i == n then [] else [Release(i, Delivered)] + ReleaseLabels(i + 1, n)
  }

  lemma ThreeSteps(order: Order, s: State, a: Label, b: Label, c: Label, rest: seq<Label>)
    ensures Run(order, s, [a, b, c] + rest) ==
            Run(order, Step(order, Step(order, Step(order, s, a), b), c), rest)
  {
    var s1 := Step(order, s, a);
    var s2 := Step(order, s1, b);
    RunAppend(order, s, [a], [b] + ([c] + rest));
    RunAppend(order, s1, [b], [c] + rest);
    RunAppend(order, s2, [c], rest);
    OneStep(order, s, a);
    OneStep(order, s1, b);
    OneStep(order, s2, c);
    assert [a, b, c] + rest == [a] + ([b] + ([c] + rest));
  }

  // One undisturbed turn of the loop, from one step to the next.
  function Round(draw: P.Draw): seq<Label> {
    [Attempt(Delivered, draw), Persist, Prepare]
  }

  lemma RoundRuns(order: Order, s: State, draw: P.Draw)
    requires s.runner.Ready?
    requires var e := Execute(order, s.world, s.runner.mem, draw);
             e.saga.Some? && NextStep(e.saga.value.status).Some?
    ensures var e, t := Execute(order, s.world, s.runner.mem, draw), Run(order, s, Round(draw));
            && t.runner == Ready(Prepared(e.saga.value))
            && t.world == e.world.(saga := Some(Prepared(e.saga.value)))
  {
    ThreeSteps(order, s, Attempt(Delivered, draw), Persist, Prepare, []);
    assert Round(draw) + [] == Round(draw);
  }

  // A fresh order, at its first item.
  function Start(draw: P.Draw): seq<Label> {
    [Begin, Prepare] + Round(draw)
  }

  lemma StartRuns(order: Order, w: World, draw: P.Draw)
    requires w.saga.None?
    ensures var t, mem := Run(order, Initial(w), Start(draw)), Saga(Reserving, None, []);
            && t.runner == Ready(mem) && t.world == w.(saga := Some(mem), status := AwaitingPayment)
  {
    var s1 := Step(order, Initial(w), Begin);
    var s2 := Step(order, s1, Prepare);
    RunAppend(order, Initial(w), [Begin, Prepare], Round(draw));
    assert [Begin, Prepare][1..] == [Prepare] && [Prepare][1..] == [];
    assert Run(order, s1, [Prepare]) == s2;
    RoundRuns(order, s2, draw);
  }

  lemma {:induction false} ReleasesRun(order: Order, s: State, i: nat)
    requires s.runner.Undoing? && s.runner.plan == [InventoryStep] && i <= |s.runner.mem.reserved|
    ensures var mem := s.runner.mem;
            var t := Run(order, s, ReleaseLabels(i, |mem.reserved|));
            && t.runner.Undoing? && t.runner.mem == mem && t.runner.plan == [InventoryStep]
            && t.world == s.world.(inv := ReleaseAll(order, s.world.inv, mem.reserved[i..]))
    decreases |s.runner.mem.reserved| - i
  {
    var mem := s.runner.mem;
    if i < |mem.reserved| {
      var s1 := Step(order, s, Release(i, Delivered));
      assert ReleaseLabels(i, |mem.reserved|)[1..] == ReleaseLabels(i + 1, |mem.reserved|);
      assert mem.reserved[i..][1..] == mem.reserved[i + 1..];
      ReleasesRun(order, s1, i + 1);
    }
  }

  // The end of a compensation that only released stock.
  function Close(): seq<Label> {
    [NextUndo, MarkCancelled(Delivered), SaveCancelled(true)]
  }

  lemma CloseRuns(order: Order, s: State)
    requires s.runner.Undoing? && s.runner.plan == [InventoryStep]
    ensures Run(order, s, Close()).world ==
            s.world.(status := OrderCancelled, saga := Some(s.runner.mem.(status := Cancelled)))
  {
    ThreeSteps(order, s, NextUndo, MarkCancelled(Delivered), SaveCancelled(true), []);
    assert Close() + [] == Close();
    assert [InventoryStep][1..] == [];
  }

  lemma AbandonRuns(order: Order, s: State)
    requires s.runner.Ready? && s.world.saga == Some(s.runner.mem)
    requires s.runner.mem.status == Reserving || s.runner.mem.status == Paying
    ensures var tail := ReleaseLabels(0, |s.runner.mem.reserved|) + Close();
            Run(order, Step(order, s, GiveUp(true)), tail).world == Abandon(order, s.world, s.runner.mem)
  {
    var mem, s1 := s.runner.mem, Step(order, s, GiveUp(true));
    var releases := ReleaseLabels(0, |mem.reserved|);
    RunAppend(order, s1, releases, Close());
    ReleasesRun(order, s1, 0);
    assert mem.reserved[0..] == mem.reserved;
    CloseRuns(order, Run(order, s1, releases));
  }

  /** `Finish` is itself a run of the machine, the one in which nothing goes wrong. */
  lemma {:induction false} FinishIsARun(order: Order, s: State, draw: P.Draw)
    requires s.world.saga.Some? && s.runner == Looping(s.world.saga.value)
    ensures Run(order, s, CleanLabels(order, s.world, draw)).world == Finish(order, s.world, draw)
    decreases StepsLeft(order, s.world.saga.value)
  {
    var w := s.world;
    if NextStep(w.saga.value.status).None? {
      assert [Prepare][1..] == [];
    } else {
      var sg := Prepared(w.saga.value);
      var e := Execute(order, w.(saga := Some(sg)), sg, draw);
      var s1 := Step(order, s, Prepare);
      assert s1.runner == Ready(sg) && s1.world == w.(saga := Some(sg));
      var s2 := Step(order, s1, Attempt(Delivered, draw));
      if e.saga.None? {
        assert s2 == s1;
        var tail := ReleaseLabels(0, |sg.reserved|) + Close();
        ThreeSteps(order, s, Prepare, Attempt(Delivered, draw), GiveUp(true), tail);
        assert CleanLabels(order, w, draw) == [Prepare, Attempt(Delivered, draw), GiveUp(true)] + tail;
        AbandonRuns(order, s2);
      } else {
        StepMakesProgress(order, w.(saga := Some(sg)), w.saga.value, draw);
        var s3 := Step(order, s2, Persist);
        ThreeSteps(order, s, Prepare, Attempt(Delivered, draw), Persist, CleanLabels(order, s3.world, draw));
        FinishIsARun(order, s3, draw);
      }
    }
  }

  lemma {:induction false} CleanIsForward(order: Order, w: World, draw: P.Draw)
    requires w.saga.Some? && Confirms(order, w, draw)
    ensures forall l <- CleanLabels(order, w, draw) :: Forward(l)
    decreases StepsLeft(order, w.saga.value)
  {
    if NextStep(w.saga.value.status).Some? {
      var sg := Prepared(w.saga.value);
      var e := Execute(order, w.(saga := Some(sg)), sg, draw);
      StepMakesProgress(order, w.(saga := Some(sg)), w.saga.value, draw);
      assert e.saga.Some?;
      CleanIsForward(order, e.world.(saga := e.saga), draw);
    }
  }

  lemma {:induction false} FinishAgrees(order: Order, w: World, draw: P.Draw)
    requires Decided(order, w) && Agrees(order, w, draw) && Confirms(order, w, draw)
    ensures Agrees(order, Finish(order, w, draw), draw)
    decreases if w.saga.None? then |order.items| + 5 else StepsLeft(order, w.saga.value)
  {
    if w.saga.None? {
      FinishAgrees(order, w.(saga := Some(NEW_SAGA)), draw);
    } else if NextStep(w.saga.value.status).Some? {
      var sg := Prepared(w.saga.value);
      var w1 := w.(saga := Some(sg));
      var e := Execute(order, w1, sg, draw);
      StepMakesProgress(order, w1, w.saga.value, draw);
      ExecuteDecides(order, w1, sg, draw);
      assert e.saga.Some?;
      assert Agrees(order, e.world, draw);
      FinishAgrees(order, e.world.(saga := e.saga), draw);
    }
  }

  /* ---------- The verdict of the payment ---------- */

  predicate SameSavePayments(a: World, b: World) {
    a.saga == b.saga && a.status == b.status && a.inv == b.inv
  }

  predicate PastPayment(w: World) {
    w.saga.Some? && (NextStep(w.saga.value.status) == Some(ConfirmStep) || NextStep(w.saga.value.status).None?)
  }

  lemma PaymentsAreNotReadAgain(order: Order, a: World, b: World, d: P.Draw, d': P.Draw)
    requires SameSavePayments(a, b) && PastPayment(a)
    ensures SameSavePayments(Finish(order, a, d), Finish(order, b, d'))
  {
    if NextStep(a.saga.value.status).Some? {
      var sg := Prepared(a.saga.value);
      var a1 := Execute(order, a.(saga := Some(sg)), sg, d);
      assert a1.saga == Some(sg.(status := Confirmed));
      assert Finish(order, a, d) == a1.world.(saga := a1.saga);
      var b1 := Execute(order, b.(saga := Some(sg)), sg, d');
      assert Finish(order, b, d') == b1.world.(saga := b1.saga);
    }
  }

  /** The saga takes a payment that failed for one that succeeded: whichever verdict chance
      gives, saga, order, stock and reservations end the same. */
  lemma {:induction false} VerdictIsIgnored(order: Order, w: World, d: P.Draw, d': P.Draw)
    requires d.payment == d'.payment
    ensures SameSavePayments(Finish(order, w, d), Finish(order, w, d'))
    decreases if w.saga.None? then |order.items| + 5 else StepsLeft(order, w.saga.value)
  {
    if w.saga.None? {
      VerdictIsIgnored(order, w.(saga := Some(NEW_SAGA)), d, d');
    } else if NextStep(w.saga.value.status).Some? {
      var sg := Prepared(w.saga.value);
      var w1 := w.(saga := Some(sg));
      var a, b := Execute(order, w1, sg, d), Execute(order, w1, sg, d');
      StepMakesProgress(order, w1, w.saga.value, d);
      assert a.saga == b.saga;
      if a.saga.Some? {
        if NextStep(sg.status) == Some(PaymentStep) {
          PaymentsAreNotReadAgain(order, a.world.(saga := a.saga), b.world.(saga := b.saga), d, d');
        } else {
          VerdictIsIgnored(order, a.world.(saga := a.saga), d, d');
        }
      }
    }
  }

  /* ---------- Cancelling past the saga ---------- */

  predicate HasStepsLeft(w: World) {
    w.saga.None? || NextStep(w.saga.value.status).Some?
  }

  // The reference run looks at the order row only once it has no step left.
  lemma {:induction false} FinishOverwritesStatus(order: Order, w: World, draw: P.Draw)
    ensures Finish(order, w.(status := OrderCancelled), draw) == Finish(order, w, draw) <==>
      HasStepsLeft(w) || w.status == OrderCancelled
    decreases if w.saga.None? then |order.items| + 5 else StepsLeft(order, w.saga.value)
  {
    var c := w.(status := OrderCancelled);
    if w.saga.None? {
      FinishOverwritesStatus(order, w.(saga := Some(NEW_SAGA)), draw);
      assert c.(saga := Some(NEW_SAGA)) == w.(saga := Some(NEW_SAGA)).(status := OrderCancelled);
    } else if NextStep(w.saga.value.status).Some? {
      var sg := Prepared(w.saga.value);
      var w1, c1 := w.(saga := Some(sg)), c.(saga := Some(sg));
      var e, f := Execute(order, w1, sg, draw), Execute(order, c1, sg, draw);
      assert f.saga == e.saga;
      StepMakesProgress(order, w1, w.saga.value, draw);
      if e.saga.Some? {
        var w2 := e.world.(saga := e.saga);
        if NextStep(sg.status) == Some(StartStep) || NextStep(sg.status) == Some(ConfirmStep) {
          assert f.world.(saga := f.saga) == w2;
        } else {
          assert f.world.(saga := f.saga) == w2.(status := OrderCancelled);
          FinishOverwritesStatus(order, w2, draw);
        }
      }
    }
  }

  // The saga the process works with: its own copy, or the stored row when it is not running.
  function InHand(s: State): Option<Saga> {
    if s.runner.Idle? then s.world.saga else Some(s.runner.mem)
  }

  function WorldInHand(s: State): World {
    s.world.(saga := InHand(s))
  }

  // The process is not compensating, and its copy is the stored one unless a step has just
  // been executed.
  predicate OnTrack(s: State) {
    match s.runner
    case Idle => true
    case Looping(mem) => s.world.saga == Some(mem)
    case Ready(mem) => s.world.saga == Some(mem) && NextStep(mem.status).Some? && Prepared(mem) == mem
    case Executed(_) => true
    case _ => false
  }

  // What is left to do from here when nothing goes wrong.
  function Onward(order: Order, s: State, draw: P.Draw): seq<Label>
    requires OnTrack(s)
  {
    match s.runner
    case Idle => [Begin] + CleanLabels(order, Step(order, s, Begin).world, draw)
    case Looping(mem) => CleanLabels(order, s.world, draw)
    case Ready(mem) => CleanLabels(order, s.world, draw)[1..]
    case Executed(mem) => [Persist] + CleanLabels(order, WorldInHand(s), draw)
  }

  /** From any point on its way the undisturbed process leaves the world that the reference
      run makes of the saga in hand. */
  lemma OnwardFinishes(order: Order, s: State, draw: P.Draw)
    requires OnTrack(s)
    ensures Run(order, s, Onward(order, s, draw)).world == Finish(order, WorldInHand(s), draw)
  {
    match s.runner
    case Idle =>
      assert Onward(order, s, draw)[1..] == CleanLabels(order, Step(order, s, Begin).world, draw);
      BegunFinishes(order, s, draw);
    case Looping(mem) =>
      FinishIsARun(order, s, draw);
      assert WorldInHand(s) == s.world;
    case Ready(mem) =>
      var top := s.(runner := Looping(mem));
      FinishIsARun(order, top, draw);
      assert Step(order, top, Prepare) == s && CleanLabels(order, s.world, draw)[0] == Prepare;
      assert WorldInHand(s) == s.world;
    case Executed(mem) =>
      assert Onward(order, s, draw)[1..] == CleanLabels(order, WorldInHand(s), draw);
      FinishIsARun(order, Step(order, s, Persist), draw);
  }

  lemma BegunFinishes(order: Order, s: State, draw: P.Draw)
    requires s.runner.Idle?
    ensures var s1 := Step(order, s, Begin);
            Run(order, s1, CleanLabels(order, s1.world, draw)).world == Finish(order, s.world, draw)
    ensures WorldInHand(s) == s.world
  {
    var s1 := Step(order, s, Begin);
    if s1.runner.Idle? {
      OneStep(order, s1, Prepare);
    } else {
      FinishIsARun(order, s1, draw);
    }
  }

  /** Cancelling the order row directly does not stop the saga.  At any point of a process on its
      way, or before its restart, the order ends as if nobody had cancelled it if and only if
      the saga in hand has steps left, or the row was cancelled anyway. */
  lemma DirectCancelIsIgnored(order: Order, s: State, draw: P.Draw)
    requires OnTrack(s)
    ensures var s' := Step(order, s, DirectCancel);
            && OnTrack(s')
            && (Run(order, s', Onward(order, s', draw)).world == Run(order, s, Onward(order, s, draw)).world <==>
                HasStepsLeft(WorldInHand(s)) || s.world.status == OrderCancelled)
  {
    var s' := Step(order, s, DirectCancel);
    OnwardFinishes(order, s, draw);
    OnwardFinishes(order, s', draw);
    assert WorldInHand(s') == WorldInHand(s).(status := OrderCancelled);
    FinishOverwritesStatus(order, WorldInHand(s), draw);
  }

  /* ---------- What a resumed saga ends up holding ---------- */

  // The order holds its i-th item: a live reservation of the quantity it lists.
  predicate HeldAt(order: Order, inv: I.Tables, i: nat)
    requires i < |order.items|
  {
    var k := KeyOf(order, order.items[i].product);
    k in inv.reservations && inv.reservations[k] == I.Reservation(order.items[i].quantity, I.Reserved)
  }

  ghost predicate HoldsAll(order: Order, inv: I.Tables) {
    forall i :: 0 <= i < |order.items| ==> HeldAt(order, inv, i)
  }

  // The first item a stored saga will still reserve: it goes by the number recorded.
  function ResumesAt(order: Order, sg: Saga): nat {
    if sg.status == Pending || sg.status == Reserving then |sg.reserved| else |order.items|
  }

  // The item, or the same quantity of the same product, is listed at or after n.
  ghost predicate ListedFrom(items: seq<Item>, n: nat, item: Item) {
    exists j :: n <= j < |items| && items[j].product == item.product && items[j].quantity == item.quantity
  }

  predicate Confirms(order: Order, w: World, draw: P.Draw) {
    Finish(order, w, draw).saga.Some? && Finish(order, w, draw).saga.value.status == Confirmed
  }

  // A granted reservation is held, and disturbs nothing that was there.
  lemma ReserveHolds(order: Order, w: World, sg: Saga, i: nat)
    requires |sg.reserved| < |order.items| && ExecuteInventory(order, w, sg).saga.Some? && i < |order.items|
    ensures var inv, idx := ExecuteInventory(order, w, sg).world.inv, |sg.reserved|;
            var k := KeyOf(order, order.items[i].product);
            && (k in w.inv.reservations ==> k in inv.reservations && inv.reservations[k] == w.inv.reservations[k])
            && (HeldAt(order, inv, i) <==>
                  || HeldAt(order, w.inv, i)
                  || (order.items[idx].product == order.items[i].product
                      && order.items[idx].quantity == order.items[i].quantity))
  {
  }

  // What a confirmed run holds of one item: what was held at the start, or is listed from the
  // resume point on.  A row that was released stays released.
  lemma {:induction false} FinishHolds(order: Order, w: World, draw: P.Draw, i: nat)
    requires w.saga.Some? && Confirms(order, w, draw) && i < |order.items|
    ensures HeldAt(order, Finish(order, w, draw).inv, i) <==>
      HeldAt(order, w.inv, i) || ListedFrom(order.items, ResumesAt(order, w.saga.value), order.items[i])
    ensures var k, end := KeyOf(order, order.items[i].product), Finish(order, w, draw).inv;
            k in w.inv.reservations ==> k in end.reservations && end.reservations[k] == w.inv.reservations[k]
    decreases StepsLeft(order, w.saga.value)
  {
    if NextStep(w.saga.value.status).Some? {
      var sg := Prepared(w.saga.value);
      var w1 := w.(saga := Some(sg));
      var e := Execute(order, w1, sg, draw);
      StepMakesProgress(order, w1, w.saga.value, draw);
      assert e.saga.Some?;
      FinishHolds(order, e.world.(saga := e.saga), draw, i);
      if NextStep(sg.status) == Some(InventoryStep) && |sg.reserved| < |order.items| {
        ReserveHolds(order, w1, sg, i);
        ListedFromNext(order.items, |sg.reserved|, order.items[i]);
      }
    }
  }

  lemma ListedFromNext(items: seq<Item>, n: nat, item: Item)
    requires n < |items|
    ensures ListedFrom(items, n, item) <==>
      (items[n].product == item.product && items[n].quantity == item.quantity) || ListedFrom(items, n + 1, item)
  {
  }

  /** The saga resumes by index, and recovery may read the items in another order than the
      request listed them.  Whatever was recorded and whatever has landed, a restart that ends
      confirmed holds every item exactly when each item before the resume point is held already
      at the restart, or listed again behind it. */
  lemma ResumeByIndex(order: Order, w: World, draw: P.Draw)
    requires w.saga.Some? && Confirms(order, w, draw)
    ensures HoldsAll(order, Finish(order, w, draw).inv) <==>
      forall i :: 0 <= i < ResumesAt(order, w.saga.value) && i < |order.items| ==>
        HeldAt(order, w.inv, i) || ListedFrom(order.items, ResumesAt(order, w.saga.value), order.items[i])
  {
    var n := ResumesAt(order, w.saga.value);
    forall i | 0 <= i < |order.items|
      ensures HeldAt(order, Finish(order, w, draw).inv, i) <==>
        HeldAt(order, w.inv, i) || ListedFrom(order.items, n, order.items[i])
      ensures n <= i ==> ListedFrom(order.items, n, order.items[i])
    {
      FinishHolds(order, w, draw, i);
    }
  }

  /* ---------- When an order is confirmed ---------- */

  ghost predicate DistinctProducts(items: seq<Item>) {
    forall i, j :: 0 <= i < j < |items| ==> items[i].product != items[j].product
  }

  ghost predicate InStockFrom(order: Order, inv: I.Tables, n: nat) {
    forall i :: n <= i < |order.items| ==> I.InStock(inv, order.items[i].product, order.items[i].quantity)
  }

  // The run ended one way or the other, and the order row says which.
  predicate Ends(w: World, confirmed: bool) {
    && w.saga.Some? && w.saga.value.status == (if confirmed then Confirmed else Cancelled)
    && w.status == if confirmed then OrderPaid else OrderCancelled
  }

  // From the last reservation on only the amount decides.
  lemma EndsByAmount(order: Order, w: World, draw: P.Draw)
    requires w.saga.Some? && w.saga.value.status == Reserved
    requires order.id !in w.pay.byOrder && draw.payment !in w.pay.payments
    ensures Ends(Finish(order, w, draw), order.total >= 0)
  {
    P.ChargeAnswers(w.pay, order.id, order.total, draw);
    var paying := w.saga.value.(status := Paying);
    var e := Execute(order, w.(saga := Some(paying)), paying, draw);
    if e.saga.Some? {
      var w1 := e.world.(saga := e.saga);
      assert Finish(order, w, draw) == Finish(order, w1, draw);
      var w2 := w1.(status := OrderPaid, saga := Some(e.saga.value.(status := Confirmed)));
      assert Finish(order, w1, draw) == Finish(order, w2, draw) == w2;
    }
  }

  // While it reserves, the stock of the items ahead decides.
  lemma {:induction false} EndsByStock(order: Order, w: World, draw: P.Draw)
    requires w.saga.Some? && w.saga.value.status == Reserving && |w.saga.value.reserved| <= |order.items|
    requires DistinctProducts(order.items)
    requires forall i :: |w.saga.value.reserved| <= i < |order.items| ==>
      KeyOf(order, order.items[i].product) !in w.inv.reservations
    requires order.id !in w.pay.byOrder && draw.payment !in w.pay.payments
    ensures Ends(Finish(order, w, draw), order.total >= 0 && InStockFrom(order, w.inv, |w.saga.value.reserved|))
    decreases |order.items| - |w.saga.value.reserved|
  {
    var sg := w.saga.value;
    var n := |sg.reserved|;
    var e := Execute(order, w, sg, draw);
    assert w == w.(saga := Some(sg));
    if n == |order.items| {
      assert Finish(order, w, draw) == Finish(order, w.(saga := e.saga), draw);
      EndsByAmount(order, w.(saga := e.saga), draw);
    } else {
      var item := order.items[n];
      I.ReserveAnswers(w.inv, KeyOf(order, item.product), item.quantity);
      assert e.saga.Some? <==> I.InStock(w.inv, item.product, item.quantity);
      if e.saga.Some? {
        var w1 := e.world.(saga := e.saga);
        assert Finish(order, w, draw) == Finish(order, w1, draw);
        StockAhead(order, w.inv, w1.inv, n);
        EndsByStock(order, w1, draw);
      }
    }
  }

  // One reservation leaves the stock of the other products alone.
  lemma StockAhead(order: Order, inv: I.Tables, inv': I.Tables, n: nat)
    requires n < |order.items| && DistinctProducts(order.items)
    requires order.items[n].product in inv.stock
    requires I.InStock(inv, order.items[n].product, order.items[n].quantity)
    requires I.Taken(inv, inv', KeyOf(order, order.items[n].product), order.items[n].quantity)
    ensures InStockFrom(order, inv, n) <==> InStockFrom(order, inv', n + 1)
  {
    forall i | n < i < |order.items|
      ensures I.InStock(inv, order.items[i].product, order.items[i].quantity) <==>
        I.InStock(inv', order.items[i].product, order.items[i].quantity)
    {
    }
  }

  /** When an order gets through: a fresh order of different products whose run is undisturbed
      ends confirmed and paid exactly when every item is in stock, the last units included, and
      its total is one the payment service takes; and otherwise cancelled. */
  lemma ConfirmedIffInStock(order: Order, w: World, draw: P.Draw)
    requires Fresh(order, w) && DistinctProducts(order.items) && draw.payment !in w.pay.payments
    ensures Ends(Finish(order, w, draw),
                 order.total >= 0 &&
                 forall item <- order.items :: item.quantity > 0 && item.product in w.inv.stock &&
                                               w.inv.stock[item.product].available >= item.quantity)
  {
    var w1 := w.(saga := Some(NEW_SAGA));
    var w2 := w.(status := AwaitingPayment, saga := Some(NEW_SAGA.(status := Reserving)));
    assert Finish(order, w, draw) == Finish(order, w1, draw) == Finish(order, w2, draw);
    EndsByStock(order, w2, draw);
  }

  /* ---------- Items read back in another order ---------- */

  /** The smallest order it goes wrong for.  A fresh order of x and y reserves and records x
      and crashes; recovery reads y first, so it takes y for recorded and x for the next: the
      order ends confirmed and paid, and y was never reserved. */
  lemma ReorderedResumeSkipsAnItem(a: Order, b: Order, w: World, x: Item, y: Item, draw: P.Draw)
    requires Fresh(a, w) && a.items == [x, y] && b == a.(items := [y, x]) && x.product != y.product
    requires I.InStock(w.inv, x.product, x.quantity)
    requires a.total > 0 && draw.payment !in w.pay.payments
    ensures var crashed := Run(a, Initial(w), Start(draw) + Round(draw) + [Crash]).world;
            var end := Finish(b, crashed, draw);
            && end.saga.Some? && end.saga.value.status == Confirmed && end.status == OrderPaid
            && KeyOf(b, y.product) !in end.inv.reservations
  {
    StartRuns(a, w, draw);
    var s1 := Run(a, Initial(w), Start(draw));
    RoundRuns(a, s1, draw);
    var s2 := Run(a, s1, Round(draw));
    RunAppend(a, Initial(w), Start(draw), Round(draw));
    RunAppend(a, Initial(w), Start(draw) + Round(draw), [Crash]);
    assert [Crash][1..] == [];
    assert Run(a, s2, [Crash]) == Step(a, s2, Crash);
    var x1 := ReservedItem(x.product, x.quantity);
    assert s2.world.saga == Some(Saga(Reserving, None, [] + [x1])) && [] + [x1] == [x1];
    ResumeSkips(b, s2.world, x, y, draw);
  }

  // The restart itself.
  lemma ResumeSkips(b: Order, w: World, x: Item, y: Item, draw: P.Draw)
    requires b.items == [y, x] && x.product != y.product && x.quantity > 0
    requires w.saga == Some(Saga(Reserving, None, [ReservedItem(x.product, x.quantity)]))
    requires KeyOf(b, y.product) !in w.inv.reservations && KeyOf(b, x.product) in w.inv.reservations
    requires w.inv.reservations[KeyOf(b, x.product)] == I.Reservation(x.quantity, I.Reserved)
    requires P.ProcessPaymentTx(w.pay, b.id, b.total, draw).reply.Charged?
    ensures var end := Finish(b, w, draw);
            && end.saga.Some? && end.saga.value.status == Confirmed && end.status == OrderPaid
            && KeyOf(b, y.product) !in end.inv.reservations
  {
    var x1 := ReservedItem(x.product, x.quantity);
    var w1 := w.(saga := Some(Saga(Reserving, None, [x1] + [x1])));
    assert Execute(b, w, w.saga.value, draw) == Exec(w, w1.saga);
    assert Finish(b, w, draw) == Finish(b, w1, draw);
    var w2 := w.(saga := Some(Saga(Reserved, None, [x1] + [x1])));
    assert Finish(b, w1, draw) == Finish(b, w2, draw);
    var r := P.ProcessPaymentTx(w.pay, b.id, b.total, draw);
    var w3 := w.(pay := r.db, saga := Some(Saga(Paid, Some(r.reply.id), [x1] + [x1])));
    assert Finish(b, w2, draw) == Finish(b, w3, draw);
    var w4 := w3.(status := OrderPaid, saga := Some(w3.saga.value.(status := Confirmed)));
    assert Finish(b, w3, draw) == Finish(b, w4, draw) == w4;
  }
}
