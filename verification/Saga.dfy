/**
The order saga: its steps, and the machine made of the stored saga row, the order row, the
inventory and payment tables, and the one process that drives the saga.

Every transition of the machine performs at most one interaction with the outside world (a
remote call, an order update or a save of the saga row), so a crash, a lost message or
another order's traffic can fall between any two of them.  A run is any sequence of labels.
*/
module Saga {
  import opened Common
  import I = Inventory
  import P = Payments

  datatype Status =
    | Pending | Reserving | Reserved | Paying | Paid | Confirming | Confirmed
    | Compensating | Cancelled | Failed

  datatype OrderStatus =
    | OrderPending | AwaitingPayment | OrderPaid | Processing | Shipped | OrderDelivered
    | OrderCancelled | OrderRefunded

  // order_items.quantity is a non-negative 32-bit column, so the saga's cast to int32 is the
  // identity on it.
  type Quantity = q: int | 0 <= q <= 0x7fff_ffff

  datatype Item = Item(product: ProductId, quantity: Quantity, price: int)

  datatype Order = Order(id: OrderId, items: seq<Item>, total: int)

  datatype ReservedItem = ReservedItem(product: ProductId, quantity: int)

  // The saga row without its diagnostic columns.
  datatype Saga = Saga(status: Status, payment: Option<PaymentId>, reserved: seq<ReservedItem>)

  const NEW_SAGA := Saga(Pending, None, [])

  datatype World = World(
    saga: Option<Saga>,
    status: OrderStatus,
    inv: I.Tables,
    pay: P.Tables)

  /* ---------- The steps ---------- */

  datatype StepName = StartStep | InventoryStep | PaymentStep | ConfirmStep

  function NextStep(status: Status): Option<StepName> {
    match status
    case Pending => Some(StartStep)
    case Reserving => Some(InventoryStep)
    case Reserved | Paying => Some(PaymentStep)
    case Paid | Confirming => Some(ConfirmStep)
    case Confirmed | Compensating | Cancelled | Failed => None
  }

  predicate IsTerminal(status: Status) {
    status == Confirmed || status == Cancelled || status == Failed
  }

  // The status a step fixes in the row before it acts.
  function Prepared(sg: Saga): Saga {
    match NextStep(sg.status)
    case Some(PaymentStep) => sg.(status := Paying)
    case Some(ConfirmStep) => sg.(status := Confirming)
    case _ => sg
  }

  function Plan(failed: StepName): seq<StepName> {
    if failed == ConfirmStep then [PaymentStep, InventoryStep] else [InventoryStep]
  }

  // The world after a step's remote effect, and the saga it leaves in memory if the reply
  // was a success.
  datatype Exec = Exec(world: World, saga: Option<Saga>)

  function KeyOf(order: Order, product: ProductId): I.Key {
    I.Key(order.id, product)
  }

  function ExecuteInventory(order: Order, w: World, sg: Saga): Exec {
    var idx := |sg.reserved|;
    if idx >= |order.items| then
      Exec(w, Some(sg.(status := Reserved)))
    else
      var item := order.items[idx];
      var r := I.ReserveTx(w.inv, KeyOf(order, item.product), item.quantity);
      Exec(w.(inv := r.db),
           if r.reply.Ok? then
             Some(sg.(reserved := sg.reserved + [ReservedItem(item.product, item.quantity)]))
           else None)
  }

  function ExecutePayment(order: Order, w: World, sg: Saga, draw: P.Draw): Exec {
    var r := P.ProcessPaymentTx(w.pay, order.id, order.total, draw);
    Exec(w.(pay := r.db),
         if r.reply.Charged? then Some(sg.(payment := Some(r.reply.id), status := Paid)) else None)
  }

  function Execute(order: Order, w: World, sg: Saga, draw: P.Draw): Exec {
    match NextStep(sg.status)
    case Some(StartStep) => Exec(w.(status := AwaitingPayment), Some(sg.(status := Reserving)))
    case Some(InventoryStep) => ExecuteInventory(order, w, sg)
    case Some(PaymentStep) => ExecutePayment(order, w, sg, draw)
    case Some(ConfirmStep) => Exec(w.(status := OrderPaid), Some(sg.(status := Confirmed)))
    case None => Exec(w, None)
  }

  // The tables after the release of one recorded item.
  function ReleaseItem(order: Order, inv: I.Tables, item: ReservedItem): I.Result {
    I.ReleaseTx(inv, KeyOf(order, item.product), item.quantity)
  }

  function RefundCharge(pay: P.Tables, rid: RefundId, pid: PaymentId, base: string): P.Result {
    P.RefundTx(pay, rid, pid, 0, P.RefundKey(base, pid))
  }

  /* ---------- The machine ---------- */

  // What the driving process is about to do, with its in-memory saga.
  datatype Runner =
    | Idle
    | Looping(mem: Saga)                                   // top of the ProcessOrder loop
    | Ready(mem: Saga)                                     // prepared, about to execute
    | Executed(mem: Saga)                                  // executed, about to save
    | Undoing(mem: Saga, plan: seq<StepName>, landed: set<nat>)
    | Closing(mem: Saga)                                   // order cancelled, about to save
    | CancelRefunding(mem: Saga)                           // CancelOrder: refund first,
    | CancelReleasing(mem: Saga, landed: set<nat>)         // then release every item,
    | CancelMarking(mem: Saga)                             // then cancel the order,
    | CancelSaving(mem: Saga)                              // then save the saga

  // `reached` is a history variable: the furthest forward status ever stored.
  datatype State = State(world: World, runner: Runner, reached: nat)

  // A message can be lost on its way there or on its way back.
  datatype Outcome = Delivered | Dropped | ReplyLost

  datatype Label =
    | Begin                                                // ProcessOrder called, or recovery
    | Prepare
    | Attempt(outcome: Outcome, draw: P.Draw)
    | Persist
    | GiveUp(saved: bool)                                  // retries exhausted
    | Refund(outcome: Outcome, refund: RefundId, base: string)
    | Release(index: nat, outcome: Outcome)
    | NextUndo                                             // compensation step over, failed or not
    | MarkCancelled(outcome: Outcome)
    | SaveCancelled(saved: bool)
    | BeginCancel                                          // CancelOrder called
    | CancelReleased                                       // every release acknowledged
    | DirectCancel                                         // the order row is cancelled past the saga
    | Crash                                                // also: a save or call error that ends the run
    | OtherInventory(invCall: I.Call)
    | OtherPayment(payCall: P.Call)

  function Rank(status: Status): nat {
    match status
    case Reserving => 1
    case Reserved => 2
    case Paying => 3
    case Paid => 4
    case Confirming => 5
    case Confirmed => 6
    case _ => 0
  }

  function Store(s: State, sg: Saga): State {
    s.(world := s.world.(saga := Some(sg)),
       reached := if Rank(sg.status) > s.reached then Rank(sg.status) else s.reached)
  }

  function StoreIf(s: State, saved: bool, sg: Saga): State {
    if saved then Store(s, sg) else s
  }

  function BeginStep(s: State): State {
    if s.world.saga.None? then
      Store(s, NEW_SAGA).(runner := Looping(NEW_SAGA))
    else if IsTerminal(s.world.saga.value.status) then s
    else s.(runner := Looping(s.world.saga.value))
  }

  function PrepareStep(s: State, mem: Saga): State {
    if NextStep(mem.status).None? then s.(runner := Idle)
    else if Prepared(mem) == mem then s.(runner := Ready(mem))
    else Store(s, Prepared(mem)).(runner := Ready(Prepared(mem)))
  }

  function AttemptStep(order: Order, s: State, mem: Saga, outcome: Outcome, draw: P.Draw): State {
    var e := Execute(order, s.world, mem, draw);
    match outcome
    case Dropped => s
    case ReplyLost => s.(world := e.world)
    case Delivered => s.(world := e.world, runner := if e.saga.Some? then Executed(e.saga.value) else s.runner)
  }

  function GiveUpStep(s: State, mem: Saga, saved: bool): State {
    if mem.status == Pending then
      StoreIf(s, saved, mem.(status := Failed)).(runner := Idle)
    else if NextStep(mem.status).None? then s
    else
      var mem' := mem.(status := Compensating);
      StoreIf(s, saved, mem').(runner := Undoing(mem', Plan(NextStep(mem.status).value), {}))
  }

  function RefundStep(s: State, outcome: Outcome, rid: RefundId, base: string): State {
    var r := s.runner;
    if !(r.CancelRefunding? || (r.Undoing? && r.plan != [] && r.plan[0] == PaymentStep)) || outcome == Dropped then s
    else if r.mem.payment.None? then s
    else
      var result := RefundCharge(s.world.pay, rid, r.mem.payment.value, base);
      var s' := s.(world := s.world.(pay := result.db));
      if outcome == ReplyLost then s'
      else if r.Undoing? then s'.(runner := Undoing(r.mem, r.plan, r.landed + {0}))
      else if result.reply.Err? then s'
      else s'.(runner := CancelReleasing(r.mem, {}))
  }

  predicate MayRelease(r: Runner) {
    r.CancelReleasing? || (r.Undoing? && r.plan != [] && r.plan[0] == InventoryStep)
  }

  function ReleaseStep(order: Order, s: State, i: nat, outcome: Outcome): State {
    var r := s.runner;
    if !MayRelease(r) || i >= |r.mem.reserved| || outcome == Dropped then s
    else
      var result := ReleaseItem(order, s.world.inv, r.mem.reserved[i]);
      var s' := s.(world := s.world.(inv := result.db));
      if outcome == ReplyLost || result.reply.Err? then s'
      else if r.Undoing? then s'.(runner := Undoing(r.mem, r.plan, r.landed + {i}))
      else s'.(runner := CancelReleasing(r.mem, r.landed + {i}))
  }

  function MarkStep(s: State, outcome: Outcome): State {
    var s' := if outcome == Dropped then s else s.(world := s.world.(status := OrderCancelled));
    match s.runner
    case Undoing(mem, plan, _) => if plan == [] then s'.(runner := Closing(mem)) else s
    case CancelMarking(mem) => s'.(runner := if outcome == Delivered then CancelSaving(mem) else Idle)
    case _ => s
  }

  // Another order's refund, or a refund of a payment of another order.
  predicate Foreign(order: Order, pay: P.Tables, c: P.Call) {
    match c
    case ProcessPayment(o, _, _) => o != order.id
    case RefundPayment(_, pid, _, key) =>
      && (pid in pay.payments ==> pay.payments[pid].order != order.id)
      && (key.RefundKey? ==> key.payment == pid)
  }

  /** One transition.  A label that does not apply leaves the state alone. */
  function Step(order: Order, s: State, l: Label): State {
    match l
    case Begin => if s.runner.Idle? then BeginStep(s) else s
    case Prepare => if s.runner.Looping? then PrepareStep(s, s.runner.mem) else s
    case Attempt(outcome, draw) => if s.runner.Ready? then AttemptStep(order, s, s.runner.mem, outcome, draw) else s
    case Persist => if s.runner.Executed? then Store(s, s.runner.mem).(runner := Looping(s.runner.mem)) else s
    case GiveUp(saved) => if s.runner.Ready? then GiveUpStep(s, s.runner.mem, saved) else s
    case Refund(outcome, rid, base) => RefundStep(s, outcome, rid, base)
    case Release(i, outcome) => ReleaseStep(order, s, i, outcome)
    case NextUndo =>
      if s.runner.Undoing? && s.runner.plan != [] then
        s.(runner := Undoing(s.runner.mem, s.runner.plan[1..], {}))
      else s
    case MarkCancelled(outcome) => MarkStep(s, outcome)
    case SaveCancelled(saved) =>
      if s.runner.Closing? || s.runner.CancelSaving? then
        StoreIf(s, saved, s.runner.mem.(status := Cancelled)).(runner := Idle)
      else s
    case BeginCancel =>
      if s.runner.Idle? && s.world.saga.Some? then
        var mem := s.world.saga.value;
        s.(runner := if mem.payment.Some? then CancelRefunding(mem) else CancelReleasing(mem, {}))
      else s
    case CancelReleased =>
      if s.runner.CancelReleasing? && forall i :: 0 <= i < |s.runner.mem.reserved| ==> i in s.runner.landed then
        s.(runner := CancelMarking(s.runner.mem))
      else s
    case DirectCancel => s.(world := s.world.(status := OrderCancelled))
    case Crash => s.(runner := Idle)
    case OtherInventory(c) =>
      if c.key.order != order.id then s.(world := s.world.(inv := I.Apply(s.world.inv, c).db)) else s
    case OtherPayment(c) =>
      if Foreign(order, s.world.pay, c) then s.(world := s.world.(pay := P.Apply(s.world.pay, c).db)) else s
  }

  function Run(order: Order, s: State, labels: seq<Label>): State
    decreases |labels|
  {
    if labels == [] then s else Run(order, Step(order, s, labels[0]), labels[1..])
  }

  /** Where every saga starts: an order just created, nothing reserved, nothing paid. */
  ghost predicate Fresh(order: Order, w: World) {
    && w.saga.None? && w.status == OrderPending
    && I.WellFormed(w.inv) && (forall k <- w.inv.reservations :: k.order != order.id)
    && P.WellFormed(w.pay) && P.KeysHonest(w.pay) && order.id !in w.pay.byOrder
  }

  function Initial(w: World): State {
    State(w, Idle, 0)
  }

  lemma {:induction false} RunAppend(order: Order, s: State, a: seq<Label>, b: seq<Label>)
    ensures Run(order, s, a + b) == Run(order, Run(order, s, a), b)
    decreases |a|
  {
    if a == [] {
      assert a + b == b;
    } else {
      assert (a + b)[1..] == a[1..] + b;
      RunAppend(order, Step(order, s, a[0]), a[1..], b);
    }
  }

  lemma OneStep(order: Order, s: State, l: Label)
    ensures Run(order, s, [l]) == Step(order, s, l)
  {
    assert [l][1..] == [];
  }

  /* ---------- Termination ---------- */

  // Step executions left before the saga needs nothing more.
  function StepsLeft(order: Order, sg: Saga): nat {
    match sg.status
    case Pending => 4 + if |sg.reserved| < |order.items| then |order.items| - |sg.reserved| else 0
    case Reserving => 3 + if |sg.reserved| < |order.items| then |order.items| - |sg.reserved| else 0
    case Reserved | Paying => 2
    case Paid | Confirming => 1
    case _ => 0
  }

  /** Each successful step brings the end exactly one execution closer, so a saga of n items
      takes n + 4 executions from any start and never more from a resumed one. */
  lemma StepMakesProgress(order: Order, w: World, sg: Saga, draw: P.Draw)
    ensures NextStep(sg.status).None? <==> StepsLeft(order, sg) == 0
    ensures StepsLeft(order, Prepared(sg)) == StepsLeft(order, sg)
    ensures var e := Execute(order, w, Prepared(sg), draw);
            e.saga.Some? ==> StepsLeft(order, e.saga.value) == StepsLeft(order, sg) - 1
    ensures StepsLeft(order, NEW_SAGA) == |order.items| + 4
  {
  }
}
