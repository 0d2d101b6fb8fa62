/**
The order service's outbox: CreateOrder writes the order and its event in one transaction;
relays select events under row locks, send them to Kafka inside the transaction, and commit
what became of them.  Any number of relays may run; any of them may fail at any point.
*/
module OrderOutbox {
  import opened Common
  import opened Outbox

  datatype Event = OrderCreated(order: OrderId)

  // A row lock: the relay whose transaction holds it, the row as that relay read it, and
  // how sending it went.
  datatype Lock = Lock(relay: nat, row: Row<Event>, attempt: Option<Attempt>)

  datatype State = State(
    orders: map<OrderId, EventId>,    // order rows; history: the event created with each
    outbox: Tables<Event>,
    began: map<nat, int>,             // open relay transactions and when their poll began
    locks: map<EventId, Lock>,
    clock: int,
    sent: set<EventId>,               // history: acknowledged by Kafka at least once
    polls: map<EventId, nat>)         // history: committed polls that selected the event

  datatype Label =
    | CreateOrder(order: OrderId)
    | Tick(elapsed: nat)
    | Select(relay: nat, ids: set<EventId>)
    | Send(id: EventId, ok: bool)
    | Commit(relay: nat)
    | Rollback(relay: nat)            // crash, statement error or failed commit

  // WHERE processed_at IS NULL AND next_retry_at <= NOW() ... FOR UPDATE SKIP LOCKED
  predicate Selectable(s: State, id: EventId) {
    Pending(s.outbox, id) && s.outbox.rows[id].nextAt <= s.clock && id !in s.locks
  }

  predicate Holds(s: State, relay: nat, id: EventId) {
    id in s.locks && s.locks[id].relay == relay
  }

  function Verdicts(s: State, relay: nat): map<EventId, Verdict<Event>>
    requires relay in s.began
  {
    map id | id in s.locks && Holds(s, relay, id) && s.locks[id].attempt.Some? ::
      Judge(s.locks[id].row, s.locks[id].attempt.value, s.began[relay])
  }

  function Unlocked(s: State, relay: nat): map<EventId, Lock> {
    map id | id in s.locks && !Holds(s, relay, id) :: s.locks[id]
  }

  ghost predicate MayCommit(s: State, relay: nat) {
    relay in s.began && forall id <- s.locks :: Holds(s, relay, id) ==> s.locks[id].attempt.Some?
  }

  ghost predicate MaySelect(s: State, relay: nat, ids: set<EventId>) {
    relay !in s.began && |ids| <= BATCH && forall id <- ids :: Selectable(s, id)
  }

  ghost function Step(s: State, l: Label): State {
    match l
    case CreateOrder(o) =>
      if o in s.orders then s
      else s.(orders := s.orders[o := s.outbox.next], outbox := Append(s.outbox, OrderCreated(o), s.clock))
    case Tick(elapsed) => s.(clock := s.clock + elapsed)
    case Select(r, ids) =>
      if !MaySelect(s, r, ids) then s
      else s.(began := s.began[r := s.clock],
              locks := map id | id in s.locks.Keys + ids ::
                         if id in ids then Lock(r, s.outbox.rows[id], None) else s.locks[id])
    case Send(id, ok) =>
      if id !in s.locks || s.locks[id].attempt.Some? then s
      else s.(locks := s.locks[id := s.locks[id].(attempt := Some(if ok then Sent else Refused))],
              sent := if ok then s.sent + {id} else s.sent)
    case Commit(r) =>
      if !MayCommit(s, r) then s
      else s.(outbox := Settle(s.outbox, Verdicts(s, r)),
              began := s.began - {r},
              locks := Unlocked(s, r),
              polls := map id | id in s.polls.Keys + s.locks.Keys ::
                         Count(s.polls, id) + if Holds(s, r, id) then 1 else 0)
    case Rollback(r) => s.(began := s.began - {r}, locks := Unlocked(s, r))
  }

  ghost function Run(s: State, labels: seq<Label>): State
    decreases |labels|
  {
    if labels == [] then s else Run(Step(s, labels[0]), labels[1..])
  }

  const EMPTY: State := State(map[], Tables(0, map[], map[]), map[], map[], 0, {}, map[])

  /* ---------- The invariant, event by event ---------- */

  predicate Exists(t: Tables<Event>, id: EventId) {
    id in t.rows || id in t.dlq
  }

  // In one table exactly, once created; processed only when sent; failed once per
  // committed poll while pending; dead after the fifth; created with its own order.
  ghost predicate EventOk(s: State, id: EventId) {
    && (id < s.outbox.next <==> Exists(s.outbox, id))
    && !(id in s.outbox.rows && id in s.outbox.dlq)
    && (id >= s.outbox.next ==> Count(s.polls, id) == 0)
    && (Pending(s.outbox, id) ==> s.outbox.rows[id].retries == Count(s.polls, id) < MAX_RETRIES)
    && (Processed(s.outbox, id) ==> id in s.sent && 1 <= Count(s.polls, id) <= MAX_RETRIES)
    && (id in s.outbox.dlq ==> s.outbox.dlq[id].retries == MAX_RETRIES == Count(s.polls, id))
    && (Exists(s.outbox, id) ==>
          EventAt(s.outbox, id).order in s.orders && s.orders[EventAt(s.outbox, id).order] == id)
  }

  // A locked row is still as its relay read it.
  ghost predicate LockOk(s: State, id: EventId) {
    id in s.locks ==>
      && s.locks[id].relay in s.began
      && Pending(s.outbox, id) && s.locks[id].row == s.outbox.rows[id]
      && (s.locks[id].attempt == None || s.locks[id].attempt == Some(Refused)
          || (s.locks[id].attempt == Some(Sent) && id in s.sent))
  }

  ghost predicate OrderOk(s: State, o: OrderId) {
    o in s.orders ==> Exists(s.outbox, s.orders[o]) && EventAt(s.outbox, s.orders[o]) == OrderCreated(o)
  }

  ghost predicate Inv(s: State) {
    && (forall id: EventId :: EventOk(s, id))
    && (forall id: EventId :: LockOk(s, id))
    && (forall o: OrderId :: OrderOk(s, o))
  }

  // What a relay's commit does to one event.
  lemma CommitOne(s: State, r: nat, id: EventId)
    requires MayCommit(s, r) && LockOk(s, id) && EventOk(s, id)
    ensures EventOk(Step(s, Commit(r)), id)
    ensures Exists(s.outbox, id) ==>
      Exists(Step(s, Commit(r)).outbox, id) && EventAt(Step(s, Commit(r)).outbox, id) == EventAt(s.outbox, id)
    ensures !Holds(s, r, id) ==>
      && (Pending(s.outbox, id) ==> Pending(Step(s, Commit(r)).outbox, id))
      && (id in s.outbox.rows ==> Step(s, Commit(r)).outbox.rows[id] == s.outbox.rows[id])
  {
    var t := Step(s, Commit(r)).outbox;
    if Holds(s, r, id) {
      var v := Judge(s.locks[id].row, s.locks[id].attempt.value, s.began[r]);
      assert id in Verdicts(s, r) && Verdicts(s, r)[id] == v;
      assert id in t.rows <==> !v.Bury?;
      assert id in t.dlq <==> v.Bury?;
    } else {
      assert id !in Verdicts(s, r);
      assert id in t.rows <==> id in s.outbox.rows;
      assert id in t.dlq <==> id in s.outbox.dlq;
      assert Count(Step(s, Commit(r)).polls, id) == Count(s.polls, id);
    }
  }

  lemma StepKeepsEvent(s: State, l: Label, id: EventId)
    requires Inv(s)
    ensures EventOk(Step(s, l), id)
  {
    assert EventOk(s, id) && LockOk(s, id);
    match l
    case CreateOrder(o) => assert EventOk(s, s.outbox.next);
    case Commit(r) => if MayCommit(s, r) { CommitOne(s, r, id); }
    case Select(_, _) | Send(_, _) | Rollback(_) | Tick(_) =>
  }

  lemma StepKeepsLock(s: State, l: Label, id: EventId)
    requires Inv(s)
    ensures LockOk(Step(s, l), id)
  {
    assert EventOk(s, id) && LockOk(s, id);
    match l
    case CreateOrder(o) =>
    case Select(r, ids) => assert id in ids && MaySelect(s, r, ids) ==> Selectable(s, id);
    case Commit(r) => if MayCommit(s, r) { CommitOne(s, r, id); }
    case Send(_, _) | Rollback(_) | Tick(_) =>
  }

  lemma StepKeepsOrder(s: State, l: Label, o: OrderId)
    requires Inv(s)
    ensures OrderOk(Step(s, l), o)
  {
    assert OrderOk(s, o);
    match l
    case CreateOrder(_) => assert EventOk(s, s.outbox.next); assert o in s.orders ==> EventOk(s, s.orders[o]);
    case Commit(r) =>
      if MayCommit(s, r) && o in s.orders {
        assert EventOk(s, s.orders[o]) && LockOk(s, s.orders[o]);
        CommitOne(s, r, s.orders[o]);
      }
    case Select(_, _) | Send(_, _) | Rollback(_) | Tick(_) =>
  }

  lemma {:induction false} RunKeepsInv(s: State, labels: seq<Label>)
    requires Inv(s)
    ensures Inv(Run(s, labels))
    decreases |labels|
  {
    if labels != [] {
      var s' := Step(s, labels[0]);
      forall id: EventId ensures EventOk(s', id) { StepKeepsEvent(s, labels[0], id); }
      forall id: EventId ensures LockOk(s', id) { StepKeepsLock(s, labels[0], id); }
      forall o: OrderId ensures OrderOk(s', o) { StepKeepsOrder(s, labels[0], o); }
      RunKeepsInv(s', labels[1..]);
    }
  }

  /* ---------- The claims ---------- */

  /** Outbox conservation, in every run of any number of relays with rollbacks, crashes and
      failed commits: each created event is pending, processed or dead, and only one of
      these, and it is processed only after Kafka acknowledged it. */
  lemma OutboxConservation(labels: seq<Label>, id: EventId)
    ensures var s := Run(EMPTY, labels);
            && Conserved(s.outbox)
            && (Processed(s.outbox, id) ==> id in s.sent)
            && (id < s.outbox.next ==>
                  Pending(s.outbox, id) || Processed(s.outbox, id) || id in s.outbox.dlq)
  {
    var s := Run(EMPTY, labels);
    assert Inv(EMPTY);
    RunKeepsInv(EMPTY, labels);
    forall i: EventId ensures i < s.outbox.next <==> i in s.outbox.rows || i in s.outbox.dlq
    {
      assert EventOk(s, i);
    }
    forall i: EventId ensures !(i in s.outbox.rows && i in s.outbox.dlq) {
      assert EventOk(s, i);
    }
    assert EventOk(s, id);
  }

  /** The retry measure: while pending, an event has been selected by at most four committed
      polls and its count says how many, so the fifth commit settles it; one in the
      dead-letter table was selected by exactly five; a processed one by one to five. */
  lemma SettledByTheFifthPoll(labels: seq<Label>, id: EventId)
    ensures var s := Run(EMPTY, labels);
            && (Pending(s.outbox, id) ==> s.outbox.rows[id].retries == Count(s.polls, id) <= 4)
            && (id in s.outbox.dlq ==> s.outbox.dlq[id].retries == 5 == Count(s.polls, id))
            && (Processed(s.outbox, id) ==> 1 <= Count(s.polls, id) <= 5)
  {
    assert Inv(EMPTY);
    RunKeepsInv(EMPTY, labels);
    assert EventOk(Run(EMPTY, labels), id);
  }

  /** In every run a new order's event is there for the next relay that asks: it is pending, due
      at once and locked by nobody. */
  lemma NewEventIsDue(labels: seq<Label>, o: OrderId, relay: nat)
    requires o !in Run(EMPTY, labels).orders && relay !in Run(EMPTY, labels).began
    ensures var s := Step(Run(EMPTY, labels), CreateOrder(o));
            var id, s' := s.orders[o], Step(s, Select(relay, {s.orders[o]}));
            && Pending(s.outbox, id) && s.outbox.rows[id].event == OrderCreated(o) && s.outbox.rows[id].retries == 0
            && Holds(s', relay, id) && s'.locks[id].row == s.outbox.rows[id]
  {
    assert Inv(EMPTY);
    RunKeepsInv(EMPTY, labels);
    var s := Step(Run(EMPTY, labels), CreateOrder(o));
    assert LockOk(Run(EMPTY, labels), s.orders[o]) && EventOk(Run(EMPTY, labels), s.orders[o]);
    assert MaySelect(s, relay, {s.orders[o]});
  }

  /** In every run an order exists exactly when its event was created, and only one was. */
  lemma OrderAndEventTogether(labels: seq<Label>, o: OrderId)
    ensures var s := Run(EMPTY, labels);
            && (o in s.orders <==>
                exists id: EventId :: Exists(s.outbox, id) && EventAt(s.outbox, id) == OrderCreated(o))
            && forall i: EventId, j: EventId ::
                 (Exists(s.outbox, i) && Exists(s.outbox, j)
                  && EventAt(s.outbox, i) == OrderCreated(o) == EventAt(s.outbox, j)) ==> i == j
  {
    var s := Run(EMPTY, labels);
    assert Inv(EMPTY);
    RunKeepsInv(EMPTY, labels);
    assert OrderOk(s, o);
    forall id: EventId | Exists(s.outbox, id) && EventAt(s.outbox, id) == OrderCreated(o)
      ensures o in s.orders && s.orders[o] == id
    {
      assert EventOk(s, id);
    }
  }
}
