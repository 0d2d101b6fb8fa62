/**
How often the catalogue's events are retried: at most four times before the fifth settles them,
exactly as long as no relay commits a refusal it judged by an outdated count.  One relay never
does; two can.
*/
module CatalogRetries {
  import opened Outbox
  import opened Catalog
  import opened CatalogIndex

  /* ---------- The bound, and what breaks it ---------- */

  // The event has tries left, if it is still pending.
  predicate Within(s: State, id: EventId) {
    Pending(s.outbox, id) ==> s.outbox.rows[id].retries < MAX_RETRIES
  }

  // Relay r holds the event refused, and by the count it has read there is a try left, though
  // by the count in the table this was the last.
  ghost predicate Overshoots(s: State, r: nat, id: EventId) {
    && r in s.relays && Ready(s.relays[r]) && id in s.relays[r].ids && Pending(s.outbox, id)
    && !Outcome(s.relays[r], id, Sent) && !Outcome(s.relays[r], id, Poison)
    && s.relays[r].rows[id].retries + 1 < MAX_RETRIES <= s.outbox.rows[id].retries + 1
  }

  /** Exactly when one commit keeps the bound: while a pending event has tries left, relay r's
      commit leaves it settled or with tries left if and only if it does not overshoot. */
  lemma CommitKeepsWithinIff(s: State, r: nat, id: EventId)
    requires r in s.relays && Ready(s.relays[r]) && Pending(s.outbox, id) && Within(s, id)
    ensures Within(Step(s, Commit(r)), id) <==> !Overshoots(s, r, id)
  {
    var b, t := s.relays[r], Step(s, Commit(r)).outbox;
    var verdicts := Verdicts(b, s.clock);
    if id in b.ids {
      var v := verdicts[id];
      assert id in t.rows <==> !v.Bury?;
      assert id in t.rows ==> t.rows[id] == SettleRow(s.outbox.rows[id], v);
    } else {
      assert id !in verdicts;
      assert id in t.rows && t.rows[id] == s.outbox.rows[id];
    }
  }

  // An event that is not pending does not become so.
  lemma CommitKeepsSettled(s: State, r: nat, id: EventId)
    requires r in s.relays && Ready(s.relays[r]) && !Pending(s.outbox, id)
    ensures !Pending(Step(s, Commit(r)).outbox, id)
  {
    var t := Step(s, Commit(r)).outbox;
    assert id in t.rows ==> id in s.outbox.rows;
  }

  ghost predicate NeverOvershoots(s: State, labels: seq<Label>, id: EventId)
    decreases |labels|
  {
    labels != [] ==>
      && (labels[0].Commit? ==> !Overshoots(s, labels[0].relay, id))
      && NeverOvershoots(Step(s, labels[0]), labels[1..], id)
  }

  lemma OthersKeepWithin(s: State, l: Label, id: EventId)
    requires Within(s, id) && !l.Commit?
    ensures Within(Step(s, l), id)
  {
  }

  lemma StepKeepsWithinIff(s: State, l: Label, id: EventId)
    requires Within(s, id)
    ensures Within(Step(s, l), id) <==> !(l.Commit? && Overshoots(s, l.relay, id))
  {
    if !l.Commit? {
      OthersKeepWithin(s, l, id);
    } else if l.relay in s.relays && Ready(s.relays[l.relay]) {
      if Pending(s.outbox, id) {
        CommitKeepsWithinIff(s, l.relay, id);
      } else {
        CommitKeepsSettled(s, l.relay, id);
      }
    }
  }

  // The bound holds at every moment of the run.
  ghost predicate AlwaysWithin(s: State, labels: seq<Label>, id: EventId)
    decreases |labels|
  {
    Within(s, id) && (labels != [] ==> AlwaysWithin(Step(s, labels[0]), labels[1..], id))
  }

  lemma {:induction false} AlwaysWithinIff(s: State, labels: seq<Label>, id: EventId)
    requires Within(s, id)
    ensures AlwaysWithin(s, labels, id) <==> NeverOvershoots(s, labels, id)
    ensures AlwaysWithin(s, labels, id) ==> Within(Run(s, labels), id)
    decreases |labels|
  {
    if labels != [] {
      StepKeepsWithinIff(s, labels[0], id);
      if Within(Step(s, labels[0]), id) {
        AlwaysWithinIff(Step(s, labels[0]), labels[1..], id);
      }
    }
  }

  /** Any number of relays, overlapping as they like: an event keeps within its retries at every
      moment of a run if and only if no commit overshoots on it; and then, while pending, it has
      been selected by at most four committed polls. */
  lemma SettledByTheFifthIff(labels: seq<Label>, id: EventId)
    ensures AlwaysWithin(EMPTY, labels, id) <==> NeverOvershoots(EMPTY, labels, id)
    ensures var s := Run(EMPTY, labels);
            NeverOvershoots(EMPTY, labels, id) && Pending(s.outbox, id) ==>
              s.outbox.rows[id].retries == Count(s.polls, id) <= 4
  {
    AlwaysWithinIff(EMPTY, labels, id);
    RunKeepsInv(EMPTY, labels);
    assert EventOk(Run(EMPTY, labels), id);
  }

  /* ---------- One relay ---------- */

  predicate OneRelay(l: Label) {
    l.Read? ==> l.relay == 0
  }

  // The numbers tell the polls, and the open batch holds the event as it is.
  ghost predicate Bounded(s: State, id: EventId) {
    && (Pending(s.outbox, id) ==> s.outbox.rows[id].retries < MAX_RETRIES)
    && (id in s.outbox.dlq ==> 1 <= s.outbox.dlq[id].retries == Count(s.polls, id) <= MAX_RETRIES)
    && (Processed(s.outbox, id) ==> 1 <= Count(s.polls, id) <= MAX_RETRIES)
    && (0 in s.relays && id in s.relays[0].ids ==>
          Pending(s.outbox, id) && id in s.relays[0].rows && s.relays[0].rows[id] == s.outbox.rows[id])
  }

  ghost predicate AllBounded(s: State) {
    (forall r <- s.relays :: r == 0) && forall id: EventId :: Bounded(s, id)
  }

  lemma CommitKeepsBounded(s: State, id: EventId)
    requires Bounded(s, id) && 0 in s.relays && Ready(s.relays[0]) && EventOk(s, id)
    ensures Bounded(Step(s, Commit(0)), id)
  {
    var b, t := s.relays[0], Step(s, Commit(0)).outbox;
    var verdicts := Verdicts(b, s.clock);
    if id in b.ids {
      var v := verdicts[id];
      assert id in t.rows <==> !v.Bury?;
      assert id in t.dlq <==> v.Bury?;
      assert Count(Counted(s.polls, b.ids), id) == Count(s.polls, id) + 1;
    } else {
      assert id !in verdicts;
      assert id in t.rows <==> id in s.outbox.rows;
      assert id in t.dlq <==> id in s.outbox.dlq;
      assert Count(Counted(s.polls, b.ids), id) == Count(s.polls, id);
    }
  }

  lemma WriterKeepsBounded(s: State, c: Change, id: EventId)
    requires Inv(s) && Bounded(s, id)
    ensures Bounded(Apply(s, c), id)
  {
    assert EventOk(s, s.outbox.next);
    assert 0 in s.relays ==> BatchOk(s, s.relays[0]);
  }

  lemma StepKeepsBounded(s: State, l: Label, id: EventId)
    requires Inv(s) && AllBounded(s) && OneRelay(l)
    ensures Bounded(Step(s, l), id)
  {
    assert Bounded(s, id) && EventOk(s, id);
    match l
    case Create(p, product) => WriterKeepsBounded(s, CreateTx(s.products, p, product), id);
    case Update(p, n, d, price, c) => WriterKeepsBounded(s, UpdateTx(s.products, p, n, d, price, c), id);
    case Delete(p) => WriterKeepsBounded(s, DeleteTx(s.products, p), id);
    case Read(r, ids) => assert MayRead(s, r, ids) && id in ids ==> Due(s, id);
    case Commit(r) => if r in s.relays && Ready(s.relays[r]) { CommitKeepsBounded(s, id); }
    case Tick(_) | Handle(_, _, _) | Abandon(_) =>
  }

  lemma OneRelayStays(s: State, l: Label)
    requires OneRelay(l) && forall r <- s.relays :: r == 0
    ensures forall r <- Step(s, l).relays :: r == 0
  {
  }

  lemma {:induction false} RunKeepsBounded(s: State, labels: seq<Label>)
    requires Inv(s) && AllBounded(s) && forall l <- labels :: OneRelay(l)
    ensures Inv(Run(s, labels)) && AllBounded(Run(s, labels))
    decreases |labels|
  {
    if labels != [] {
      var s' := Step(s, labels[0]);
      assert OneRelay(labels[0]);
      StepKeepsInv(s, labels[0]);
      OneRelayStays(s, labels[0]);
      forall id: EventId ensures Bounded(s', id) { StepKeepsBounded(s, labels[0], id); }
      RunKeepsBounded(s', labels[1..]);
    }
  }

  /** The retry measure with one relay: a pending event has been selected by at most four
      committed polls, a dead one by as many as its row says and at most five, a processed one by
      one to five. */
  lemma OneRelaySettlesByTheFifth(labels: seq<Label>, id: EventId)
    requires forall l <- labels :: OneRelay(l)
    ensures var s := Run(EMPTY, labels);
            && (Pending(s.outbox, id) ==> s.outbox.rows[id].retries == Count(s.polls, id) <= 4)
            && (id in s.outbox.dlq ==> 1 <= s.outbox.dlq[id].retries == Count(s.polls, id) <= 5)
            && (Processed(s.outbox, id) ==> 1 <= Count(s.polls, id) <= 5)
  {
    RunKeepsBounded(EMPTY, labels);
    var s := Run(EMPTY, labels);
    assert Bounded(s, id) && EventOk(s, id);
  }

  /* ---------- Two relays ---------- */

  // A refused poll, and time enough for the event to be due again.
  function RefuseOnce(id: EventId): seq<Label> {
    PollOne(0, id, false) + [Tick(30_000_000_000)]
  }

  lemma RefusedRow(t: Tables<Event>, id: EventId, now: int)
    requires id in t.rows && t.rows[id].retries + 1 < MAX_RETRIES
    ensures var t' := Settle(t, map[id := Judge(t.rows[id], Refused, now)]);
            && id in t'.rows && t'.rows[id].processed == t.rows[id].processed
            && t'.rows[id].retries == t.rows[id].retries + 1
            && t'.rows[id].nextAt == now + Backoff(t.rows[id].retries)
  {
  }

  lemma RefusedOnce(s: State, id: EventId)
    requires 0 !in s.relays && Due(s, id) && s.outbox.rows[id].retries + 1 < MAX_RETRIES
    ensures var s' := Run(s, RefuseOnce(id));
            && Due(s', id) && s'.outbox.rows[id].retries == s.outbox.rows[id].retries + 1 && s'.relays == s.relays
  {
    RunAppend(s, PollOne(0, id, false), [Tick(30_000_000_000)]);
    PollOneSettles(s, 0, id, false);
    RefusedRow(s.outbox, id, s.clock);
    BackoffDoublesToItsCap(0, s.outbox.rows[id].retries);
    OneStep(Run(s, PollOne(0, id, false)), Tick(30_000_000_000));
  }

  function BothRefuse(id: EventId): seq<Label> {
    [Read(1, [id])] + PollOne(0, id, false) + [Handle(1, false, Refused)] + [Commit(1)]
  }

  // Both relays have read the row with three retries; both add one.
  lemma BothRefused(s: State, id: EventId)
    requires s.relays == map[] && Due(s, id) && s.outbox.rows[id].retries == 3
    ensures var s' := Run(s, BothRefuse(id)); Pending(s'.outbox, id) && s'.outbox.rows[id].retries == 5
  {
    var row := s.outbox.rows[id];
    RunAppend(s, [Read(1, [id])] + PollOne(0, id, false) + [Handle(1, false, Refused)], [Commit(1)]);
    RunAppend(s, [Read(1, [id])] + PollOne(0, id, false), [Handle(1, false, Refused)]);
    RunAppend(s, [Read(1, [id])], PollOne(0, id, false));
    OneStep(s, Read(1, [id]));
    ReadOne(s, 1, id);
    var s1 := Step(s, Read(1, [id]));
    PollOneSettles(s1, 0, id, false);
    RefusedRow(s.outbox, id, s.clock);
    var s2 := Run(s1, PollOne(0, id, false));
    OneStep(s2, Handle(1, false, Refused));
    HandleOne(s2, 1, id, row, false);
    var s3 := Step(s2, Handle(1, false, Refused));
    OneStep(s3, Commit(1));
    CommitSingle(s3, 1, id, row, false);
    SecondRefusal(s3.outbox, id, row, s3.clock);
  }

  lemma SecondRefusal(t: Tables<Event>, id: EventId, read: Row<Event>, now: int)
    requires Pending(t, id) && t.rows[id].retries == 4 && read.retries == 3
    ensures var t' := Settle(t, map[id := Judge(read, Refused, now)]);
            Pending(t', id) && t'.rows[id].retries == 5
  {
  }

  /** Two relays are enough to exceed the bound: an event still pending after five committed
      polls that selected it. */
  lemma TwoRelaysRetryMore()
    ensures var labels := [Create(0, LAMP)] + RefuseOnce(0) + RefuseOnce(0) + RefuseOnce(0) + BothRefuse(0);
            var s := Run(EMPTY, labels);
            Pending(s.outbox, 0) && s.outbox.rows[0].retries == 5
  {
    var s0 := CreatedState();
    var c := [Create(0, LAMP)];
    RefusedOnce(s0, 0);
    var s1 := Run(s0, RefuseOnce(0));
    RefusedOnce(s1, 0);
    var s2 := Run(s1, RefuseOnce(0));
    RefusedOnce(s2, 0);
    BothRefused(Run(s2, RefuseOnce(0)), 0);
    RunAppend(EMPTY, c, RefuseOnce(0));
    RunAppend(EMPTY, c + RefuseOnce(0), RefuseOnce(0));
    RunAppend(EMPTY, c + RefuseOnce(0) + RefuseOnce(0), RefuseOnce(0));
    RunAppend(EMPTY, c + RefuseOnce(0) + RefuseOnce(0) + RefuseOnce(0), BothRefuse(0));
  }
}
