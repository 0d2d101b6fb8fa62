/**
Agreement of the search index with the product table, product by product: it holds when one
relay handles the product's events in order and the handler never fails on them, and fails
when either is dropped.
*/
module CatalogIndex {
  import opened Common
  import opened Outbox
  import opened Catalog

  function Projected(o: Option<Product>): Option<Doc> {
    if o.None? then None else Some(DocOf(o.value))
  }

  lemma ProjectShows(index: map<ProductId, Doc>, e: Event, p: ProductId)
    ensures Get(Project(index, e), p) == if e.id == p then Projected(Effect(e)) else Get(index, p)
  {
  }

  /* ---------- The runs: one relay, and p's events never fail ---------- */

  predicate About(s: State, id: EventId, p: ProductId) {
    id < |s.log| && s.log[id].id == p
  }

  // ORDER BY created_at LIMIT n: p's events in order, and none taken before an earlier one
  // that is due.
  ghost predicate TakesInOrder(s: State, ids: seq<EventId>, p: ProductId) {
    && (forall i, j :: 0 <= i < j < |ids| && About(s, ids[i], p) && About(s, ids[j], p) ==> ids[i] < ids[j])
    && (forall id <- ids, e: EventId :: About(s, id, p) && About(s, e, p) && e < id && Due(s, e) ==> e in ids)
  }

  ghost predicate Orderly(s: State, l: Label, p: ProductId) {
    match l
    case Read(r, ids) => r == 0 && TakesInOrder(s, ids, p)
    case Handle(r, _, attempt) => MayHandle(s, r) && About(s, NextId(s, r), p) ==> attempt == Sent
    case _ => true
  }

  ghost predicate OrderlyRun(s: State, labels: seq<Label>, p: ProductId)
    decreases |labels|
  {
    labels != [] ==> Orderly(s, labels[0], p) && OrderlyRun(Step(s, labels[0]), labels[1..], p)
  }

  /* ---------- The invariant ---------- */

  // p's events are all still rows, never failed, and processed in order.
  ghost predicate InOrder(s: State, p: ProductId) {
    && (forall id: EventId :: About(s, id, p) ==> id in s.outbox.rows && s.outbox.rows[id].nextAt <= s.clock)
    && (forall i: EventId, j: EventId ::
          About(s, i, p) && About(s, j, p) && i < j && Processed(s.outbox, j) ==> Processed(s.outbox, i))
  }

  // The open batch, if any, holds the earliest of p's pending events, in order.
  ghost predicate HoldsEarliest(s: State, p: ProductId) {
    && (forall r <- s.relays :: r == 0)
    && (0 in s.relays ==>
          var b := s.relays[0];
          && (forall i, j :: 0 <= i < j < |b.ids| && About(s, b.ids[i], p) && About(s, b.ids[j], p) ==>
                b.ids[i] < b.ids[j])
          && (forall id <- b.ids :: About(s, id, p) ==> Pending(s.outbox, id))
          && (forall id <- b.ids, e: EventId :: About(s, id, p) && About(s, e, p) && e < id ==>
                e in b.ids || Processed(s.outbox, e))
          && (forall i :: 0 <= i < |b.outcomes| && i < |b.ids| && About(s, b.ids[i], p) ==> b.outcomes[i] == Sent))
  }

  // The first k events are past every processed event of p and every one handled in this batch.
  ghost predicate Past(s: State, p: ProductId, k: nat) {
    && (forall id: EventId :: About(s, id, p) && Processed(s.outbox, id) ==> id < k)
    && (0 in s.relays ==> forall i ::
          0 <= i < |s.relays[0].outcomes| && i < |s.relays[0].ids| && About(s, s.relays[0].ids[i], p) ==>
            s.relays[0].ids[i] < k)
  }

  ghost predicate NotBehind(s: State, p: ProductId, k: nat) {
    && k <= |s.log| && Get(s.index, p) == Projected(Show(s.log[..k], p))
    && forall id: EventId :: About(s, id, p) && Processed(s.outbox, id) ==> id < k
  }

  ghost predicate ShowsAt(s: State, p: ProductId, k: nat) {
    k <= |s.log| && Get(s.index, p) == Projected(Show(s.log[..k], p)) && Past(s, p, k)
  }

  ghost predicate Tracks(s: State, p: ProductId) {
    InOrder(s, p) && HoldsEarliest(s, p) && exists k: nat :: ShowsAt(s, p, k)
  }

  /* ---------- Every orderly step keeps it ---------- */

  // A new event is pending, due and later than all others.
  ghost predicate Extends(s: State, s': State) {
    && s.log < s'.log && |s'.log| == |s.log| + 1
    && |s.log| !in s.outbox.rows
    && |s.log| in s'.outbox.rows && s'.outbox.rows == s.outbox.rows[|s.log| := s'.outbox.rows[|s.log|]]
    && Due(s', |s.log|)
    && s'.relays == s.relays && s'.index == s.index && s'.clock == s.clock
    && (0 in s.relays ==> forall id <- s.relays[0].ids :: id < |s.log|)
  }

  lemma ExtendingKeepsOrder(s: State, s': State, p: ProductId)
    requires Extends(s, s') && InOrder(s, p)
    ensures InOrder(s', p)
  {
    forall id: EventId | About(s', id, p)
      ensures id in s'.outbox.rows && s'.outbox.rows[id].nextAt <= s'.clock
      ensures id == |s.log| || (About(s, id, p) && s'.outbox.rows[id] == s.outbox.rows[id])
    {
      assert id != |s.log| ==> About(s, id, p);
    }
  }

  lemma ExtendingKeepsBatch(s: State, s': State, p: ProductId)
    requires Extends(s, s') && HoldsEarliest(s, p)
    ensures HoldsEarliest(s', p)
  {
    if 0 in s.relays {
      var b := s.relays[0];
      forall id: EventId | id < |s.log|
        ensures About(s', id, p) == About(s, id, p)
        ensures Pending(s'.outbox, id) == Pending(s.outbox, id) && Processed(s'.outbox, id) == Processed(s.outbox, id)
      {
      }
      forall i | 0 <= i < |b.ids| ensures b.ids[i] < |s.log| {
        assert b.ids[i] in b.ids;
      }
      forall id <- b.ids, e: EventId | About(s', id, p) && About(s', e, p) && e < id
        ensures e in b.ids || Processed(s'.outbox, e)
      {
        assert id < |s.log| && About(s, id, p) && About(s, e, p);
      }
    }
  }

  lemma ExtendingShows(s: State, s': State, p: ProductId, k: nat)
    requires Extends(s, s') && ShowsAt(s, p, k)
    ensures ShowsAt(s', p, k)
  {
    assert s'.log[..k] == s.log[..k];
    forall i | 0 in s.relays && 0 <= i < |s.relays[0].ids|
      ensures About(s', s.relays[0].ids[i], p) == About(s, s.relays[0].ids[i], p)
    {
      assert s.relays[0].ids[i] in s.relays[0].ids;
    }
    forall id: EventId | About(s', id, p) && Processed(s'.outbox, id)
      ensures About(s, id, p) && Processed(s.outbox, id)
    {
    }
  }

  lemma WriterKeepsTracks(s: State, c: Change, p: ProductId)
    requires Inv(s) && Tracks(s, p)
    ensures Tracks(Apply(s, c), p)
  {
    var s' := Apply(s, c);
    if c.event.Some? {
      assert Extends(s, s') by {
        assert EventOk(s, |s.log|);
        assert 0 in s.relays ==> BatchOk(s, s.relays[0]);
      }
      var k: nat :| ShowsAt(s, p, k);
      ExtendingShows(s, s', p, k);
      ExtendingKeepsOrder(s, s', p);
      ExtendingKeepsBatch(s, s', p);
    }
  }

  lemma ReadKeepsTracks(s: State, ids: seq<EventId>, p: ProductId)
    requires Inv(s) && Tracks(s, p) && TakesInOrder(s, ids, p)
    ensures Tracks(Step(s, Read(0, ids)), p)
  {
    var s' := Step(s, Read(0, ids));
    if MayRead(s, 0, ids) {
      forall id <- ids, e: EventId | About(s, id, p) && About(s, e, p) && e < id
        ensures e in ids || Processed(s.outbox, e)
      {
        assert EventOk(s, e);
      }
      forall id <- ids ensures Pending(s.outbox, id) {
        assert Due(s, id);
      }
      var k: nat :| ShowsAt(s, p, k);
      assert ShowsAt(s', p, k);
    }
  }

  lemma HandleKeepsBatchOrder(s: State, lands: bool, attempt: Attempt, p: ProductId)
    requires HoldsEarliest(s, p) && MayHandle(s, 0) && (About(s, NextId(s, 0), p) ==> attempt == Sent)
    ensures HoldsEarliest(HandleStep(s, 0, lands, attempt), p)
  {
    var s', b := HandleStep(s, 0, lands, attempt), s.relays[0];
    assert s'.relays == s.relays[0 := b.(outcomes := b.outcomes + [attempt])] && s'.outbox == s.outbox;
    forall id: EventId ensures About(s', id, p) == About(s, id, p) {
    }
  }

  // Handling p's next event shows p as of that event.
  lemma HandleShows(s: State, lands: bool, id: EventId, p: ProductId)
    requires MayHandle(s, 0) && NextId(s, 0) == id && About(s, id, p) && s.relays[0].rows[id].event == s.log[id]
    requires InOrder(s, p) && HoldsEarliest(s, p)
    ensures ShowsAt(HandleStep(s, 0, lands, Sent), p, id + 1)
  {
    var s', b := HandleStep(s, 0, lands, Sent), s.relays[0];
    ProjectShows(s.index, s.log[id], p);
    assert s.log[..id + 1] == s.log[..id] + [s.log[id]];
    ShowAppend(s.log[..id], s.log[id], p);
    assert id in b.ids && Pending(s.outbox, id);
    forall e: EventId | About(s', e, p) && Processed(s'.outbox, e) ensures e < id + 1 {
      assert About(s, e, p);
    }
    forall i | 0 <= i < |s'.relays[0].outcomes| && i < |b.ids| && About(s', b.ids[i], p) ensures b.ids[i] < id + 1 {
      assert About(s, b.ids[i], p) && About(s, b.ids[|b.outcomes|], p);
    }
  }

  // Handling another product's event leaves p as it shows.
  lemma HandleElsewhere(s: State, lands: bool, attempt: Attempt, p: ProductId, k: nat)
    requires MayHandle(s, 0) && !About(s, NextId(s, 0), p) && s.relays[0].rows[NextId(s, 0)].event.id != p
    requires ShowsAt(s, p, k)
    ensures ShowsAt(HandleStep(s, 0, lands, attempt), p, k)
  {
    ProjectShows(s.index, s.relays[0].rows[NextId(s, 0)].event, p);
  }

  lemma HandleKeepsTracks(s: State, lands: bool, attempt: Attempt, p: ProductId)
    requires Inv(s) && Tracks(s, p) && MayHandle(s, 0)
    requires About(s, NextId(s, 0), p) ==> attempt == Sent
    ensures Tracks(HandleStep(s, 0, lands, attempt), p)
  {
    var id := NextId(s, 0);
    assert id < |s.log| && s.relays[0].rows[id].event == s.log[id] by {
      assert BatchOk(s, s.relays[0]) && id in s.relays[0].ids;
    }
    HandleKeepsBatchOrder(s, lands, attempt, p);
    if About(s, id, p) {
      HandleShows(s, lands, id, p);
    } else {
      var k: nat :| ShowsAt(s, p, k);
      HandleElsewhere(s, lands, attempt, p, k);
    }
    assert InOrder(HandleStep(s, 0, lands, attempt), p);
  }

  // For p the commit marks the batch's events, all of them sent, and does nothing else.
  lemma CommitMarks(s: State, p: ProductId, id: EventId)
    requires Inv(s) && Tracks(s, p) && About(s, id, p) && 0 in s.relays && Ready(s.relays[0])
    ensures var t := Step(s, Commit(0)).outbox;
            && id in t.rows && t.rows[id].nextAt == s.outbox.rows[id].nextAt
            && (Processed(t, id) <==> Processed(s.outbox, id) || id in s.relays[0].ids)
  {
    var b := s.relays[0];
    assert EventOk(s, id) && BatchOk(s, b);
    if id in b.ids {
      var i :| 0 <= i < |b.ids| && b.ids[i] == id;
      assert Outcome(b, id, Sent);
    }
  }

  // What CommitMarks says, for all of p's events.
  ghost predicate Marked(s: State, s': State, p: ProductId)
    requires 0 in s.relays
  {
    && s'.log == s.log && s'.clock == s.clock && s'.index == s.index && s'.relays == s.relays - {0}
    && forall id: EventId :: About(s, id, p) ==>
         && id in s.outbox.rows && id in s'.outbox.rows && s'.outbox.rows[id].nextAt == s.outbox.rows[id].nextAt
         && (Processed(s'.outbox, id) <==> Processed(s.outbox, id) || id in s.relays[0].ids)
  }

  lemma MarkingKeepsTracks(s: State, s': State, p: ProductId, k: nat)
    requires InOrder(s, p) && HoldsEarliest(s, p) && ShowsAt(s, p, k)
    requires 0 in s.relays && Marked(s, s', p) && |s.relays[0].outcomes| == |s.relays[0].ids|
    ensures Tracks(s', p)
  {
    var b := s.relays[0];
    forall id: EventId ensures About(s', id, p) == About(s, id, p) {
    }
    forall id: EventId | About(s', id, p) && Processed(s'.outbox, id) ensures id < k {
      if id in b.ids {
        var i :| 0 <= i < |b.ids| && b.ids[i] == id;
      }
    }
    assert ShowsAt(s', p, k);
    forall i: EventId, j: EventId | About(s', i, p) && About(s', j, p) && i < j && Processed(s'.outbox, j)
      ensures Processed(s'.outbox, i)
    {
      assert About(s, i, p) && About(s, j, p);
    }
  }

  lemma CommitKeepsTracks(s: State, p: ProductId)
    requires Inv(s) && Tracks(s, p) && 0 in s.relays && Ready(s.relays[0])
    ensures Tracks(Step(s, Commit(0)), p)
  {
    var s' := Step(s, Commit(0));
    forall id: EventId | About(s, id, p)
      ensures id in s'.outbox.rows && s'.outbox.rows[id].nextAt == s.outbox.rows[id].nextAt
      ensures Processed(s'.outbox, id) <==> Processed(s.outbox, id) || id in s.relays[0].ids
    {
      CommitMarks(s, p, id);
    }
    assert Marked(s, s', p);
    var k: nat :| ShowsAt(s, p, k);
    MarkingKeepsTracks(s, s', p, k);
  }

  lemma QuietKeepsTracks(s: State, l: Label, p: ProductId)
    requires Tracks(s, p) && (l.Tick? || l.Abandon?)
    ensures Tracks(Step(s, l), p)
  {
    var k: nat :| ShowsAt(s, p, k);
    var s' := Step(s, l);
    forall id: EventId ensures About(s', id, p) == About(s, id, p) {
    }
    assert ShowsAt(s', p, k);
  }

  lemma WritersKeepTracks(s: State, l: Label, p: ProductId)
    requires Inv(s) && Tracks(s, p) && (l.Create? || l.Update? || l.Delete?)
    ensures Tracks(Step(s, l), p)
  {
    match l
    case Create(id, product) => WriterKeepsTracks(s, CreateTx(s.products, id, product), p);
    case Update(id, n, d, price, c) => WriterKeepsTracks(s, UpdateTx(s.products, id, n, d, price, c), p);
    case Delete(id) => WriterKeepsTracks(s, DeleteTx(s.products, id), p);
  }

  lemma StepKeepsTracks(s: State, l: Label, p: ProductId)
    requires Inv(s) && Tracks(s, p) && Orderly(s, l, p)
    ensures Tracks(Step(s, l), p)
  {
    match l
    case Read(r, ids) => ReadKeepsTracks(s, ids, p);
    case Handle(r, lands, attempt) => if MayHandle(s, r) { HandleKeepsTracks(s, lands, attempt, p); }
    case Commit(r) => if r in s.relays && Ready(s.relays[r]) { CommitKeepsTracks(s, p); }
    case Create(_, _) | Update(_, _, _, _, _) | Delete(_) => WritersKeepTracks(s, l, p);
    case Tick(_) | Abandon(_) => QuietKeepsTracks(s, l, p);
  }

  lemma {:induction false} RunKeepsTracks(s: State, labels: seq<Label>, p: ProductId)
    requires Inv(s) && Tracks(s, p) && OrderlyRun(s, labels, p)
    ensures Inv(Run(s, labels)) && Tracks(Run(s, labels), p)
    decreases |labels|
  {
    if labels != [] {
      StepKeepsInv(s, labels[0]);
      StepKeepsTracks(s, labels[0], p);
      RunKeepsTracks(Step(s, labels[0]), labels[1..], p);
    }
  }

  /* ---------- The claims ---------- */

  ghost predicate Drained(s: State, p: ProductId) {
    forall id: EventId :: About(s, id, p) ==> Processed(s.outbox, id)
  }

  predicate Agrees(s: State, p: ProductId) {
    && (p in s.index <==> p in s.products)
    && (p in s.index ==> Shows(s.index[p], s.products[p]))
  }

  lemma ProjectedAgrees(s: State, p: ProductId)
    requires Get(s.index, p) == Projected(Get(s.products, p))
    ensures Agrees(s, p)
  {
  }

  lemma DrainedAgrees(s: State, p: ProductId, k: nat)
    requires ShowsAt(s, p, k) && RowsFollow(s, p) && Drained(s, p)
    ensures Agrees(s, p)
  {
    forall i | k <= i < |s.log| ensures s.log[i].id != p {
      assert About(s, i, p) == (s.log[i].id == p);
    }
    ShowSkips(s.log, k, p);
    ProjectedAgrees(s, p);
  }

  lemma OrderlyRunTracks(labels: seq<Label>, p: ProductId) returns (k: nat)
    requires OrderlyRun(EMPTY, labels, p)
    ensures ShowsAt(Run(EMPTY, labels), p, k) && RowsFollow(Run(EMPTY, labels), p)
  {
    assert ShowsAt(EMPTY, p, 0);
    RunKeepsTracks(EMPTY, labels, p);
    RunKeepsRows(EMPTY, labels, p);
    k :| ShowsAt(Run(EMPTY, labels), p, k);
  }

  /** One relay, and a handler that does not fail on p's events (it may on others'): through
      any crashes, lost commits and replays, the index shows p as it was after some number of
      events that is never behind the processed ones; and once p's events are all processed
      it shows p exactly as the product table does, deleted or present. */
  lemma IndexAgrees(labels: seq<Label>, p: ProductId)
    requires OrderlyRun(EMPTY, labels, p)
    ensures exists k: nat :: NotBehind(Run(EMPTY, labels), p, k)
    ensures Drained(Run(EMPTY, labels), p) ==> Agrees(Run(EMPTY, labels), p)
  {
    var k := OrderlyRunTracks(labels, p);
    assert NotBehind(Run(EMPTY, labels), p, k);
    if Drained(Run(EMPTY, labels), p) {
      DrainedAgrees(Run(EMPTY, labels), p, k);
    }
  }

  /* ---------- Any relays, any failures ---------- */

  // The last event of p that the index has taken in.
  ghost predicate IsLatest(s: State, p: ProductId, id: EventId) {
    id in s.landed && About(s, id, p) && forall e <- s.landed :: About(s, e, p) ==> e <= id
  }

  // The index shows p as its latest landed event says.
  ghost predicate ShowsLatest(s: State, p: ProductId) {
    && (forall id <- s.landed :: IsLatest(s, p, id) ==> Get(s.index, p) == Projected(Effect(s.log[id])))
    && ((forall id <- s.landed :: !About(s, id, p)) ==> Get(s.index, p) == None)
  }

  // A later event of p has landed before.
  ghost predicate Stale(s: State, p: ProductId, id: EventId) {
    exists e <- s.landed :: About(s, e, p) && id < e
  }

  // The event says of p what the latest landed one says.
  ghost predicate SaysTheSame(s: State, p: ProductId, id: EventId)
    requires id < |s.log|
  {
    exists e <- s.landed :: IsLatest(s, p, e) && Projected(Effect(s.log[e])) == Projected(Effect(s.log[id]))
  }

  lemma {:induction false} LatestExists(s: State, p: ProductId, e: EventId) returns (id: EventId)
    requires e in s.landed && About(s, e, p)
    ensures IsLatest(s, p, id) && e <= id
    decreases |s.log| - e
  {
    if f :| f in s.landed && About(s, f, p) && e < f {
      id := LatestExists(s, p, f);
    } else {
      id := e;
    }
  }

  // The event lands: nothing else changes that matters here.
  ghost predicate Lands(s: State, s': State, id: EventId) {
    && id < |s.log| && s'.log == s.log && s'.landed == s.landed + {id}
    && s'.index == Project(s.index, s.log[id])
  }

  lemma FreshLanding(s: State, s': State, p: ProductId, id: EventId)
    requires Lands(s, s', id) && About(s, id, p) && !Stale(s, p, id)
    ensures ShowsLatest(s', p)
  {
    ProjectShows(s.index, s.log[id], p);
    forall e <- s'.landed | IsLatest(s', p, e) ensures e == id {
      assert About(s', id, p) && id in s'.landed;
    }
    assert id in s'.landed && About(s', id, p);
  }

  lemma StaleLanding(s: State, s': State, p: ProductId, id: EventId)
    requires Lands(s, s', id) && About(s, id, p) && Stale(s, p, id)
    ensures ShowsLatest(s', p) <==> SaysTheSame(s, p, id)
  {
    ProjectShows(s.index, s.log[id], p);
    var e :| e in s.landed && About(s, e, p) && id < e;
    var last := LatestExists(s, p, e);
    assert IsLatest(s', p, last);
    forall x <- s.landed | IsLatest(s, p, x) ensures x == last {
    }
    forall x <- s'.landed | IsLatest(s', p, x) ensures x == last {
    }
  }

  /** Exactly when handling one event is safe.  While the index shows p's latest landed event,
      letting an event of p land keeps that if and only if no later event of p has landed, or
      the two say the same of p. */
  lemma HandleKeepsLatestIff(s: State, r: nat, lands: bool, attempt: Attempt, p: ProductId)
    requires MayHandle(s, r) && HandlesAsCreated(s, r) && (lands || attempt == Sent)
    requires About(s, NextId(s, r), p) && ShowsLatest(s, p)
    ensures ShowsLatest(HandleStep(s, r, lands, attempt), p) <==>
      !Stale(s, p, NextId(s, r)) || SaysTheSame(s, p, NextId(s, r))
  {
    if Stale(s, p, NextId(s, r)) {
      StaleLanding(s, HandleStep(s, r, lands, attempt), p, NextId(s, r));
    } else {
      FreshLanding(s, HandleStep(s, r, lands, attempt), p, NextId(s, r));
    }
  }

  // What the relay has in hand is the event as it was created; in every run it is.
  predicate HandlesAsCreated(s: State, r: nat)
    requires MayHandle(s, r)
  {
    NextId(s, r) < |s.log| && s.relays[r].rows[NextId(s, r)].event == s.log[NextId(s, r)]
  }

  lemma HandlesItsEvent(s: State, r: nat)
    requires MayHandle(s, r) && BatchOk(s, s.relays[r])
    ensures HandlesAsCreated(s, r)
  {
    assert NextId(s, r) in s.relays[r].ids;
  }

  // The guard, for one label.
  ghost predicate LandsInOrder(s: State, l: Label, p: ProductId) {
    l.Handle? && MayHandle(s, l.relay) && (l.lands || l.attempt == Sent) && About(s, NextId(s, l.relay), p) ==>
      !Stale(s, p, NextId(s, l.relay)) || SaysTheSame(s, p, NextId(s, l.relay))
  }

  ghost predicate LandsInOrderRun(s: State, labels: seq<Label>, p: ProductId)
    decreases |labels|
  {
    labels != [] ==> LandsInOrder(s, labels[0], p) && LandsInOrderRun(Step(s, labels[0]), labels[1..], p)
  }

  // A step that lets no event of p land.
  lemma ElsewhereKeepsLatest(s: State, s': State, p: ProductId)
    requires ShowsLatest(s, p) && s.log <= s'.log && s.landed <= s'.landed
    requires (forall id <- s.landed :: id < |s.log|) && (forall id <- s'.landed - s.landed :: !About(s', id, p))
    requires Get(s'.index, p) == Get(s.index, p)
    ensures ShowsLatest(s', p)
  {
    forall id <- s'.landed ensures About(s', id, p) <==> id in s.landed && About(s, id, p) {
      assert id !in s.landed ==> id in s'.landed - s.landed;
    }
    forall id <- s'.landed | IsLatest(s', p, id) ensures IsLatest(s, p, id) && s'.log[id] == s.log[id] {
    }
  }

  lemma HandleKeepsLatest(s: State, r: nat, lands: bool, attempt: Attempt, p: ProductId)
    requires MayHandle(s, r) && BatchOk(s, s.relays[r]) && (forall id <- s.landed :: id < |s.log|)
    requires ShowsLatest(s, p) && LandsInOrder(s, Handle(r, lands, attempt), p)
    ensures ShowsLatest(HandleStep(s, r, lands, attempt), p)
  {
    HandlesItsEvent(s, r);
    if (lands || attempt == Sent) && About(s, NextId(s, r), p) {
      HandleKeepsLatestIff(s, r, lands, attempt, p);
    } else {
      ProjectShows(s.index, s.log[NextId(s, r)], p);
      ElsewhereKeepsLatest(s, HandleStep(s, r, lands, attempt), p);
    }
  }

  lemma LandsNothing(s: State, l: Label)
    requires !l.Handle?
    ensures Step(s, l).index == s.index && Step(s, l).landed == s.landed && s.log <= Step(s, l).log
  {
  }

  lemma StepKeepsLatest(s: State, l: Label, p: ProductId)
    requires Inv(s) && ShowsLatest(s, p) && LandsInOrder(s, l, p)
    ensures ShowsLatest(Step(s, l), p)
  {
    if l.Handle? {
      if MayHandle(s, l.relay) {
        HandleKeepsLatest(s, l.relay, l.lands, l.attempt, p);
      }
    } else {
      LandsNothing(s, l);
      ElsewhereKeepsLatest(s, Step(s, l), p);
    }
  }

  lemma {:induction false} RunKeepsLatest(s: State, labels: seq<Label>, p: ProductId)
    requires Inv(s) && ShowsLatest(s, p) && LandsInOrderRun(s, labels, p)
    ensures Inv(Run(s, labels)) && ShowsLatest(Run(s, labels), p)
    decreases |labels|
  {
    if labels != [] {
      StepKeepsInv(s, labels[0]);
      StepKeepsLatest(s, labels[0], p);
      RunKeepsLatest(Step(s, labels[0]), labels[1..], p);
    }
  }

  // With all of p's events processed the latest landed is the latest created.
  lemma DrainedShowsTable(s: State, p: ProductId)
    requires Inv(s) && ShowsLatest(s, p) && RowsFollow(s, p) && Drained(s, p)
    ensures Get(s.index, p) == Projected(Get(s.products, p))
  {
    forall id: EventId | About(s, id, p) ensures id in s.landed {
      assert EventOk(s, id);
    }
    if e :| e in s.landed && About(s, e, p) {
      var id := LatestExists(s, p, e);
      assert s.log[..id + 1] == s.log[..id] + [s.log[id]];
      ShowAppend(s.log[..id], s.log[id], p);
      forall i | id + 1 <= i < |s.log| ensures s.log[i].id != p {
        assert About(s, i, p) == (s.log[i].id == p);
      }
      ShowSkips(s.log, id + 1, p);
    } else {
      forall i | 0 <= i < |s.log| ensures s.log[i].id != p {
        assert About(s, i, p) == (s.log[i].id == p);
      }
      ShowSkips(s.log, 0, p);
      assert s.log[..0] == [];
    }
  }

  /** Any number of relays, any failures, retries and replays: as long as no event of p lands
      after a later one that says otherwise, the index shows p's latest landed event, and once
      p's events are all processed it shows p exactly as the product table does. */
  lemma InOrderLandingsAgree(labels: seq<Label>, p: ProductId)
    requires LandsInOrderRun(EMPTY, labels, p)
    ensures ShowsLatest(Run(EMPTY, labels), p)
    ensures Drained(Run(EMPTY, labels), p) ==> Agrees(Run(EMPTY, labels), p)
  {
    RunKeepsLatest(EMPTY, labels, p);
    RunKeepsRows(EMPTY, labels, p);
    if Drained(Run(EMPTY, labels), p) {
      DrainedShowsTable(Run(EMPTY, labels), p);
      ProjectedAgrees(Run(EMPTY, labels), p);
    }
  }

  /* ---------- Two relays, or one failure, are enough to disagree ---------- */

  function PollOne(r: nat, id: EventId, ok: bool): seq<Label> {
    [Read(r, [id])] + [Handle(r, ok, Told(ok))] + [Commit(r)]
  }

  function Told(ok: bool): Attempt {
    if ok then Sent else Refused
  }

  lemma ReadOne(s: State, r: nat, id: EventId)
    requires r !in s.relays && Due(s, id)
    ensures Step(s, Read(r, [id])) == s.(relays := s.relays[r := Batch([id], map[id := s.outbox.rows[id]], [])])
  {
    assert MayRead(s, r, [id]);
    assert RowsRead(s.outbox, [id]) == map[id := s.outbox.rows[id]];
  }

  lemma HandleOne(s: State, r: nat, id: EventId, row: Row<Event>, ok: bool)
    requires r in s.relays && s.relays[r] == Batch([id], map[id := row], [])
    ensures var s' := Step(s, Handle(r, ok, Told(ok)));
            && s'.relays == s.relays[r := Batch([id], map[id := row], [Told(ok)])]
            && s'.index == (if ok then Project(s.index, row.event) else s.index)
            && s'.outbox == s.outbox && s'.products == s.products && s'.log == s.log && s'.clock == s.clock
  {
    var b := s.relays[r];
    assert MayHandle(s, r) && NextId(s, r) == id;
    assert b.outcomes + [Told(ok)] == [Told(ok)];
    assert b.(outcomes := b.outcomes + [Told(ok)]) == Batch([id], map[id := row], [Told(ok)]);
  }

  // Settling a one-event batch.
  lemma CommitSingle(s: State, r: nat, id: EventId, row: Row<Event>, ok: bool)
    requires r in s.relays && s.relays[r] == Batch([id], map[id := row], [Told(ok)])
    ensures Step(s, Commit(r)).outbox == Settle(s.outbox, map[id := Judge(row, Told(ok), s.clock)])
    ensures Step(s, Commit(r)) ==
            s.(outbox := Step(s, Commit(r)).outbox, relays := s.relays - {r}, polls := Counted(s.polls, [id]))
  {
    VerdictOfOne(id, row, ok, s.clock);
  }

  lemma VerdictOfOne(id: EventId, row: Row<Event>, ok: bool, now: int)
    ensures Verdicts(Batch([id], map[id := row], [Told(ok)]), now) == map[id := Judge(row, Told(ok), now)]
  {
    var b := Batch([id], map[id := row], [Told(ok)]);
    assert b.ids[0] == id && b.outcomes[0] == Told(ok);
    assert ok ==> Outcome(b, id, Sent);
  }

  // A poll of a single event settles that event and nothing else.
  lemma PollOneSettles(s: State, r: nat, id: EventId, ok: bool)
    requires r !in s.relays && Due(s, id)
    ensures var s' := Run(s, PollOne(r, id, ok));
            && s'.outbox == Settle(s.outbox, map[id := Judge(s.outbox.rows[id], Told(ok), s.clock)])
            && s'.index == (if ok then Project(s.index, s.outbox.rows[id].event) else s.index)
            && s'.relays == s.relays && s'.products == s.products && s'.log == s.log && s'.clock == s.clock
  {
    var l1, l2, l3 := Read(r, [id]), Handle(r, ok, Told(ok)), Commit(r);
    RunAppend(s, [l1] + [l2], [l3]);
    RunAppend(s, [l1], [l2]);
    OneStep(s, l1);
    ReadOne(s, r, id);
    var s1 := Step(s, l1);
    OneStep(s1, l2);
    HandleOne(s1, r, id, s.outbox.rows[id], ok);
    var s2 := Step(s1, l2);
    OneStep(s2, l3);
    CommitSingle(s2, r, id, s.outbox.rows[id], ok);
    assert s2.relays - {r} == s.relays;
  }

  const LAMP := Product("lamp", "", 1, [], "k", 0)

  function Created(processed: bool, retries: nat, nextAt: int): Row<Event> {
    Row(ProductCreated(0, LAMP), processed, retries, nextAt)
  }

  function Deleted(processed: bool): Row<Event> {
    Row(ProductDeleted(0), processed, 0, 0)
  }

  const STALE_READ := [Create(0, LAMP)] + [Read(0, [0])]
  const SETTLED := PollOne(1, 0, true) + [Delete(0)] + PollOne(1, 1, true)

  lemma CreatedState() returns (s: State)
    ensures s == Run(EMPTY, [Create(0, LAMP)])
    ensures s.products == map[0 := LAMP] && s.outbox == Tables(1, map[0 := Created(false, 0, 0)], map[])
    ensures s.index == map[] && s.relays == map[] && s.clock == 0 && s.log == [ProductCreated(0, LAMP)]
  {
    OneStep(EMPTY, Create(0, LAMP));
    s := Step(EMPTY, Create(0, LAMP));
  }

  // From a state in which the lamp has just been created, relay 1 settles its creation, the
  // lamp is deleted, and relay 1 settles the deletion.
  lemma SettledState(s: State) returns (s': State)
    requires s.products == map[0 := LAMP] && s.outbox == Tables(1, map[0 := Created(false, 0, 0)], map[])
    requires s.index == map[] && s.clock == 0 && s.log == [ProductCreated(0, LAMP)] && 1 !in s.relays
    ensures s' == Run(s, SETTLED) && s'.relays == s.relays && s'.products == map[] && s'.index == map[]
    ensures s'.outbox == Tables(2, map[0 := Created(true, 0, 0), 1 := Deleted(true)], map[])
    ensures s'.log == [ProductCreated(0, LAMP), ProductDeleted(0)]
  {
    RunAppend(s, PollOne(1, 0, true) + [Delete(0)], PollOne(1, 1, true));
    RunAppend(s, PollOne(1, 0, true), [Delete(0)]);
    var s1 := Run(s, PollOne(1, 0, true));
    PollOneSettles(s, 1, 0, true);
    assert s1.outbox.rows == map[0 := Created(true, 0, 0)];
    OneStep(s1, Delete(0));
    var s2 := Step(s1, Delete(0));
    assert s2.outbox.rows == map[0 := Created(true, 0, 0), 1 := Deleted(false)];
    assert s2.products == map[];
    PollOneSettles(s2, 1, 1, true);
    s' := Run(s2, PollOne(1, 1, true));
    assert s'.outbox.rows == map[0 := Created(true, 0, 0), 1 := Deleted(true)];
    assert s'.index == map[];
  }

  // The creation, still in relay 0's hands, is handled last.
  lemma StaleHandling(s: State)
    requires 0 in s.relays && s.relays[0] == Batch([0], map[0 := Created(false, 0, 0)], [])
    requires s.index == map[] && s.products == map[]
    requires s.outbox == Tables(2, map[0 := Created(true, 0, 0), 1 := Deleted(true)], map[]) && |s.log| == 2
    ensures var s' := Step(s, Handle(0, true, Sent)); Drained(s', 0) && !Agrees(s', 0)
  {
    assert MayHandle(s, 0) && NextId(s, 0) == 0;
    assert Step(s, Handle(0, true, Sent)).index == map[0 := DocOf(LAMP)];
  }

  /** With two relays the index can show a deleted product for good: relay 0 handles the
      creation it read before relay 1 settled the creation and the deletion. */
  lemma SecondRelayRevivesDeleted()
    ensures var s := Run(EMPTY, STALE_READ + SETTLED + [Handle(0, true, Sent)]);
            Drained(s, 0) && !Agrees(s, 0)
  {
    var s0 := CreatedState();
    RunAppend(EMPTY, [Create(0, LAMP)], [Read(0, [0])]);
    OneStep(s0, Read(0, [0]));
    ReadOne(s0, 0, 0);
    var s1 := Step(s0, Read(0, [0]));
    var s2 := SettledState(s1);
    RunAppend(EMPTY, STALE_READ, SETTLED);
    RunAppend(EMPTY, STALE_READ + SETTLED, [Handle(0, true, Sent)]);
    OneStep(s2, Handle(0, true, Sent));
    StaleHandling(s2);
  }

  const FAILED_ONCE := PollOne(0, 0, false) + [Delete(0)] + PollOne(0, 1, true)
  const RETRIED := [Tick(500_000_000)] + PollOne(0, 0, true)

  lemma RetryWaits(s: State) returns (s': State)
    requires s.products == map[0 := LAMP] && s.outbox == Tables(1, map[0 := Created(false, 0, 0)], map[])
    requires s.index == map[] && s.clock == 0 && s.log == [ProductCreated(0, LAMP)] && s.relays == map[]
    ensures s' == Run(s, FAILED_ONCE) && s'.clock == 0
    ensures s'.relays == map[] && s'.products == map[] && s'.index == map[]
    ensures s'.outbox == Tables(2, map[0 := Created(false, 1, 500_000_000), 1 := Deleted(true)], map[])
    ensures s'.log == [ProductCreated(0, LAMP), ProductDeleted(0)]
  {
    RunAppend(s, PollOne(0, 0, false) + [Delete(0)], PollOne(0, 1, true));
    RunAppend(s, PollOne(0, 0, false), [Delete(0)]);
    var s1 := Run(s, PollOne(0, 0, false));
    PollOneSettles(s, 0, 0, false);
    assert Backoff(0) == 500_000_000;
    assert s1.outbox.rows == map[0 := Created(false, 1, 500_000_000)];
    OneStep(s1, Delete(0));
    var s2 := Step(s1, Delete(0));
    assert s2.outbox.rows == map[0 := Created(false, 1, 500_000_000), 1 := Deleted(false)];
    assert s2.products == map[];
    PollOneSettles(s2, 0, 1, true);
    s' := Run(s2, PollOne(0, 1, true));
    assert s'.outbox.rows == map[0 := Created(false, 1, 500_000_000), 1 := Deleted(true)];
    assert s'.index == map[];
  }

  /** One relay is not enough if the handler fails once: the creation's retry comes after the
      deletion, and the index shows a deleted product for good. */
  lemma RetryRevivesDeleted()
    ensures var s := Run(EMPTY, [Create(0, LAMP)] + FAILED_ONCE + RETRIED);
            Drained(s, 0) && !Agrees(s, 0)
  {
    var s0 := CreatedState();
    var s1 := RetryWaits(s0);
    RunAppend(EMPTY, [Create(0, LAMP)], FAILED_ONCE);
    RunAppend(EMPTY, [Create(0, LAMP)] + FAILED_ONCE, RETRIED);
    RunAppend(s1, [Tick(500_000_000)], PollOne(0, 0, true));
    OneStep(s1, Tick(500_000_000));
    var s2 := Step(s1, Tick(500_000_000));
    PollOneSettles(s2, 0, 0, true);
    var s3 := Run(s2, PollOne(0, 0, true));
    assert s3.outbox.rows == map[0 := Created(true, 1, 500_000_000), 1 := Deleted(true)];
    assert s3.index == map[0 := DocOf(LAMP)];
  }
}
