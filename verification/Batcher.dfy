/**
The analytics batcher: events are buffered, a flush takes the buffer and inserts it outside
the lock, and a failed insert puts it back in front.  Adds and any number of flushes overlap.
*/
module Batcher {
  datatype State<E> = State(
    buffer: seq<E>,
    inFlight: seq<seq<E>>,    // taken by flushes still running, oldest first
    inserted: seq<E>,         // what the store holds, in the order it was inserted
    accepted: seq<E>)         // history: what Add was given

  datatype Label<E> =
    | Add(event: E)
    | Take                       // Flush under the lock
    | Finish(i: nat, ok: bool)   // the i-th running flush: the insert's outcome

  function Without<T>(s: seq<T>, i: nat): seq<T>
    requires i < |s|
  {
    s[..i] + s[i + 1..]
  }

  function Step<E>(s: State<E>, l: Label<E>): State<E> {
    match l
    case Add(e) => s.(buffer := s.buffer + [e], accepted := s.accepted + [e])
    case Take => if s.buffer == [] then s else s.(buffer := [], inFlight := s.inFlight + [s.buffer])
    case Finish(i, ok) =>
      if i >= |s.inFlight| then s
      else if ok then s.(inFlight := Without(s.inFlight, i), inserted := s.inserted + s.inFlight[i])
      else s.(inFlight := Without(s.inFlight, i), buffer := s.inFlight[i] + s.buffer)
  }

  function Run<E>(s: State<E>, labels: seq<Label<E>>): State<E>
    decreases |labels|
  {
    if labels == [] then s else Run(Step(s, labels[0]), labels[1..])
  }

  function Empty<E>(): State<E> {
    State([], [], [], [])
  }

  function Flat<E>(batches: seq<seq<E>>): seq<E> {
    if batches == [] then [] else batches[0] + Flat(batches[1..])
  }

  lemma {:induction false} FlatAppend<E>(a: seq<seq<E>>, b: seq<seq<E>>)
    ensures Flat(a + b) == Flat(a) + Flat(b)
    decreases |a|
  {
    if a == [] {
      assert a + b == b;
    } else {
      assert (a + b)[1..] == a[1..] + b;
      FlatAppend(a[1..], b);
    }
  }

  lemma FlatSplit<E>(f: seq<seq<E>>, i: nat)
    requires i < |f|
    ensures Flat(f) == Flat(f[..i]) + f[i] + Flat(f[i + 1..])
    ensures Flat(Without(f, i)) == Flat(f[..i]) + Flat(f[i + 1..])
  {
    FlatAppend(f[..i], f[i..]);
    assert f == f[..i] + f[i..] && f[i..][1..] == f[i + 1..];
    FlatAppend(f[..i], f[i + 1..]);
  }

  lemma FlatLast<E>(f: seq<seq<E>>, b: seq<E>)
    ensures Flat(f + [b]) == Flat(f) + b
  {
    FlatAppend(f, [b]);
    assert [b][1..] == [];
  }

  /* ---------- Nothing is lost, nothing doubled ---------- */

  ghost predicate Conserved<E>(s: State<E>) {
    multiset(s.accepted) == multiset(s.inserted) + multiset(Flat(s.inFlight)) + multiset(s.buffer)
  }

  lemma StepConserves<E>(s: State<E>, l: Label<E>)
    requires Conserved(s)
    ensures Conserved(Step(s, l))
  {
    match l
    case Add(_) =>
    case Take => FlatLast(s.inFlight, s.buffer);
    case Finish(i, _) => if i < |s.inFlight| { FlatSplit(s.inFlight, i); }
  }

  /** Under any interleaving of adds, flushes and failing inserts, every accepted event is
      inserted, in flight or buffered, exactly as often as it was accepted. */
  lemma {:induction false} BatcherConserves<E>(s: State<E>, labels: seq<Label<E>>)
    requires Conserved(s)
    ensures Conserved(Run(s, labels))
    decreases |labels|
  {
    if labels != [] {
      StepConserves(s, labels[0]);
      BatcherConserves(Step(s, labels[0]), labels[1..]);
    }
  }

  /* ---------- Order ---------- */

  ghost predicate InOrder<E>(s: State<E>) {
    s.inserted + Flat(s.inFlight) + s.buffer == s.accepted
  }

  // A success of the oldest flush or a failure of the newest; with one flush at a time,
  // always so.
  predicate Orderly<E>(s: State<E>, l: Label<E>) {
    l.Finish? && l.i < |s.inFlight| ==> if l.ok then l.i == 0 else l.i == |s.inFlight| - 1
  }

  lemma OldestSucceeds<E>(s: State<E>)
    requires InOrder(s) && s.inFlight != []
    ensures InOrder(Step(s, Finish(0, true)))
  {
    var f := s.inFlight;
    assert Without(f, 0) == f[1..];
    assert s.inserted + f[0] + Flat(f[1..]) == s.inserted + Flat(f);
  }

  lemma NewestFails<E>(s: State<E>)
    requires InOrder(s) && s.inFlight != []
    ensures InOrder(Step(s, Finish(|s.inFlight| - 1, false)))
  {
    var n := |s.inFlight| - 1;
    var rest, last := s.inFlight[..n], s.inFlight[n];
    assert s.inFlight == rest + [last] && Without(s.inFlight, n) == rest;
    FlatLast(rest, last);
    assert s.inserted + Flat(rest) + (last + s.buffer) == s.inserted + (Flat(rest) + last) + s.buffer;
  }

  lemma OrderlyStepKeepsOrder<E>(s: State<E>, l: Label<E>)
    requires InOrder(s) && Orderly(s, l)
    ensures InOrder(Step(s, l))
  {
    match l
    case Add(e) => assert s.inserted + Flat(s.inFlight) + (s.buffer + [e]) == s.accepted + [e];
    case Take =>
      FlatLast(s.inFlight, s.buffer);
      assert s.inserted + (Flat(s.inFlight) + s.buffer) == s.accepted;
    case Finish(i, ok) =>
      if i < |s.inFlight| {
        if ok {
          OldestSucceeds(s);
        } else {
          NewestFails(s);
        }
      }
  }

  // One flush at a time.
  ghost predicate Alone<E>(s: State<E>, labels: seq<Label<E>>)
    decreases |labels|
  {
    labels != [] ==> (labels[0].Take? ==> s.inFlight == []) && Alone(Step(s, labels[0]), labels[1..])
  }

  /** With at most one flush in flight the store receives the events in the order they were
      accepted, whatever fails: inserted, in flight and buffer are the accepted sequence. */
  lemma {:induction false} SingleFlushKeepsOrder<E>(s: State<E>, labels: seq<Label<E>>)
    requires InOrder(s) && |s.inFlight| <= 1 && Alone(s, labels)
    ensures InOrder(Run(s, labels)) && |Run(s, labels).inFlight| <= 1
    decreases |labels|
  {
    if labels != [] {
      OrderlyStepKeepsOrder(s, labels[0]);
      SingleFlushKeepsOrder(Step(s, labels[0]), labels[1..]);
    }
  }

  ghost predicate AllDistinct<E>(s: seq<E>) {
    forall i, j :: 0 <= i < j < |s| ==> s[i] != s[j]
  }

  // Exchanging two neighbouring stretches of a sequence without repetition changes it.
  lemma SwapShows<E>(a: seq<E>, b: seq<E>, c: seq<E>, d: seq<E>)
    requires AllDistinct(a + b + c + d) && b != [] && c != []
    ensures a + b + c + d != a + c + b + d
  {
    var s, t := a + b + c + d, a + c + b + d;
    assert s[|a|] == b[0] && s[|a| + |b|] == c[0];
    assert t[|a|] == c[0];
  }

  lemma LaterSuccessReorders<E>(s: State<E>, i: nat)
    requires InOrder(s) && AllDistinct(s.accepted) && 0 < i < |s.inFlight| && Carrying(s)
    ensures !InOrder(Step(s, Finish(i, true)))
  {
    var f := s.inFlight;
    FlatSplit(f, i);
    var before, rest := Flat(f[..i]), Flat(f[i + 1..]) + s.buffer;
    assert s.inserted + before + f[i] + rest == s.accepted;
    FlatHasFirst(f, 0, i);
    assert f[i] in f;
    SwapShows(s.inserted, before, f[i], rest);
    assert s.inserted + f[i] + before + rest == s.inserted + f[i] + (before + Flat(f[i + 1..])) + s.buffer;
  }

  lemma EarlierFailureReorders<E>(s: State<E>, i: nat)
    requires InOrder(s) && AllDistinct(s.accepted) && i + 1 < |s.inFlight| && Carrying(s)
    ensures !InOrder(Step(s, Finish(i, false)))
  {
    var f := s.inFlight;
    FlatSplit(f, i);
    var before, after := s.inserted + Flat(f[..i]), Flat(f[i + 1..]);
    assert before + f[i] + after + s.buffer == s.accepted;
    FlatHasFirst(f, i + 1, |f|);
    assert f[i] in f && f[i + 1..|f|] == f[i + 1..];
    SwapShows(before, f[i], after, s.buffer);
    assert before + after + f[i] + s.buffer == s.inserted + (Flat(f[..i]) + after) + (f[i] + s.buffer);
  }

  /** Exactly when: for distinct events, finishing a flush keeps the order if and only if it is
      the oldest and succeeds or the newest and fails. */
  lemma OrderKeptIffOrderly<E>(s: State<E>, i: nat, ok: bool)
    requires InOrder(s) && AllDistinct(s.accepted) && i < |s.inFlight| && Carrying(s)
    ensures InOrder(Step(s, Finish(i, ok))) <==> Orderly(s, Finish(i, ok))
  {
    if Orderly(s, Finish(i, ok)) {
      OrderlyStepKeepsOrder(s, Finish(i, ok));
    } else if ok {
      LaterSuccessReorders(s, i);
    } else {
      EarlierFailureReorders(s, i);
    }
  }

  lemma FlatHasFirst<E>(f: seq<seq<E>>, lo: nat, hi: nat)
    requires lo < hi <= |f| && forall b <- f :: b != []
    ensures Flat(f[lo..hi]) != []
  {
    assert f[lo..hi][0] == f[lo] && f[lo] in f;
  }

  // A flush in flight carries something: an empty buffer is not taken.
  ghost predicate Carrying<E>(s: State<E>) {
    forall b <- s.inFlight :: b != []
  }

  lemma {:induction false} RunKeepsCarrying<E>(s: State<E>, labels: seq<Label<E>>)
    requires Carrying(s)
    ensures Carrying(Run(s, labels))
    decreases |labels|
  {
    if labels != [] {
      forall b <- Step(s, labels[0]).inFlight ensures b != [] {
        assert b in s.inFlight || b == s.buffer;
      }
      RunKeepsCarrying(Step(s, labels[0]), labels[1..]);
    }
  }

  /** So in every run from the start: while the order holds and the accepted events are distinct,
      finishing a flush keeps it if and only if it is the oldest and succeeds or the newest and
      fails. */
  lemma ReachableOrderKeptIff<E>(labels: seq<Label<E>>, i: nat, ok: bool)
    requires var s := Run(Empty(), labels); InOrder(s) && AllDistinct(s.accepted) && i < |s.inFlight|
    ensures var s := Run(Empty(), labels);
            InOrder(Run(Empty(), labels + [Finish(i, ok)])) <==> Orderly(s, Finish(i, ok))
  {
    var s := Run(Empty(), labels);
    RunKeepsCarrying(Empty(), labels);
    OrderKeptIffOrderly(s, i, ok);
    RunAppend(Empty(), labels, [Finish(i, ok)]);
    assert [Label<E>.Finish(i, ok)][1..] == [];
  }

  lemma {:induction false} RunAppend<E>(s: State<E>, a: seq<Label<E>>, b: seq<Label<E>>)
    ensures Run(s, a + b) == Run(Run(s, a), b)
    decreases |a|
  {
    if a == [] {
      assert a + b == b;
    } else {
      assert (a + b)[1..] == a[1..] + b;
      RunAppend(Step(s, a[0]), a[1..], b);
    }
  }

  const TWO_IN_FLIGHT: State<int> := State([], [[0], [1]], [], [0, 1])

  lemma TwoInFlight()
    ensures Run(Empty(), [Add(0), Take, Add(1), Take]) == TWO_IN_FLIGHT
  {
    var labels: seq<Label<int>> := [Add(0), Take, Add(1), Take];
    var s1 := State([0], [], [], [0]);
    var s2 := State([], [[0]], [], [0]);
    var s3 := State([1], [[0]], [], [0, 1]);
    assert Step(Empty(), labels[0]) == s1;
    assert Step(s1, labels[1]) == s2;
    assert Step(s2, labels[2]) == s3;
    assert Step(s3, labels[3]) == TWO_IN_FLIGHT;
    assert labels[3..][1..] == [] && labels[2..][1..] == labels[3..] && labels[1..][1..] == labels[2..];
    assert Run(s3, labels[3..]) == TWO_IN_FLIGHT;
    assert Run(s2, labels[2..]) == TWO_IN_FLIGHT;
    assert Run(s1, labels[1..]) == TWO_IN_FLIGHT;
  }

  /** Two flushes are enough to reorder: the older fails and goes back to the buffer while the
      newer is inserted. */
  lemma TwoFlushesReorder()
    ensures Run(Empty(), [Add(0), Take, Add(1), Take]) == TWO_IN_FLIGHT && InOrder(TWO_IN_FLIGHT)
    ensures var s := Step(Step(TWO_IN_FLIGHT, Finish(0, false)), Finish(0, true));
            s == State([0], [], [1], [0, 1]) && !InOrder(s)
  {
    TwoInFlight();
    assert Flat([[0], [1]]) == [0, 1] by {
      assert [[0], [1]][1..] == [[1]];
      FlatLast([[0]], [1]);
      FlatLast([], [0]);
      assert [[0]] + [[1]] == [[0], [1]] && [] + [[0]] == [[0]];
    }
    var s1 := Step(TWO_IN_FLIGHT, Finish(0, false));
    assert s1 == State([0], [[1]], [], [0, 1]);
    var s2 := Step(s1, Finish(0, true));
    assert s2 == State([0], [], [1], [0, 1]);
    assert ([1] + Flat([]) + [0])[0] == 1;
  }

  /* ---------- As it runs ---------- */

  class EventBatcher<E(==)> {
    const size: int
    var buffer: seq<E>
    ghost var inFlight: seq<seq<E>>
    ghost var inserted: seq<E>
    ghost var accepted: seq<E>

    constructor (size: int)
      ensures this.size == size && View() == Empty()
    {
      this.size, buffer, inFlight, inserted, accepted := size, [], [], [], [];
    }

    ghost function View(): State<E>
      reads this
    {
      State(buffer, inFlight, inserted, accepted)
    }

    // The first critical section of Flush: nothing to do, or the buffer taken.
    method TakeBuffer() returns (events: seq<E>)
      modifies `buffer, `inFlight
      ensures events == old(buffer) && View() == Step(old(View()), Take)
      ensures events != [] ==> inFlight == old(inFlight) + [events]
    {
      events := buffer;
      if |buffer| > 0 {
        inFlight := inFlight + [buffer];
        buffer := [];
      }
    }

    // The insert's outcome, and the second critical section if it failed.
    method FinishFlush(events: seq<E>, ok: bool, ghost i: nat)
      requires i < |inFlight| && inFlight[i] == events
      modifies `buffer, `inFlight, `inserted
      ensures View() == Step(old(View()), Finish(i, ok))
    {
      inFlight := Without(inFlight, i);
      if ok {
        inserted := inserted + events;
      } else {
        buffer := events + buffer;
      }
    }

    /** One flush, while any others may be in flight: all of the buffer reaches the store, or
        none of it and the buffer is as before.  The order is kept if no other is in flight or the
        insert fails. */
    method Flush(ok: bool) returns (err: bool)
      modifies `buffer, `inFlight, `inserted
      ensures inFlight == old(inFlight) && accepted == old(accepted)
      ensures err <==> !ok && old(buffer) != []
      ensures if err then buffer == old(buffer) && inserted == old(inserted)
              else buffer == [] && inserted == old(inserted) + old(buffer)
      ensures old(InOrder(View())) && (old(inFlight) == [] || !ok) ==> InOrder(View())
    {
      ghost var before := View();
      var events := TakeBuffer();
      if |events| == 0 {
        return false;
      }
      ghost var taken := View();
      FinishFlush(events, ok, |inFlight| - 1);
      assert Without(taken.inFlight, |taken.inFlight| - 1) == before.inFlight;
      if InOrder(before) && before.inFlight == [] {
        OrderlyStepKeepsOrder(before, Take);
        OrderlyStepKeepsOrder(taken, Finish(0, ok));
      }
      return !ok;
    }

    /** Add accepts the event whatever the flush it may trigger does; it flushes exactly when
        the buffer has reached its size. */
    method Add(event: E, ok: bool) returns (err: bool)
      modifies `buffer, `inFlight, `inserted, `accepted
      ensures inFlight == old(inFlight) && accepted == old(accepted) + [event]
      ensures err <==> !ok && |old(buffer)| + 1 >= size
      ensures |old(buffer)| + 1 < size || err ==> buffer == old(buffer) + [event] && inserted == old(inserted)
      ensures |old(buffer)| + 1 >= size && ok ==> buffer == [] && inserted == old(inserted) + old(buffer) + [event]
      ensures old(InOrder(View())) && (old(inFlight) == [] || !ok) ==> InOrder(View())
    {
      if InOrder(View()) {
        OrderlyStepKeepsOrder(View(), Label.Add(event));
      }
      buffer := buffer + [event];
      accepted := accepted + [event];
      if |buffer| >= size {
        err := Flush(ok);
        assert ok ==> inserted == old(inserted) + old(buffer) + [event];
      } else {
        err := false;
      }
    }
  }
}
