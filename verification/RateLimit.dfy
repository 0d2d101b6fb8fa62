/**
The sliding-window limiters.  Both forget hits that have left the window; the rule they must
follow looks at every call ever accepted.  The user service's window is open at its old end,
the gateway's is closed.

The gateway reads the clock under its lock, so its readings never go back.  The user service
reads it before taking the lock, so a call may be decided after one that read a later time; what
that one made the limiter forget is then missing.
*/
module RateLimit {
  import opened Common

  datatype Edge = OpenEnd | ClosedEnd

  predicate Inside(edge: Edge, cutoff: int, t: int) {
    if edge == OpenEnd then t > cutoff else t >= cutoff
  }

  // The hits that are inside the window ending now.
  function Recent(edge: Edge, hits: seq<int>, cutoff: int): seq<int> {
    if hits == [] then []
    else
      var rest, t := Recent(edge, hits[..|hits| - 1], cutoff), hits[|hits| - 1];
      if Inside(edge, cutoff, t) then rest + [t] else rest
  }

  // The accepted calls in any window of that kind, wherever it ends.
  function Between(edge: Edge, accepted: seq<int>, from: int, to: int): seq<int> {
    if accepted == [] then []
    else
      var rest, t := Between(edge, accepted[..|accepted| - 1], from, to), accepted[|accepted| - 1];
      if Inside(edge, from, t) && t <= to then rest + [t] else rest
  }

  /** What counts as recent: the hits later than the cutoff, and at the gateway also those on it,
      each as often as it was made. */
  lemma {:induction false} RecentIsExact(edge: Edge, hits: seq<int>, cutoff: int, t: int)
    ensures multiset(Recent(edge, hits, cutoff))[t] ==
      if t > cutoff || (edge == ClosedEnd && t == cutoff) then multiset(hits)[t] else 0
    decreases |hits|
  {
    if hits != [] {
      RecentIsExact(edge, hits[..|hits| - 1], cutoff, t);
      assert hits == hits[..|hits| - 1] + [hits[|hits| - 1]];
    }
  }

  // What counts as inside a window, likewise.
  lemma {:induction false} BetweenIsExact(edge: Edge, accepted: seq<int>, from: int, to: int, t: int)
    ensures multiset(Between(edge, accepted, from, to))[t] ==
      if (from < t || (edge == ClosedEnd && t == from)) && t <= to then multiset(accepted)[t] else 0
    decreases |accepted|
  {
    if accepted != [] {
      BetweenIsExact(edge, accepted[..|accepted| - 1], from, to, t);
      assert accepted == accepted[..|accepted| - 1] + [accepted[|accepted| - 1]];
    }
  }

  /* ---------- The rule bounds every window ---------- */

  // Each call was accepted with fewer than `limit` accepted calls in the window ending with it.
  ghost predicate FollowsRule(edge: Edge, limit: nat, window: int, accepted: seq<int>) {
    accepted != [] ==>
      var rest, t := accepted[..|accepted| - 1], accepted[|accepted| - 1];
      FollowsRule(edge, limit, window, rest) && |Recent(edge, rest, t - window)| < limit
  }

  lemma {:induction false} BetweenAtMostRecent(edge: Edge, accepted: seq<int>, from: int, to: int, cutoff: int)
    requires cutoff <= from
    ensures |Between(edge, accepted, from, to)| <= |Recent(edge, accepted, cutoff)|
    decreases |accepted|
  {
    if accepted != [] {
      BetweenAtMostRecent(edge, accepted[..|accepted| - 1], from, to, cutoff);
    }
  }

  /** No window holds more than `limit` accepted calls, wherever it is put. */
  lemma {:induction false} NoWindowOverflows(edge: Edge, limit: nat, window: int, accepted: seq<int>, from: int)
    requires FollowsRule(edge, limit, window, accepted)
    ensures |Between(edge, accepted, from, from + window)| <= limit
    decreases |accepted|
  {
    if accepted != [] {
      var n := |accepted| - 1;
      var rest, t := accepted[..n], accepted[n];
      NoWindowOverflows(edge, limit, window, rest, from);
      if t <= from + window {
        BetweenAtMostRecent(edge, rest, from, from + window, t - window);
      }
    }
  }

  lemma FollowsRuleAppend(edge: Edge, limit: nat, window: int, accepted: seq<int>, now: int)
    requires FollowsRule(edge, limit, window, accepted) && |Recent(edge, accepted, now - window)| < limit
    ensures FollowsRule(edge, limit, window, accepted + [now])
  {
    assert (accepted + [now])[..|accepted|] == accepted;
  }

  /* ---------- What is remembered ---------- */

  // An accepted call: the time it read, and the latest time read by a call decided after it.
  datatype Entry = Entry(at: int, since: Option<int>)

  function Times(log: seq<Entry>): (r: seq<int>)
    ensures |r| == |log|
  {
    seq(|log|, i requires 0 <= i < |log| => log[i].at)
  }

  // No call decided since has pruned it.
  predicate Survives(edge: Edge, window: int, e: Entry) {
    e.since.Some? ==> Inside(edge, e.since.value - window, e.at)
  }

  // What is left of the accepted calls.
  function Surviving(edge: Edge, window: int, log: seq<Entry>): seq<int> {
    if log == [] then []
    else
      var rest, e := Surviving(edge, window, log[..|log| - 1]), log[|log| - 1];
      if Survives(edge, window, e) then rest + [e.at] else rest
  }

  function Later(since: Option<int>, now: int): Option<int> {
    if since.Some? && since.value > now then since else Some(now)
  }

  // The accepted calls after one more call has been decided.
  function Touched(log: seq<Entry>, now: int): (r: seq<Entry>)
    ensures |r| == |log|
  {
    seq(|log|, i requires 0 <= i < |log| => log[i].(since := Later(log[i].since, now)))
  }

  // Nothing in the window of `now` has been forgotten.
  predicate Intact(edge: Edge, window: int, log: seq<Entry>, now: int) {
    forall e <- log :: Inside(edge, now - window, e.at) ==> Survives(edge, window, e)
  }

  lemma {:induction false} PruningTouches(edge: Edge, window: int, log: seq<Entry>, now: int)
    ensures Recent(edge, Surviving(edge, window, log), now - window) == Surviving(edge, window, Touched(log, now))
    decreases |log|
  {
    if log != [] {
      var rest, e := log[..|log| - 1], log[|log| - 1];
      PruningTouches(edge, window, rest, now);
      assert Touched(log, now)[..|log| - 1] == Touched(rest, now);
      var kept := Surviving(edge, window, rest);
      assert (kept + [e.at])[..|kept|] == kept;
    }
  }

  /** In whatever order the calls are decided: what is remembered of a window is never more than
      was accepted in it, and it is all of it if and only if nothing of it was forgotten. */
  lemma {:induction false} RemembersIff(edge: Edge, window: int, log: seq<Entry>, now: int)
    ensures var hits := Surviving(edge, window, log);
            && |Recent(edge, hits, now - window)| <= |Recent(edge, Times(log), now - window)|
            && (|Recent(edge, hits, now - window)| == |Recent(edge, Times(log), now - window)| <==>
                Intact(edge, window, log, now))
    decreases |log|
  {
    if log != [] {
      var rest, e := log[..|log| - 1], log[|log| - 1];
      RemembersIff(edge, window, rest, now);
      assert Times(log)[..|log| - 1] == Times(rest);
      var kept := Surviving(edge, window, rest);
      assert (kept + [e.at])[..|kept|] == kept;
      assert log == rest + [e];
    }
  }

  // Whether one call is let through, and what it does to its key's hits.
  predicate Accepts(edge: Edge, limit: nat, window: int, hits: seq<int>, now: int) {
    |Recent(edge, hits, now - window)| < limit
  }

  function Kept(edge: Edge, limit: nat, window: int, hits: seq<int>, now: int): seq<int> {
    var recent := Recent(edge, hits, now - window);
    if Accepts(edge, limit, window, hits, now) then recent + [now] else recent
  }

  /* ---------- The tables ---------- */

  function Of<T>(m: map<string, seq<T>>, key: string): seq<T> {
    if key in m then m[key] else []
  }

  // What a limiter keeps of each key, and histories: its accepted calls, and whether it was ever
  // asked about after a call of the window had been forgotten.
  datatype Tables = Tables(hits: map<string, seq<int>>, log: map<string, seq<Entry>>, late: set<string>)

  // The hits are what survives of the history; unless it was late, the rule was followed.
  ghost predicate KeySound(edge: Edge, limit: nat, window: int, t: Tables, key: string) {
    && Of(t.hits, key) == Surviving(edge, window, Of(t.log, key))
    && (key !in t.late ==> FollowsRule(edge, limit, window, Times(Of(t.log, key))))
  }

  ghost predicate Sound(edge: Edge, limit: nat, window: int, t: Tables) {
    forall key: string :: KeySound(edge, limit, window, t, key)
  }

  // The log of one key after a call, accepted or not.
  function Logged(log: seq<Entry>, now: int, ok: bool): seq<Entry> {
    Touched(log, now) + if ok then [Entry(now, None)] else []
  }

  function Decided(edge: Edge, limit: nat, window: int, t: Tables, key: string, now: int): Tables {
    var hits, log := Of(t.hits, key), Of(t.log, key);
    Tables(t.hits[key := Kept(edge, limit, window, hits, now)],
           t.log[key := Logged(log, now, Accepts(edge, limit, window, hits, now))],
           if Intact(edge, window, log, now) then t.late else t.late + {key})
  }

  lemma LoggedTimes(log: seq<Entry>, now: int, ok: bool)
    ensures Times(Logged(log, now, ok)) == Times(log) + if ok then [now] else []
  {
  }

  lemma LoggedSurvives(edge: Edge, limit: nat, window: int, log: seq<Entry>, now: int)
    ensures var hits := Surviving(edge, window, log);
            Surviving(edge, window, Logged(log, now, Accepts(edge, limit, window, hits, now))) ==
            Kept(edge, limit, window, hits, now)
  {
    var hits, touched := Surviving(edge, window, log), Touched(log, now);
    PruningTouches(edge, window, log, now);
    if Accepts(edge, limit, window, hits, now) {
      assert (touched + [Entry(now, None)])[..|touched|] == touched;
    } else {
      assert touched + [] == touched;
    }
  }

  lemma DecidedHere(edge: Edge, limit: nat, window: int, t: Tables, key: string, now: int)
    requires KeySound(edge, limit, window, t, key)
    ensures KeySound(edge, limit, window, Decided(edge, limit, window, t, key, now), key)
  {
    var log := Of(t.log, key);
    var ok := Accepts(edge, limit, window, Of(t.hits, key), now);
    LoggedSurvives(edge, limit, window, log, now);
    LoggedTimes(log, now, ok);
    RemembersIff(edge, window, log, now);
    if key !in t.late && Intact(edge, window, log, now) {
      if ok {
        FollowsRuleAppend(edge, limit, window, Times(log), now);
      } else {
        assert Times(log) + [] == Times(log);
      }
    }
  }

  lemma DecidedElsewhere(edge: Edge, limit: nat, window: int, t: Tables, key: string, now: int, k: string)
    requires k != key && KeySound(edge, limit, window, t, k)
    ensures KeySound(edge, limit, window, Decided(edge, limit, window, t, key, now), k)
  {
    var t' := Decided(edge, limit, window, t, key, now);
    assert Of(t'.hits, k) == Of(t.hits, k) && Of(t'.log, k) == Of(t.log, k) && (k in t'.late <==> k in t.late);
  }

  /** One decision, whatever the clock read: the tables stay sound; a refusal is right by the
      whole history; and for every limit the decision is the one the whole history demands if
      and only if nothing of the window was forgotten. */
  lemma DecisionIsSound(edge: Edge, limit: nat, window: int, t: Tables, key: string, now: int)
    requires Sound(edge, limit, window, t)
    ensures Sound(edge, limit, window, Decided(edge, limit, window, t, key, now))
    ensures var hits, all := Of(t.hits, key), Times(Of(t.log, key));
            && (!Accepts(edge, limit, window, hits, now) ==> !Accepts(edge, limit, window, all, now))
            && ((forall n: nat :: Accepts(edge, n, window, hits, now) <==> Accepts(edge, n, window, all, now)) <==>
                Intact(edge, window, Of(t.log, key), now))
  {
    assert KeySound(edge, limit, window, t, key);
    RemembersIff(edge, window, Of(t.log, key), now);
    SameForEveryLimit(edge, window, Of(t.hits, key), Times(Of(t.log, key)), now);
    forall k: string ensures KeySound(edge, limit, window, Decided(edge, limit, window, t, key, now), k) {
      assert KeySound(edge, limit, window, t, k);
      if k == key {
        DecidedHere(edge, limit, window, t, key, now);
      } else {
        DecidedElsewhere(edge, limit, window, t, key, now, k);
      }
    }
  }

  lemma SameForEveryLimit(edge: Edge, window: int, a: seq<int>, b: seq<int>, now: int)
    ensures (forall n: nat :: Accepts(edge, n, window, a, now) <==> Accepts(edge, n, window, b, now)) <==>
      |Recent(edge, a, now - window)| == |Recent(edge, b, now - window)|
  {
    var n, m := |Recent(edge, a, now - window)|, |Recent(edge, b, now - window)|;
    if n != m {
      var least := if n < m then m else n;
      assert Accepts(edge, least, window, a, now) != Accepts(edge, least, window, b, now);
    }
  }

  // Keeps the hits inside the window, in order.
  method Prune(edge: Edge, hits: seq<int>, cutoff: int) returns (recent: seq<int>)
    ensures recent == Recent(edge, hits, cutoff)
  {
    recent := [];
    for i := 0 to |hits|
      invariant recent == Recent(edge, hits[..i], cutoff)
    {
      assert hits[..i + 1][..i] == hits[..i];
      if Inside(edge, cutoff, hits[i]) {
        recent := recent + [hits[i]];
      }
    }
    assert hits[..|hits|] == hits;
  }

  const MINUTE: int := 60_000_000_000

  /** The user service's limiter. */
  class MemoryRateLimiter {
    const limit: nat
    const window: int
    var hits: map<string, seq<int>>
    ghost var log: map<string, seq<Entry>>
    ghost var late: set<string>

    constructor (limit: int, window: int)
      ensures Valid() && View() == Tables(map[], map[], {})
      ensures this.limit == (if limit <= 0 then 10 else limit)
      ensures this.window == (if window <= 0 then MINUTE else window)
    {
      this.limit := if limit <= 0 then 10 else limit;
      this.window := if window <= 0 then MINUTE else window;
      hits, log, late := map[], map[], {};
    }

    ghost function View(): Tables
      reads this
    {
      Tables(hits, log, late)
    }

    ghost predicate Valid()
      reads this
    {
      Sound(OpenEnd, limit, window, View())
    }

    // The calls accepted under a key, of all there ever were, in the order they were decided.
    ghost function Accepted(key: string): seq<int>
      reads this
    {
      Times(Of(log, key))
    }

    /** For any reading of the clock: a refusal means that `limit` accepted calls of this key are
        in the window; and unless a call decided before, with a later reading, has made it forget
        a call of this window, it accepts exactly when there are fewer.  Other keys do not matter. */
    method Allow(key: string, now: int) returns (ok: bool)
      requires Valid()
      modifies this
      ensures Valid() && View() == Decided(OpenEnd, limit, window, old(View()), key, now)
      ensures Accepted(key) == old(Accepted(key)) + if ok then [now] else []
      ensures ok <==> Accepts(OpenEnd, limit, window, Of(old(hits), key), now)
      ensures !ok ==> |Recent(OpenEnd, old(Accepted(key)), now - window)| >= limit
      ensures Intact(OpenEnd, window, Of(old(log), key), now) ==>
        (ok <==> |Recent(OpenEnd, old(Accepted(key)), now - window)| < limit)
    {
      ghost var before := View();
      DecisionIsSound(OpenEnd, limit, window, before, key, now);
      assert Accepts(OpenEnd, limit, window, Times(Of(log, key)), now) <==>
             |Recent(OpenEnd, Accepted(key), now - window)| < limit;
      var recent := Prune(OpenEnd, Of(hits, key), now - window);
      ok := |recent| < limit;
      LoggedTimes(Of(log, key), now, ok);
      hits := hits[key := if ok then recent + [now] else recent];
      ghost var after := Decided(OpenEnd, limit, window, before, key, now);
      log, late := after.log, after.late;
      assert View() == after;
    }

    /** For a key of which nothing in a window was ever forgotten, no half-open window holds more
        than `limit` accepted calls. */
    lemma WindowsHold(key: string, from: int)
      requires Valid() && key !in late
      ensures |Between(OpenEnd, Accepted(key), from, from + window)| <= limit
    {
      assert KeySound(OpenEnd, limit, window, View(), key);
      NoWindowOverflows(OpenEnd, limit, window, Accepted(key), from);
    }
  }

  lemma RecentOfOne(a: int, cutoff: int)
    ensures Recent(OpenEnd, [a], cutoff) == if a > cutoff then [a] else []
  {
    assert [a][..0] == [];
  }

  lemma RecentOfTwo(a: int, b: int, cutoff: int)
    ensures Recent(OpenEnd, [a, b], cutoff) ==
            Recent(OpenEnd, [a], cutoff) + if b > cutoff then [b] else []
  {
    assert [a, b][..1] == [a];
  }

  // The hits after each of the four calls.
  lemma LateReadingsAccepted()
    ensures Accepts(OpenEnd, 2, 10, [], 1) && Kept(OpenEnd, 2, 10, [], 1) == [1]
    ensures Accepts(OpenEnd, 2, 10, [1], 2) && Kept(OpenEnd, 2, 10, [1], 2) == [1, 2]
    ensures Accepts(OpenEnd, 2, 10, [1, 2], 13) && Kept(OpenEnd, 2, 10, [1, 2], 13) == [13]
    ensures Accepts(OpenEnd, 2, 10, [13], 5)
  {
    RecentOfOne(1, -8);
    RecentOfOne(1, 3);
    RecentOfTwo(1, 2, 3);
    RecentOfOne(13, -5);
  }

  lemma BetweenAppend(edge: Edge, accepted: seq<int>, t: int, from: int, to: int)
    ensures Between(edge, accepted + [t], from, to) ==
            Between(edge, accepted, from, to) + if Inside(edge, from, t) && t <= to then [t] else []
  {
    assert (accepted + [t])[..|accepted|] == accepted;
  }

  /** The failing case.  With two calls allowed in ten, four overlapping calls that read the clock
      at 1, 2, 13 and 5 and are decided in that order are all accepted, and the window from -5
      to 5 holds three of them. */
  lemma LateReadingOverflows()
    ensures var h1 := Kept(OpenEnd, 2, 10, [], 1);
            var h2 := Kept(OpenEnd, 2, 10, h1, 2);
            var h3 := Kept(OpenEnd, 2, 10, h2, 13);
            && Accepts(OpenEnd, 2, 10, [], 1) && Accepts(OpenEnd, 2, 10, h1, 2)
            && Accepts(OpenEnd, 2, 10, h2, 13) && Accepts(OpenEnd, 2, 10, h3, 5)
    ensures Between(OpenEnd, [1, 2, 13, 5], -5, 5) == [1, 2, 5]
  {
    LateReadingsAccepted();
    assert [] + [1] + [2] + [13] + [5] == [1, 2, 13, 5];
    BetweenAppend(OpenEnd, [], 1, -5, 5);
    BetweenAppend(OpenEnd, [] + [1], 2, -5, 5);
    BetweenAppend(OpenEnd, [] + [1] + [2], 13, -5, 5);
    BetweenAppend(OpenEnd, [] + [1] + [2] + [13], 5, -5, 5);
  }

  /** The gateway's in-memory limiter: the closed window, and a limit that may be zero.  It reads
      the clock under its lock, so nothing is ever forgotten too early. */
  class GatewayLimiter {
    const max: nat
    const window: nat
    var entries: map<string, seq<int>>
    ghost var log: map<string, seq<Entry>>
    ghost var clock: int

    constructor (max: nat, window: nat, ghost start: int)
      ensures Valid() && log == map[] && clock == start && this.max == max && this.window == window
    {
      this.max, this.window := max, window;
      entries, log, clock := map[], map[], start;
    }

    ghost function View(): Tables
      reads this
    {
      Tables(entries, log, {})
    }

    ghost predicate Valid()
      reads this
    {
      (forall key <- log :: DecidedBy(log[key], clock)) && Sound(ClosedEnd, max, window, View())
    }

    ghost function Accepted(key: string): seq<int>
      reads this
    {
      Times(Of(log, key))
    }

    /** Accepts exactly when fewer than `max` calls accepted under this key, of all there ever
        were, are in the window; other keys do not matter. */
    method Check(key: string, now: int) returns (ok: bool)
      requires Valid() && clock <= now
      modifies this
      ensures Valid() && clock == now
      ensures ok <==> |Recent(ClosedEnd, old(Accepted(key)), now - window)| < max
      ensures Accepted(key) == old(Accepted(key)) + if ok then [now] else []
      ensures forall k :: k != key ==> Accepted(k) == old(Accepted(k))
    {
      ghost var before := View();
      DecisionIsSound(ClosedEnd, max, window, before, key, now);
      NothingForgotten(ClosedEnd, window, Of(log, key), clock, now);
      assert Accepts(ClosedEnd, max, window, Times(Of(log, key)), now) <==>
             |Recent(ClosedEnd, Accepted(key), now - window)| < max;
      var kept := Prune(ClosedEnd, Of(entries, key), now - window);
      ok := |kept| < max;
      LoggedTimes(Of(log, key), now, ok);
      LoggedBy(Of(log, key), clock, now, ok);
      entries := entries[key := if ok then kept + [now] else kept];
      ghost var after := Decided(ClosedEnd, max, window, before, key, now);
      log, clock := after.log, now;
      assert View() == after;
    }

    /** At any time, no closed window holds more than `max` accepted calls of a key. */
    lemma WindowsHold(key: string, from: int)
      requires Valid()
      ensures |Between(ClosedEnd, Accepted(key), from, from + window)| <= max
    {
      assert KeySound(ClosedEnd, max, window, View(), key);
      NoWindowOverflows(ClosedEnd, max, window, Accepted(key), from);
    }
  }

  // No call has read a later time.
  ghost predicate DecidedBy(log: seq<Entry>, clock: int) {
    forall e <- log :: e.since.Some? ==> e.since.value <= clock
  }

  lemma NothingForgotten(edge: Edge, window: int, log: seq<Entry>, clock: int, now: int)
    requires DecidedBy(log, clock) && clock <= now
    ensures Intact(edge, window, log, now)
  {
  }

  lemma LoggedBy(log: seq<Entry>, clock: int, now: int, ok: bool)
    requires DecidedBy(log, clock) && clock <= now
    ensures DecidedBy(Logged(log, now, ok), now)
  {
  }
}
