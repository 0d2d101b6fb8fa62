/**
The transactional outbox both services use: a table of events waiting to be relayed, a
dead-letter table, the SQL statements on them, and what one committed poll does to them.

Events are numbered in the order their transactions committed; the number stands for the
event's id and for its created_at.
*/
module Outbox {
  type EventId = nat

  datatype Row<E> = Row(event: E, processed: bool, retries: nat, nextAt: int)

  datatype Dead<E> = Dead(event: E, retries: nat)

  datatype Tables<E> = Tables(next: EventId, rows: map<EventId, Row<E>>, dlq: map<EventId, Dead<E>>)

  const MAX_RETRIES: nat := 5
  const BATCH: nat := 100

  // A batch names each event once.
  predicate Distinct(ids: seq<EventId>) {
    forall i, j :: 0 <= i < j < |ids| ==> ids[i] != ids[j]
  }

  // How many committed polls have selected an event.
  function Count(polls: map<EventId, nat>, id: EventId): nat {
    if id in polls then polls[id] else 0
  }

  /* ---------- Backoff ---------- */

  const BASE_BACKOFF: int := 500_000_000      // 500 ms, in nanoseconds
  const MAX_BACKOFF: int := 30_000_000_000    // 30 s
  const INT64_MAX: int := 0x7fff_ffff_ffff_ffff

  function Pow2(n: nat): int {
    if n == 0 then 1 else 2 * Pow2(n - 1)
  }

  function Backoff(retries: nat): int {
    var factor := Pow2(if retries < 10 then retries else 10);
    if BASE_BACKOFF * factor > MAX_BACKOFF then MAX_BACKOFF else BASE_BACKOFF * factor
  }

  lemma {:induction false} Pow2Monotone(m: nat, n: nat)
    requires m <= n
    ensures 1 <= Pow2(m) <= Pow2(n)
    decreases n
  {
    if m < n {
      Pow2Monotone(m, n - 1);
    } else if m > 0 {
      Pow2Monotone(m - 1, n - 1);
    }
  }

  /** The backoff doubles from half a second up to thirty seconds and stays there; it never
      decreases, and the product it is computed from fits 64 bits for every count. */
  lemma BackoffDoublesToItsCap(m: nat, n: nat)
    requires m <= n
    ensures 500_000_000 <= Backoff(m) <= Backoff(n) <= 30_000_000_000
    ensures BASE_BACKOFF * Pow2(if n < 10 then n else 10) <= INT64_MAX
    ensures n <= 5 ==> Backoff(n) == 500_000_000 * Pow2(n)
    ensures n >= 6 ==> Backoff(n) == 30_000_000_000
  {
    var m', n' := if m < 10 then m else 10, if n < 10 then n else 10;
    Pow2Monotone(m', n');
    Pow2Monotone(n', 10);
    assert Pow2(3) == 8 && Pow2(6) == 8 * Pow2(3) && Pow2(10) == 16 * Pow2(6);
    if n <= 5 {
      Pow2Monotone(n, 5);
      assert Pow2(6) == 2 * Pow2(5);
    } else {
      Pow2Monotone(6, n');
    }
  }

  /* ---------- Statements ---------- */

  // INSERT INTO outbox, inside the transaction of the business change.
  function Append<E>(t: Tables<E>, event: E, now: int): Tables<E> {
    Tables(t.next + 1, t.rows[t.next := Row(event, false, 0, now)], t.dlq)
  }

  // UPDATE outbox SET processed_at = NOW() WHERE id = id
  function MarkProcessed<E>(t: Tables<E>, id: EventId): Tables<E> {
    if id in t.rows then t.(rows := t.rows[id := t.rows[id].(processed := true)]) else t
  }

  function IncrementRetry<E>(t: Tables<E>, id: EventId, nextAt: int): Tables<E> {
    if id in t.rows then
      t.(rows := t.rows[id := t.rows[id].(retries := t.rows[id].retries + 1, nextAt := nextAt)])
    else t
  }

  // INSERT INTO outbox_dlq ... ON CONFLICT DO NOTHING, then DELETE FROM outbox
  function MoveToDLQ<E>(t: Tables<E>, id: EventId, dead: Dead<E>): Tables<E> {
    t.(rows := t.rows - {id}, dlq := if id in t.dlq then t.dlq else t.dlq[id := dead])
  }

  /* ---------- What one poll decides, and what committing it does ---------- */

  datatype Attempt = Sent | Refused | Poison

  datatype Verdict<E> = Done | Bury(dead: Dead<E>) | Again(nextAt: int)

  function Judge<E>(row: Row<E>, attempt: Attempt, now: int): Verdict<E> {
    if attempt == Sent then
      Done
    else if attempt == Poison || row.retries + 1 >= MAX_RETRIES then
      Bury(Dead(row.event, row.retries + 1))
    else
      Again(now + Backoff(row.retries))
  }

  /** What becomes of an event: processed when it was sent; dead at once when it cannot be sent
      at all, and otherwise on its fifth failure; and before that due again after its backoff.
      The dead letter counts the failure that killed it. */
  lemma FiveFailuresBury<E>(row: Row<E>, attempt: Attempt, now: int)
    ensures var v := Judge(row, attempt, now);
            && (v.Done? <==> attempt == Sent)
            && (v.Bury? <==> attempt == Poison || (attempt == Refused && row.retries >= 4))
            && (v.Bury? ==> v.dead.event == row.event && v.dead.retries == row.retries + 1)
            && (v.Again? ==> now + 500_000_000 <= v.nextAt == now + Backoff(row.retries) <= now + 30_000_000_000)
  {
    BackoffDoublesToItsCap(row.retries, row.retries);
  }

  function SettleRow<E>(row: Row<E>, v: Verdict<E>): Row<E> {
    match v
    case Done => row.(processed := true)
    case Again(at) => row.(retries := row.retries + 1, nextAt := at)
    case Bury(_) => row
  }

  predicate Buried<E>(verdicts: map<EventId, Verdict<E>>, id: EventId) {
    id in verdicts && verdicts[id].Bury?
  }

  /** The tables after a commit of these verdicts, said row by row: no order of statements. */
  ghost function Settle<E>(t: Tables<E>, verdicts: map<EventId, Verdict<E>>): Tables<E> {
    Tables(t.next,
           map id | id in t.rows && !Buried(verdicts, id) ::
             if id in verdicts then SettleRow(t.rows[id], verdicts[id]) else t.rows[id],
           map id | id in t.dlq.Keys + verdicts.Keys && (id in t.dlq || Buried(verdicts, id)) ::
             if id in t.dlq then t.dlq[id] else verdicts[id].dead)
  }

  // One verdict carried out by its statement.
  function Execute<E>(t: Tables<E>, id: EventId, v: Verdict<E>): Tables<E> {
    match v
    case Done => MarkProcessed(t, id)
    case Bury(dead) => MoveToDLQ(t, id, dead)
    case Again(at) => IncrementRetry(t, id, at)
  }

  lemma SettleOneMoreRow<E>(t: Tables<E>, verdicts: map<EventId, Verdict<E>>, id: EventId, v: Verdict<E>)
    requires id !in verdicts
    ensures Settle(t, verdicts[id := v]).rows == Execute(Settle(t, verdicts), id, v).rows
  {
    var a, b := Settle(t, verdicts[id := v]).rows, Execute(Settle(t, verdicts), id, v).rows;
    forall i: EventId ensures (i in a <==> i in b) && (i in a ==> a[i] == b[i]) {
      assert i != id ==> (Buried(verdicts[id := v], i) <==> Buried(verdicts, i));
    }
  }

  lemma SettleOneMoreDead<E>(t: Tables<E>, verdicts: map<EventId, Verdict<E>>, id: EventId, v: Verdict<E>)
    requires id !in verdicts
    ensures Settle(t, verdicts[id := v]).dlq == Execute(Settle(t, verdicts), id, v).dlq
  {
    var a, b := Settle(t, verdicts[id := v]).dlq, Execute(Settle(t, verdicts), id, v).dlq;
    forall i: EventId ensures (i in a <==> i in b) && (i in a ==> a[i] == b[i]) {
      assert i != id ==> (Buried(verdicts[id := v], i) <==> Buried(verdicts, i));
    }
  }

  /** Adding one verdict to a commit is executing its statement after the others. */
  lemma SettleOneMore<E>(t: Tables<E>, verdicts: map<EventId, Verdict<E>>, id: EventId, v: Verdict<E>)
    requires id !in verdicts
    ensures Settle(t, verdicts[id := v]) == Execute(Settle(t, verdicts), id, v)
  {
    SettleOneMoreRow(t, verdicts, id, v);
    SettleOneMoreDead(t, verdicts, id, v);
  }

  /* ---------- Conservation ---------- */

  // Every event ever created is in exactly one of the two tables.
  ghost predicate Conserved<E>(t: Tables<E>) {
    && (forall id: EventId :: id < t.next <==> id in t.rows || id in t.dlq)
    && (forall id: EventId :: !(id in t.rows && id in t.dlq))
  }

  predicate Pending<E>(t: Tables<E>, id: EventId) {
    id in t.rows && !t.rows[id].processed
  }

  predicate Processed<E>(t: Tables<E>, id: EventId) {
    id in t.rows && t.rows[id].processed
  }

  function EventAt<E>(t: Tables<E>, id: EventId): E
    requires id in t.rows || id in t.dlq
  {
    if id in t.rows then t.rows[id].event else t.dlq[id].event
  }

  // The verdicts are about events that exist, and bury them with their own content.
  ghost predicate Faithful<E>(t: Tables<E>, verdicts: map<EventId, Verdict<E>>) {
    forall id <- verdicts ::
      && (id in t.rows || id in t.dlq)
      && (verdicts[id].Bury? ==> verdicts[id].dead.event == EventAt(t, id))
  }

  // Nothing is lost, nothing doubled, nothing altered, and only `Done` marks as processed.
  lemma SettleConserves<E>(t: Tables<E>, verdicts: map<EventId, Verdict<E>>)
    requires Conserved(t) && Faithful(t, verdicts)
    ensures Conserved(Settle(t, verdicts)) && Settle(t, verdicts).next == t.next
    ensures forall id: EventId :: id in t.rows || id in t.dlq ==>
      && (id in Settle(t, verdicts).rows || id in Settle(t, verdicts).dlq)
      && EventAt(Settle(t, verdicts), id) == EventAt(t, id)
    ensures forall id: EventId :: Processed(Settle(t, verdicts), id) ==>
      Processed(t, id) || (id in verdicts && verdicts[id].Done?)
  {
  }
}
