/**
The order service's two writers of the outbox as they run: CreateOrder, which appends an
event with the order, and the relay's poll, which settles a batch.
*/
module OrderService {
  import opened Common
  import opened Outbox
  import opened OrderOutbox
  import Saga

  /* ---------- The order total ---------- */

  // A line of the request; nothing about it has been checked.
  datatype Line = Line(product: ProductId, quantity: int, price: int)

  const TWO_63: int := 0x8000_0000_0000_0000
  const TWO_64: int := 0x1_0000_0000_0000_0000

  // The int64 that two's-complement arithmetic leaves of an integer.
  function Wrap64(x: int): int {
    (x + TWO_63) % TWO_64 - TWO_63
  }

  function Total(lines: seq<Line>): int {
    if lines == [] then 0
    else Total(lines[..|lines| - 1]) + lines[|lines| - 1].price * lines[|lines| - 1].quantity
  }

  lemma WrapMultiple(x: int, k: int)
    ensures Wrap64(x + k * TWO_64) == Wrap64(x)
  {
    var y := x + TWO_63;
    var q, r := y / TWO_64, y % TWO_64;
    assert y + k * TWO_64 == (q + k) * TWO_64 + r;
  }

  lemma WrapSum(x: int, y: int)
    ensures Wrap64(Wrap64(x) + Wrap64(y)) == Wrap64(x + y)
  {
    var i, j := (x + TWO_63) / TWO_64, (y + TWO_63) / TWO_64;
    assert Wrap64(x) == x - i * TWO_64 && Wrap64(y) == y - j * TWO_64;
    WrapMultiple(x + y, -i - j);
    assert (x + y) + (-i - j) * TWO_64 == Wrap64(x) + Wrap64(y);
  }

  // What is left is a 64-bit number, and what is lost a multiple of 2^64.
  lemma WrapFits(x: int)
    ensures -0x8000_0000_0000_0000 <= Wrap64(x) < 0x8000_0000_0000_0000
    ensures (x - Wrap64(x)) % 0x1_0000_0000_0000_0000 == 0
  {
    assert x - Wrap64(x) == (x + TWO_63) / TWO_64 * TWO_64;
  }

  lemma {:induction false} TotalAppend(a: seq<Line>, b: seq<Line>)
    ensures Total(a + b) == Total(a) + Total(b)
    decreases |b|
  {
    if b == [] {
      assert a + b == a;
    } else {
      assert (a + b)[..|a + b| - 1] == a + b[..|b| - 1];
      TotalAppend(a, b[..|b| - 1]);
    }
  }

  lemma TotalOfOne(line: Line)
    ensures Total([line]) == line.price * line.quantity
  {
    assert [line][..0] == [];
    assert Total([]) == 0;
  }

  /** The total is price times quantity summed over the lines, whatever order they come in: with
      nothing it is 0, one more line adds its own amount wherever it is put, and lists with the
      same lines have the same total. */
  lemma TotalCountsEachLine(before: seq<Line>, line: Line, after: seq<Line>)
    ensures Total([]) == 0
    ensures Total(before + [line] + after) == Total(before + after) + line.price * line.quantity
  {
    TotalAppend(before + [line], after);
    TotalAppend(before, [line]);
    TotalAppend(before, after);
    TotalOfOne(line);
  }

  lemma {:induction false} TotalIsOrderless(a: seq<Line>, b: seq<Line>)
    requires multiset(a) == multiset(b)
    ensures Total(a) == Total(b)
    decreases |a|
  {
    if a == [] {
      assert |b| == |multiset(b)| == 0;
    } else {
      var n := |a| - 1;
      assert a[n] in multiset(a);
      var j :| 0 <= j < |b| && b[j] == a[n];
      TakeOut(a, n);
      TakeOut(b, j);
      TotalIsOrderless(a[..n] + a[n + 1..], b[..j] + b[j + 1..]);
    }
  }

  // A list without one of its lines.
  lemma TakeOut(lines: seq<Line>, j: nat)
    requires j < |lines|
    ensures multiset(lines[..j] + lines[j + 1..]) == multiset(lines) - multiset{lines[j]}
    ensures Total(lines) == Total(lines[..j] + lines[j + 1..]) + lines[j].price * lines[j].quantity
  {
    assert lines == lines[..j] + [lines[j]] + lines[j + 1..];
    TotalCountsEachLine(lines[..j], lines[j], lines[j + 1..]);
  }

  /** The stored total is the exact one if and only if the exact one fits 64 bits, whatever
      wrapped on the way. */
  lemma TotalIsExact(lines: seq<Line>)
    ensures Wrap64(Total(lines)) == Total(lines) <==> -TWO_63 <= Total(lines) < TWO_63
  {
  }

  method SumLines(lines: seq<Line>) returns (total: int)
    ensures total == Wrap64(Total(lines))
  {
    total := 0;
    for i := 0 to |lines|
      invariant total == Wrap64(Total(lines[..i]))
    {
      var amount := lines[i].price * lines[i].quantity;
      WrapSum(Total(lines[..i]), amount);
      assert Wrap64(total) == total;
      WrapSum(total, amount);
      assert lines[..i + 1][..i] == lines[..i];
      total := Wrap64(total + Wrap64(amount));
    }
    assert lines[..|lines|] == lines;
  }

  /* ---------- CreateOrder ---------- */

  datatype Lookup = Product(price: int) | Missing | Unavailable

  datatype Reply = Created | PriceMismatch | CatalogError | NotStored

  // The checks and the column widths of order_items.
  predicate Storable(line: Line) {
    0 <= line.quantity <= 0x7fff_ffff && line.price >= 0
  }

  function ItemOf(line: Line): Saga.Item
    requires Storable(line)
  {
    Saga.Item(line.product, line.quantity, line.price)
  }

  predicate Priced(catalog: ProductId -> Lookup, line: Line) {
    catalog(line.product) == Product(line.price)
  }

  class Usecase {
    var orders: map<OrderId, Saga.Order>
    var outbox: Tables<Event>

    // The price check, line by line; the first line that fails it decides the error.
    method CheckPrices(lines: seq<Line>, catalog: ProductId -> Lookup) returns (error: Option<Reply>)
      ensures error.None? <==> forall i :: 0 <= i < |lines| ==> Priced(catalog, lines[i])
      ensures error.Some? ==>
        (exists i :: 0 <= i < |lines| && (forall j :: 0 <= j < i ==> Priced(catalog, lines[j]))
           && !Priced(catalog, lines[i])
           && error.value == if catalog(lines[i].product).Unavailable? then CatalogError else PriceMismatch)
    {
      for i := 0 to |lines|
        invariant forall j :: 0 <= j < i ==> Priced(catalog, lines[j])
      {
        match catalog(lines[i].product)
        case Unavailable => return Some(CatalogError);
        case Missing => return Some(PriceMismatch);
        case Product(price) =>
          if price != lines[i].price {
            return Some(PriceMismatch);
          }
      }
      return None;
    }

    /** Order and event are written together or not at all: together exactly when every line
        carries the catalogue's price and can be stored, the id is new and the commit
        succeeds.  The stored total is the wrapped sum. */
    method CreateOrder(id: OrderId, lines: seq<Line>, catalog: ProductId -> Lookup, now: int, commits: bool)
      returns (reply: Reply)
      modifies this
      ensures reply == Created <==>
        && (forall i :: 0 <= i < |lines| ==> catalog(lines[i].product) == Product(lines[i].price))
        && (forall i :: 0 <= i < |lines| ==> 0 <= lines[i].quantity <= 0x7fff_ffff && lines[i].price >= 0)
        && id !in old(orders) && commits
      ensures reply == NotStored || reply == Created <==>
        forall i :: 0 <= i < |lines| ==> catalog(lines[i].product) == Product(lines[i].price)
      ensures reply == Created ==>
        && id in orders && orders[id].id == id && orders[id].total == Wrap64(Total(lines))
        && |orders[id].items| == |lines|
        && (forall i :: 0 <= i < |lines| ==>
              && orders[id].items[i].product == lines[i].product
              && orders[id].items[i].quantity == lines[i].quantity
              && orders[id].items[i].price == lines[i].price)
        && orders == old(orders)[id := orders[id]]
        && outbox == Append(old(outbox), OrderCreated(id), now)
      ensures reply != Created ==> orders == old(orders) && outbox == old(outbox)
    {
      var total := SumLines(lines);
      var error := CheckPrices(lines, catalog);
      if error.Some? {
        return error.value;
      }
      var savedOrders, savedOutbox := orders, outbox;
      reply := NotStored;
      if id !in orders && forall i :: 0 <= i < |lines| ==> Storable(lines[i]) {
        var items := seq(|lines|, i requires 0 <= i < |lines| && Storable(lines[i]) => ItemOf(lines[i]));
        orders := orders[id := Saga.Order(id, items, total)];
        outbox := Append(outbox, OrderCreated(id), now);
        reply := Created;
      }
      if !commits {
        orders, outbox, reply := savedOrders, savedOutbox, NotStored;
      }
    }
  }

  /* ---------- The relay's poll ---------- */

  // UPDATE outbox SET processed_at = NOW() WHERE id = ANY(ids)
  function BatchMarkProcessed(t: Tables<Event>, ids: seq<EventId>): Tables<Event> {
    t.(rows := map id | id in t.rows :: if id in ids then t.rows[id].(processed := true) else t.rows[id])
  }

  // What a poll decides about a batch, given how each send goes.
  function PollVerdicts(t: Tables<Event>, batch: seq<EventId>, send: EventId -> bool, now: int):
    map<EventId, Verdict<Event>>
  {
    map id | id in batch && id in t.rows :: Judge(t.rows[id], if send(id) then Sent else Refused, now)
  }

  // The part of it that is carried out as the sends fail.
  function Failures(t: Tables<Event>, batch: seq<EventId>, send: EventId -> bool, now: int):
    map<EventId, Verdict<Event>>
  {
    map id | id in batch && id in t.rows && !send(id) :: Judge(t.rows[id], Refused, now)
  }

  function IdsOf(batch: seq<EventId>): set<EventId> {
    set id | id in batch
  }

  function Acked(batch: seq<EventId>, send: EventId -> bool): set<EventId> {
    set id | id in batch && send(id)
  }

  lemma AckedGrow(batch: seq<EventId>, i: nat, send: EventId -> bool)
    requires i < |batch|
    ensures Acked(batch[..i + 1], send) == Acked(batch[..i], send) + if send(batch[i]) then {batch[i]} else {}
  {
    assert batch[..i + 1] == batch[..i] + [batch[i]];
  }

  // The sent ones, marked in one statement after the failed ones, complete the verdicts.
  lemma MarkingCompletes(t: Tables<Event>, batch: seq<EventId>, send: EventId -> bool, now: int,
                         processed: seq<EventId>)
    requires IdsOf(processed) == Acked(batch, send)
    ensures BatchMarkProcessed(Settle(t, Failures(t, batch, send, now)), processed)
         == Settle(t, PollVerdicts(t, batch, send, now))
  {
    var all, failed := PollVerdicts(t, batch, send, now), Failures(t, batch, send, now);
    assert forall id: EventId :: id in processed <==> id in IdsOf(processed);
    forall id: EventId ensures Buried(all, id) <==> Buried(failed, id) {
    }
    var a, b := BatchMarkProcessed(Settle(t, failed), processed), Settle(t, all);
    assert a.rows == b.rows;
    assert a.dlq == b.dlq;
  }

  // One more failed send adds its verdict; one more success adds none.
  lemma FailuresGrow(t: Tables<Event>, batch: seq<EventId>, i: nat, send: EventId -> bool, now: int)
    requires i < |batch| && Distinct(batch) && batch[i] in t.rows
    ensures var before, after := Failures(t, batch[..i], send, now), Failures(t, batch[..i + 1], send, now);
            var id := batch[i];
            if send(id) then after == before
            else Settle(t, after) == Execute(Settle(t, before), id, Judge(t.rows[id], Refused, now))
  {
    var before, after := Failures(t, batch[..i], send, now), Failures(t, batch[..i + 1], send, now);
    var id := batch[i];
    assert batch[..i + 1] == batch[..i] + [id];
    if send(id) {
      assert after == before;
    } else {
      var v := Judge(t.rows[id], Refused, now);
      assert id !in before;
      assert after == before[id := v];
      SettleOneMore(t, before, id, v);
    }
  }

  // The tables after the first n sends, as their failures are carried out one by one.
  function AfterSends(t: Tables<Event>, batch: seq<EventId>, n: nat, send: EventId -> bool, now: int): Tables<Event>
    requires n <= |batch| && forall id <- batch :: id in t.rows
  {
    if n == 0 then t
    else
      var before, id := AfterSends(t, batch, n - 1, send, now), batch[n - 1];
      if send(id) then before else Execute(before, id, Judge(t.rows[id], Refused, now))
  }

  lemma {:induction false} AfterSendsSettles(t: Tables<Event>, batch: seq<EventId>, n: nat,
                                             send: EventId -> bool, now: int)
    requires n <= |batch| && Distinct(batch) && forall id <- batch :: id in t.rows
    ensures AfterSends(t, batch, n, send, now) == Settle(t, Failures(t, batch[..n], send, now))
    decreases n
  {
    if n == 0 {
      assert Failures(t, batch[..0], send, now) == map[];
      assert Settle(t, map[]).rows == t.rows && Settle(t, map[]).dlq == t.dlq;
    } else {
      AfterSendsSettles(t, batch, n - 1, send, now);
      FailuresGrow(t, batch, n - 1, send, now);
    }
  }

  class Relay {
    var outbox: Tables<Event>
    var sent: set<EventId>       // what Kafka has acknowledged; no rollback takes it back

    // A send has failed: the event is buried on its fifth failure, rescheduled before.
    method Reschedule(id: EventId, row: Row<Event>, now: int)
      modifies `outbox
      ensures outbox == Execute(old(outbox), id, Judge(row, Refused, now))
    {
      if row.retries + 1 >= MAX_RETRIES {
        outbox := MoveToDLQ(outbox, id, Dead(row.event, row.retries + 1));
      } else {
        outbox := IncrementRetry(outbox, id, now + Backoff(row.retries));
      }
    }

    // Sends one event; a failing statement changes nothing and aborts the transaction.
    method SendOne(id: EventId, row: Row<Event>, ok: bool, fails: bool, now: int) returns (aborts: bool)
      modifies this
      ensures sent == old(sent) + if ok then {id} else {}
      ensures aborts == (!ok && fails)
      ensures outbox == if ok || fails then old(outbox) else Execute(old(outbox), id, Judge(row, Refused, now))
    {
      aborts := false;
      if ok {
        sent := sent + {id};
      } else if fails {
        aborts := true;
      } else {
        Reschedule(id, row, now);
      }
    }

    // Sends the batch, carrying out the failures and collecting the successes.
    method SendBatch(batch: seq<EventId>, send: EventId -> bool, now: int, fails: EventId -> bool)
      returns (processed: seq<EventId>, aborted: bool)
      requires Distinct(batch) && forall id <- batch :: Pending(outbox, id)
      modifies this
      ensures sent == old(sent) + Acked(batch, send)
      ensures IdsOf(processed) == Acked(batch, send)
      ensures !aborted ==> outbox == Settle(old(outbox), Failures(old(outbox), batch, send, now))
      ensures aborted ==> exists id <- batch :: fails(id)
    {
      var read := outbox;
      processed, aborted := [], false;
      for i := 0 to |batch|
        invariant sent == old(sent) + Acked(batch[..i], send)
        invariant IdsOf(processed) == Acked(batch[..i], send)
        invariant !aborted ==> outbox == AfterSends(read, batch, i, send, now)
        invariant aborted ==> exists id <- batch :: fails(id)
      {
        var id := batch[i];
        assert id in batch && Pending(read, id);
        var aborts := SendOne(id, read.rows[id], send(id), fails(id), now);
        aborted := aborted || aborts;
        ghost var before := processed;
        if send(id) {
          processed := processed + [id];
        }
        assert IdsOf(processed) == IdsOf(before) + if send(id) then {id} else {};
        AckedGrow(batch, i, send);
      }
      assert batch[..|batch|] == batch;
      AfterSendsSettles(read, batch, |batch|, send, now);
    }

    /** One poll over the batch it has locked.  A failed send is buried or rescheduled at
        once; the sent events are marked in one statement; a statement that fails leaves the
        transaction unable to commit, though the sends go on.  Either the whole batch is
        settled or the tables are as before; what was sent stays sent. */
    method Poll(batch: seq<EventId>, send: EventId -> bool, now: int, fails: EventId -> bool,
                marks: bool, commits: bool)
      returns (committed: bool)
      requires Distinct(batch) && forall id <- batch :: Pending(outbox, id)
      modifies this
      ensures sent == old(sent) + Acked(batch, send)
      ensures committed ==> outbox == Settle(old(outbox), PollVerdicts(old(outbox), batch, send, now))
      ensures !committed ==> outbox == old(outbox)
      ensures (forall id <- batch :: !fails(id)) && marks && commits ==> committed
      ensures old(Conserved(outbox)) ==> Conserved(outbox)
    {
      var saved := outbox;
      var processed, aborted := SendBatch(batch, send, now, fails);
      if |processed| > 0 {
        if aborted || !marks {
          outbox := saved;
          return false;
        }
        outbox := BatchMarkProcessed(outbox, processed);
      }
      if aborted || !commits {
        outbox := saved;
        return false;
      }
      MarkingCompletes(saved, batch, send, now, processed);
      assert |processed| == 0 ==> BatchMarkProcessed(outbox, processed).rows == outbox.rows;
      if Conserved(saved) {
        SettleConserves(saved, PollVerdicts(saved, batch, send, now));
      }
      return true;
    }
  }

  /* ---------- A poll is a run of the machine ---------- */

  ghost function PollLabels(relay: nat, batch: seq<EventId>, send: EventId -> bool, committed: bool): seq<Label> {
    [Select(relay, IdsOf(batch))] + Sends(batch, send) + [if committed then Commit(relay) else Rollback(relay)]
  }

  function Sends(batch: seq<EventId>, send: EventId -> bool): seq<Label> {
    if batch == [] then [] else [Send(batch[0], send(batch[0]))] + Sends(batch[1..], send)
  }

  // The locks and acknowledgements once the batch has been sent.
  ghost function Told(s: State, batch: seq<EventId>, send: EventId -> bool): State {
    s.(locks := map id | id in s.locks ::
                  if id in batch then s.locks[id].(attempt := Some(if send(id) then Sent else Refused))
                  else s.locks[id],
       sent := s.sent + Acked(batch, send))
  }

  // Telling the first outcome and then the rest is telling them all.
  lemma ToldOneMore(s: State, batch: seq<EventId>, send: EventId -> bool)
    requires batch != [] && batch[0] !in batch[1..] && batch[0] in s.locks && s.locks[batch[0]].attempt.None?
    ensures Told(Step(s, Send(batch[0], send(batch[0]))), batch[1..], send) == Told(s, batch, send)
  {
    var s' := Step(s, Send(batch[0], send(batch[0])));
    forall id: EventId ensures id in batch <==> id == batch[0] || id in batch[1..] {
      assert batch == [batch[0]] + batch[1..];
    }
    assert Told(s', batch[1..], send).locks == Told(s, batch, send).locks;
    assert Told(s', batch[1..], send).sent == Told(s, batch, send).sent;
  }

  lemma {:induction false} SendsRun(s: State, batch: seq<EventId>, send: EventId -> bool)
    requires Distinct(batch) && forall id <- batch :: id in s.locks && s.locks[id].attempt.None?
    ensures Run(s, Sends(batch, send)) == Told(s, batch, send)
    decreases |batch|
  {
    if batch == [] {
      assert Told(s, batch, send).locks == s.locks;
    } else {
      var s' := Step(s, Send(batch[0], send(batch[0])));
      forall id <- batch[1..] ensures id in s'.locks && s'.locks[id].attempt.None? {
        assert id in batch && id != batch[0];
      }
      SendsRun(s', batch[1..], send);
      ToldOneMore(s, batch, send);
      var labels := Sends(batch, send);
      assert labels[0] == Send(batch[0], send(batch[0])) && labels[1..] == Sends(batch[1..], send);
    }
  }

  lemma {:induction false} RunAppend(s: State, a: seq<Label>, b: seq<Label>)
    ensures Run(s, a + b) == Run(Run(s, a), b)
    decreases |a|
  {
    if a == [] {
      assert a + b == b;
    } else {
      assert (a + b)[1..] == a[1..] + b;
      RunAppend(Step(s, a[0]), a[1..], b);
    }
  }

  lemma DistinctSize(batch: seq<EventId>)
    requires Distinct(batch)
    ensures |IdsOf(batch)| == |batch|
    decreases |batch|
  {
    if batch != [] {
      var last := batch[|batch| - 1];
      var rest := batch[..|batch| - 1];
      DistinctSize(rest);
      assert batch == rest + [last];
      assert IdsOf(batch) == IdsOf(rest) + {last};
    }
  }

  // The relay holds its batch, as it was read, with the outcomes of the sends.
  ghost predicate InHand(s: State, s2: State, relay: nat, batch: seq<EventId>, send: EventId -> bool) {
    && relay in s2.began && s2.began[relay] == s.clock && s2.outbox == s.outbox
    && (forall id: EventId :: Holds(s2, relay, id) <==> id in batch)
    && (forall id: EventId :: Holds(s2, relay, id) ==>
          && id in s.outbox.rows
          && s2.locks[id] == Lock(relay, s.outbox.rows[id], Some(if send(id) then Sent else Refused)))
  }

  lemma BatchInHand(s: State, relay: nat, batch: seq<EventId>, send: EventId -> bool)
    requires |IdsOf(batch)| <= BATCH && relay !in s.began && Distinct(batch)
    requires forall id <- batch :: Selectable(s, id)
    requires forall id <- s.locks :: s.locks[id].relay in s.began
    ensures var s1 := Step(s, Select(relay, IdsOf(batch)));
            var s2 := Told(s1, batch, send);
            && Run(s1, Sends(batch, send)) == s2
            && s2.sent == s.sent + Acked(batch, send)
            && InHand(s, s2, relay, batch, send)
  {
    var ids := IdsOf(batch);
    var s1 := Step(s, Select(relay, ids));
    forall id: EventId ensures id in ids <==> id in batch {
    }
    assert MaySelect(s, relay, ids);
    SendsRun(s1, batch, send);
  }

  // Either ending of the transaction, from there.
  lemma BatchSettled(s: State, s2: State, relay: nat, batch: seq<EventId>, send: EventId -> bool, committed: bool)
    requires InHand(s, s2, relay, batch, send)
    ensures var s' := Step(s2, if committed then Commit(relay) else Rollback(relay));
            && s'.sent == s2.sent
            && s'.outbox == if committed then Settle(s.outbox, PollVerdicts(s.outbox, batch, send, s.clock))
                            else s.outbox
  {
    if committed {
      assert MayCommit(s2, relay);
      assert Verdicts(s2, relay) == PollVerdicts(s.outbox, batch, send, s.clock);
    }
  }

  lemma PollRun(s: State, relay: nat, batch: seq<EventId>, send: EventId -> bool, committed: bool)
    ensures var end := if committed then Commit(relay) else Rollback(relay);
            Run(s, PollLabels(relay, batch, send, committed))
            == Step(Run(Step(s, Select(relay, IdsOf(batch))), Sends(batch, send)), end)
  {
    var end := if committed then Commit(relay) else Rollback(relay);
    RunAppend(s, [Select(relay, IdsOf(batch))], Sends(batch, send));
    assert [Select(relay, IdsOf(batch))][1..] == [];
    RunAppend(s, [Select(relay, IdsOf(batch))] + Sends(batch, send), [end]);
    assert [end][1..] == [];
  }

  /** What Relay.Poll promises is what the machine does on one selection, the sends and the
      commit or rollback: every claim about all runs covers the code's polls. */
  lemma PollIsARun(s: State, relay: nat, batch: seq<EventId>, send: EventId -> bool, committed: bool)
    requires Distinct(batch) && |batch| <= 100 && relay !in s.began
    requires forall id <- batch ::
      Pending(s.outbox, id) && s.outbox.rows[id].nextAt <= s.clock && id !in s.locks
    requires forall id <- s.locks :: s.locks[id].relay in s.began
    ensures var s' := Run(s, PollLabels(relay, batch, send, committed));
            && s'.sent == s.sent + Acked(batch, send)
            && s'.outbox == if committed then Settle(s.outbox, PollVerdicts(s.outbox, batch, send, s.clock))
                            else s.outbox
  {
    DistinctSize(batch);
    PollRun(s, relay, batch, send, committed);
    BatchInHand(s, relay, batch, send);
    BatchSettled(s, Told(Step(s, Select(relay, IdsOf(batch))), batch, send), relay, batch, send, committed);
  }
}
