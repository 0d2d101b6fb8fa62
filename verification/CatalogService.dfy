/**
The catalogue service as it runs: the three writers, each one transaction over the product
row and the outbox, and the relay's poll.
*/
module CatalogService {
  import opened Common
  import opened Outbox
  import opened Catalog

  datatype Reply = Ok | Exists(id: ProductId) | NotFound | Failed

  // The outbox after a writer's transaction.
  function Announced(t: Tables<Event>, c: Change, now: int): Tables<Event> {
    if c.event.None? then t else Append(t, c.event.value, now)
  }

  /* ---------- Idempotency keys ---------- */

  ghost predicate KeysUnique(products: map<ProductId, Product>) {
    forall p <- products, q <- products :: products[p].key == products[q].key ==> p == q
  }

  lemma StepKeepsKeys(s: State, l: Label)
    requires KeysUnique(s.products)
    ensures KeysUnique(Step(s, l).products)
  {
  }

  lemma {:induction false} RunKeepsKeys(s: State, labels: seq<Label>)
    requires KeysUnique(s.products)
    ensures KeysUnique(Run(s, labels).products)
    decreases |labels|
  {
    if labels != [] {
      StepKeepsKeys(s, labels[0]);
      RunKeepsKeys(Step(s, labels[0]), labels[1..]);
    }
  }

  /** In every run a key has one holder: the product a refused create names is the only one. */
  lemma OneProductPerKey(labels: seq<Label>, id: ProductId, other: ProductId)
    requires var products := Run(EMPTY, labels).products;
             id in products && other in products && products[id].key == products[other].key
    ensures id == other
  {
    RunKeepsKeys(EMPTY, labels);
  }

  ghost predicate NeverDeletes(labels: seq<Label>, id: ProductId) {
    forall l <- labels :: l != Delete(id)
  }

  // A product keeps its key and its creation time until it is deleted.
  lemma {:induction false} KeyStays(s: State, labels: seq<Label>, id: ProductId)
    requires id in s.products && NeverDeletes(labels, id)
    ensures id in Run(s, labels).products && Run(s, labels).products[id].key == s.products[id].key
    ensures Run(s, labels).products[id].createdAt == s.products[id].createdAt
    decreases |labels|
  {
    if labels != [] {
      assert labels[0] in labels;
      assert id in Step(s, labels[0]).products;
      forall l <- labels[1..] ensures l in labels {
      }
      KeyStays(Step(s, labels[0]), labels[1..], id);
    }
  }

  /** A key is used once: whatever happens after a successful create, short of deleting the
      product, creating again under the same key changes nothing. */
  lemma CreateOncePerKey(s: State, id: ProductId, product: Product, labels: seq<Label>,
                         again: ProductId, other: Product)
    requires CreateTx(s.products, id, product).event.Some? && other.key == product.key && NeverDeletes(labels, id)
    ensures var s' := Run(Step(s, Create(id, product)), labels);
            Step(s', Create(again, other)) == s'
  {
    KeyStays(Step(s, Create(id, product)), labels, id);
  }

  /* ---------- The writers ---------- */

  class Usecase {
    var products: map<ProductId, Product>
    var outbox: Tables<Event>

    /** Creates the product with its event, or neither.  A key already in use, the empty one
        included, names the product that has it. */
    method CreateProduct(id: ProductId, product: Product, now: int, commits: bool) returns (reply: Reply)
      modifies this
      ensures reply == Ok <==> CreateTx(old(products), id, product).event.Some? && commits
      ensures reply == Ok <==>
        && commits && id !in old(products) && product.price >= 0
        && forall p <- old(products) :: old(products)[p].key != product.key
      ensures reply == Ok ==>
        && products == old(products)[id := product]
        && outbox == Append(old(outbox), ProductCreated(id, product), now)
      ensures reply == Ok ==>
        && products == CreateTx(old(products), id, product).products
        && outbox == Announced(old(outbox), CreateTx(old(products), id, product), now)
      ensures reply != Ok ==> products == old(products) && outbox == old(outbox)
      ensures reply.Exists? ==> reply.id in products && products[reply.id].key == product.key
      ensures KeyTaken(old(products), product.key) ==> reply.Exists?
    {
      if KeyTaken(products, product.key) {
        var holder :| holder in products && products[holder].key == product.key;
        return Exists(holder);
      }
      if id in products || product.price < 0 || !commits {
        return Failed;
      }
      products := products[id := product];
      outbox := Append(outbox, ProductCreated(id, product), now);
      return Ok;
    }

    /** Sets the given fields and keeps the others; an empty category list counts as not
        given.  The event carries the row as it now is. */
    method UpdateProduct(id: ProductId, name: Option<string>, description: Option<string>, price: Option<int>,
                         categories: seq<string>, now: int, commits: bool)
      returns (reply: Reply)
      modifies this
      ensures reply == NotFound <==> id !in old(products)
      ensures reply != Ok ==> products == old(products) && outbox == old(outbox)
      ensures commits && id in old(products) && (price.Some? ==> price.value >= 0) && old(products)[id].price >= 0 ==>
        reply == Ok
      ensures reply == Ok ==> commits && id in products && products[id].price >= 0
      ensures reply == Ok ==>
        && id in old(products) && id in products && products == old(products)[id := products[id]]
        && (name.Some? ==> products[id].name == name.value)
        && (name.None? ==> products[id].name == old(products)[id].name)
        && (description.Some? ==> products[id].description == description.value)
        && (description.None? ==> products[id].description == old(products)[id].description)
        && (price.Some? ==> products[id].price == price.value)
        && (price.None? ==> products[id].price == old(products)[id].price)
        && products[id].categories == (if categories == [] then old(products)[id].categories else categories)
        && products[id].key == old(products)[id].key && products[id].createdAt == old(products)[id].createdAt
        && outbox == Append(old(outbox), ProductUpdated(id, products[id]), now)
        && (products == UpdateTx(old(products), id, products[id].name, products[id].description,
                                 products[id].price, products[id].categories).products)
    {
      if id !in products {
        return NotFound;
      }
      var existing := products[id];
      if name.Some? {
        existing := existing.(name := name.value);
      }
      if description.Some? {
        existing := existing.(description := description.value);
      }
      if price.Some? {
        existing := existing.(price := price.value);
      }
      if |categories| > 0 {
        existing := existing.(categories := categories);
      }
      if existing.price < 0 || !commits {
        return Failed;
      }
      products := products[id := existing];
      outbox := Append(outbox, ProductUpdated(id, existing), now);
      return Ok;
    }

    method DeleteProduct(id: ProductId, now: int, commits: bool) returns (reply: Reply)
      modifies this
      ensures reply == NotFound <==> id !in old(products)
      ensures reply == Ok <==> id in old(products) && commits
      ensures reply == Ok ==> products == old(products) - {id} && outbox == Append(old(outbox), ProductDeleted(id), now)
      ensures reply != Ok ==> products == old(products) && outbox == old(outbox)
    {
      if id !in products {
        return NotFound;
      }
      if !commits {
        return Failed;
      }
      products := products - {id};
      outbox := Append(outbox, ProductDeleted(id), now);
      return Ok;
    }
  }

  /* ---------- The relay's poll ---------- */

  // How handling one event goes: whether it reaches the index, and what the relay is told.
  datatype Landing = Landing(lands: bool, attempt: Attempt)

  predicate Lands(l: Landing) {
    l.lands || l.attempt == Sent
  }

  function ProjectAll(index: map<ProductId, Doc>, ids: seq<EventId>, rows: map<EventId, Row<Event>>,
                      how: EventId -> Landing): map<ProductId, Doc>
  {
    if ids == [] then index
    else
      var before := ProjectAll(index, ids[..|ids| - 1], rows, how);
      var id := ids[|ids| - 1];
      if id in rows && Lands(how(id)) then Project(before, rows[id].event) else before
  }

  function PollVerdicts(t: Tables<Event>, ids: seq<EventId>, how: EventId -> Landing, now: int):
    map<EventId, Verdict<Event>>
  {
    map id | id in ids && id in t.rows :: Judge(t.rows[id], how(id).attempt, now)
  }

  lemma VerdictsGrow(t: Tables<Event>, ids: seq<EventId>, i: nat, how: EventId -> Landing, now: int)
    requires i < |ids| && Distinct(ids) && ids[i] in t.rows
    ensures Settle(t, PollVerdicts(t, ids[..i + 1], how, now))
         == Execute(Settle(t, PollVerdicts(t, ids[..i], how, now)), ids[i],
                    Judge(t.rows[ids[i]], how(ids[i]).attempt, now))
  {
    var before, v := PollVerdicts(t, ids[..i], how, now), Judge(t.rows[ids[i]], how(ids[i]).attempt, now);
    assert ids[..i + 1] == ids[..i] + [ids[i]];
    assert ids[i] !in before;
    assert PollVerdicts(t, ids[..i + 1], how, now) == before[ids[i] := v];
    SettleOneMore(t, before, ids[i], v);
  }

  class Relay {
    var outbox: Tables<Event>
    var index: map<ProductId, Doc>

    // The calls to the index, outside any transaction.
    method HandleAll(ids: seq<EventId>, rows: map<EventId, Row<Event>>, how: EventId -> Landing)
      returns (results: seq<Attempt>)
      requires forall id <- ids :: id in rows
      modifies `index
      ensures |results| == |ids| && forall i :: 0 <= i < |ids| ==> results[i] == how(ids[i]).attempt
      ensures index == ProjectAll(old(index), ids, rows, how)
    {
      results := [];
      for i := 0 to |ids|
        invariant |results| == i && forall j :: 0 <= j < i ==> results[j] == how(ids[j]).attempt
        invariant index == ProjectAll(old(index), ids[..i], rows, how)
      {
        assert ids[..i + 1][..i] == ids[..i];
        if Lands(how(ids[i])) {
          index := Project(index, rows[ids[i]].event);
        }
        results := results + [how(ids[i]).attempt];
      }
      assert ids[..|ids|] == ids;
    }

    // One statement of the settling transaction.
    method Settle1(id: EventId, row: Row<Event>, result: Attempt, now: int)
      modifies `outbox
      ensures outbox == Execute(old(outbox), id, Judge(row, result, now))
    {
      if result == Sent {
        outbox := MarkProcessed(outbox, id);
      } else if result == Poison || row.retries + 1 >= MAX_RETRIES {
        outbox := MoveToDLQ(outbox, id, Dead(row.event, row.retries + 1));
      } else {
        outbox := IncrementRetry(outbox, id, now + Backoff(row.retries));
      }
    }

    /** One poll: the batch as read is projected in order, then settled as a whole or, when a
        statement or the commit fails, not at all. */
    method Poll(ids: seq<EventId>, how: EventId -> Landing, now: int, fails: EventId -> bool, commits: bool)
      returns (committed: bool)
      requires Distinct(ids) && forall id <- ids :: Pending(outbox, id)
      modifies this
      ensures index == ProjectAll(old(index), ids, old(outbox).rows, how)
      ensures committed <==> commits && forall id <- ids :: !fails(id)
      ensures outbox == if committed then Settle(old(outbox), PollVerdicts(old(outbox), ids, how, now)) else old(outbox)
      ensures old(Conserved(outbox)) ==> Conserved(outbox)
    {
      var saved := outbox;
      var results := HandleAll(ids, saved.rows, how);
      for i := 0 to |ids|
        invariant index == ProjectAll(old(index), ids, saved.rows, how)
        invariant outbox == Settle(saved, PollVerdicts(saved, ids[..i], how, now))
        invariant forall j :: 0 <= j < i ==> !fails(ids[j])
      {
        if fails(ids[i]) {
          outbox := saved;
          return false;
        }
        assert ids[i] in ids && Pending(saved, ids[i]);
        VerdictsGrow(saved, ids, i, how, now);
        Settle1(ids[i], saved.rows[ids[i]], results[i], now);
      }
      assert ids[..|ids|] == ids;
      if !commits {
        outbox := saved;
        return false;
      }
      if Conserved(saved) {
        SettleConserves(saved, PollVerdicts(saved, ids, how, now));
      }
      return true;
    }
  }

  /* ---------- A poll is a run of the machine ---------- */

  function HandleOf(r: nat, how: EventId -> Landing, id: EventId): Label {
    Handle(r, how(id).lands, how(id).attempt)
  }

  function Handles(r: nat, ids: seq<EventId>, how: EventId -> Landing): seq<Label> {
    if ids == [] then [] else Handles(r, ids[..|ids| - 1], how) + [HandleOf(r, how, ids[|ids| - 1])]
  }

  function PollLabels(r: nat, ids: seq<EventId>, how: EventId -> Landing, committed: bool): seq<Label> {
    [Read(r, ids)] + Handles(r, ids, how) + [if committed then Commit(r) else Abandon(r)]
  }

  // The relay has handled the first n events of its batch.
  ghost predicate Handled(s: State, s': State, r: nat, ids: seq<EventId>, how: EventId -> Landing, n: nat)
    requires n <= |ids|
  {
    && r in s'.relays && s'.relays[r].ids == ids && s'.relays[r].rows == RowsRead(s.outbox, ids)
    && |s'.relays[r].outcomes| == n && (forall i :: 0 <= i < n ==> s'.relays[r].outcomes[i] == how(ids[i]).attempt)
    && s'.index == ProjectAll(s.index, ids[..n], s.outbox.rows, how)
    && s'.outbox == s.outbox && s'.clock == s.clock && s'.products == s.products
  }

  lemma HandledOneMore(s: State, s': State, r: nat, ids: seq<EventId>, how: EventId -> Landing, n: nat)
    requires n < |ids| && Handled(s, s', r, ids, how, n) && ids[n] in s.outbox.rows
    ensures Handled(s, Step(s', HandleOf(r, how, ids[n])), r, ids, how, n + 1)
  {
    assert ids[n] in ids;
    assert MayHandle(s', r) && NextId(s', r) == ids[n];
    assert ids[..n + 1][..n] == ids[..n];
  }

  lemma {:induction false} HandlesRun(s: State, r: nat, ids: seq<EventId>, how: EventId -> Landing, n: nat)
    requires MayRead(s, r, ids) && n <= |ids|
    ensures Handled(s, Run(Step(s, Read(r, ids)), Handles(r, ids[..n], how)), r, ids, how, n)
    decreases n
  {
    var s1 := Step(s, Read(r, ids));
    if n == 0 {
      assert ids[..0] == [];
    } else {
      HandlesRun(s, r, ids, how, n - 1);
      assert ids[..n][..n - 1] == ids[..n - 1];
      var l := HandleOf(r, how, ids[n - 1]);
      RunAppend(s1, Handles(r, ids[..n - 1], how), [l]);
      OneStep(Run(s1, Handles(r, ids[..n - 1], how)), l);
      assert Due(s, ids[n - 1]);
      HandledOneMore(s, Run(s1, Handles(r, ids[..n - 1], how)), r, ids, how, n - 1);
    }
  }

  lemma OutcomeIs(b: Batch, how: EventId -> Landing, i: nat, a: Attempt)
    requires Distinct(b.ids) && i < |b.ids| == |b.outcomes|
    requires forall j :: 0 <= j < |b.ids| ==> b.outcomes[j] == how(b.ids[j]).attempt
    ensures Outcome(b, b.ids[i], a) <==> how(b.ids[i]).attempt == a
  {
    assert how(b.ids[i]).attempt == b.outcomes[i];
  }

  lemma VerdictIs(b: Batch, how: EventId -> Landing, id: EventId, now: int)
    requires Ready(b) && Distinct(b.ids) && id in b.ids
    requires forall j :: 0 <= j < |b.ids| ==> b.outcomes[j] == how(b.ids[j]).attempt
    ensures Verdicts(b, now)[id] == Judge(b.rows[id], how(id).attempt, now)
  {
    var i :| 0 <= i < |b.ids| && b.ids[i] == id;
    OutcomeIs(b, how, i, Sent);
    OutcomeIs(b, how, i, Poison);
    match how(id).attempt { case Sent => case Refused => case Poison => }
  }

  lemma HandledVerdicts(s: State, s': State, r: nat, ids: seq<EventId>, how: EventId -> Landing)
    requires MayRead(s, r, ids) && Handled(s, s', r, ids, how, |ids|)
    ensures Ready(s'.relays[r])
    ensures Verdicts(s'.relays[r], s.clock) == PollVerdicts(s.outbox, ids, how, s.clock)
  {
    var b := s'.relays[r];
    forall id <- ids ensures id in b.rows && b.rows[id] == s.outbox.rows[id] {
      assert Due(s, id);
    }
    var verdicts := Verdicts(b, s.clock);
    forall id <- ids ensures verdicts[id] == Judge(s.outbox.rows[id], how(id).attempt, s.clock) {
      VerdictIs(b, how, id, s.clock);
    }
    assert verdicts.Keys == PollVerdicts(s.outbox, ids, how, s.clock).Keys;
  }

  // Either ending of the poll, once the batch is handled.
  lemma HandledSettles(s: State, s2: State, r: nat, ids: seq<EventId>, how: EventId -> Landing, committed: bool)
    requires MayRead(s, r, ids) && Handled(s, s2, r, ids, how, |ids|)
    ensures var s' := Step(s2, if committed then Commit(r) else Abandon(r));
            && s'.index == s2.index
            && s'.outbox == if committed then Settle(s.outbox, PollVerdicts(s.outbox, ids, how, s.clock)) else s.outbox
  {
    HandledVerdicts(s, s2, r, ids, how);
  }

  lemma PollRun(s: State, r: nat, ids: seq<EventId>, how: EventId -> Landing, committed: bool)
    ensures Run(s, PollLabels(r, ids, how, committed))
         == Step(Run(Step(s, Read(r, ids)), Handles(r, ids, how)), if committed then Commit(r) else Abandon(r))
  {
    var end := if committed then Commit(r) else Abandon(r);
    RunAppend(s, [Read(r, ids)] + Handles(r, ids, how), [end]);
    RunAppend(s, [Read(r, ids)], Handles(r, ids, how));
    OneStep(s, Read(r, ids));
    OneStep(Run(Step(s, Read(r, ids)), Handles(r, ids, how)), end);
  }

  /** What Relay.Poll promises is what the machine does on one read, the handlings and the
      commit: every claim about all runs covers the code's polls. */
  lemma PollIsARun(s: State, r: nat, ids: seq<EventId>, how: EventId -> Landing, committed: bool)
    requires r !in s.relays && Distinct(ids) && |ids| <= 100
    requires forall id <- ids :: Pending(s.outbox, id) && s.outbox.rows[id].nextAt <= s.clock
    ensures var s' := Run(s, PollLabels(r, ids, how, committed));
            && s'.index == ProjectAll(s.index, ids, s.outbox.rows, how)
            && s'.outbox == if committed then Settle(s.outbox, PollVerdicts(s.outbox, ids, how, s.clock)) else s.outbox
  {
    PollRun(s, r, ids, how, committed);
    HandlesRun(s, r, ids, how, |ids|);
    assert ids[..|ids|] == ids;
    HandledSettles(s, Run(Step(s, Read(r, ids)), Handles(r, ids, how)), r, ids, how, committed);
  }
}
