/**
The catalogue: product rows and their outbox events written in one transaction, relays that
read a batch in one transaction, project it into the search index outside any, and settle
it in another.  Nothing is locked between the two transactions.

Writers that touch the same product queue on its row, and each creates its event after its
row statement; so a product's events are numbered in the order its changes committed.
*/
module Catalog {
  import opened Common
  import opened Outbox

  datatype Product = Product(
    name: string, description: string, price: int, categories: seq<string>, key: string, createdAt: int)

  // The indexed document.
  datatype Doc = Doc(name: string, description: string, price: int, categories: seq<string>, createdAt: int)

  datatype Event =
    | ProductCreated(id: ProductId, product: Product)
    | ProductUpdated(id: ProductId, product: Product)
    | ProductDeleted(id: ProductId)

  // A relay's batch: the rows as read, and how handling the first of them went.
  datatype Batch = Batch(ids: seq<EventId>, rows: map<EventId, Row<Event>>, outcomes: seq<Attempt>)

  datatype State = State(
    products: map<ProductId, Product>,
    outbox: Tables<Event>,
    index: map<ProductId, Doc>,
    relays: map<nat, Batch>,
    clock: int,
    log: seq<Event>,              // history: every event created, by number
    landed: set<EventId>,         // history: events the index has taken in
    polls: map<EventId, nat>)     // history: committed polls that selected the event

  /* ---------- The writers ---------- */

  datatype Change = Change(products: map<ProductId, Product>, event: Option<Event>)

  predicate KeyTaken(products: map<ProductId, Product>, key: string) {
    exists p <- products :: products[p].key == key
  }

  // INSERT ... ON CONFLICT (idempotency_key): a taken key, the empty one included, is an
  // error that rolls the transaction back, like a taken id or a negative price.
  function CreateTx(products: map<ProductId, Product>, id: ProductId, product: Product): Change {
    if KeyTaken(products, product.key) || id in products || product.price < 0 then Change(products, None)
    else Change(products[id := product], Some(ProductCreated(id, product)))
  }

  // UPDATE of every mutable column with the values in hand, which the writer may have read
  // before another writer's commit.
  function UpdateTx(products: map<ProductId, Product>, id: ProductId, name: string, description: string,
                    price: int, categories: seq<string>): Change
  {
    if id !in products || price < 0 then Change(products, None)
    else
      var product := Product(name, description, price, categories, products[id].key, products[id].createdAt);
      Change(products[id := product], Some(ProductUpdated(id, product)))
  }

  function DeleteTx(products: map<ProductId, Product>, id: ProductId): Change {
    if id !in products then Change(products, None)
    else Change(products - {id}, Some(ProductDeleted(id)))
  }

  /* ---------- The index ---------- */

  function DocOf(p: Product): Doc {
    Doc(p.name, p.description, p.price, p.categories, p.createdAt)
  }

  // Handling one event: index the product, or delete it, present or not.
  function Project(index: map<ProductId, Doc>, e: Event): map<ProductId, Doc> {
    match e
    case ProductCreated(id, product) => index[id := DocOf(product)]
    case ProductUpdated(id, product) => index[id := DocOf(product)]
    case ProductDeleted(id) => index - {id}
  }

  // The document shows what the row holds, field by field.
  predicate Shows(doc: Doc, p: Product) {
    && doc.name == p.name
    && doc.description == p.description
    && doc.price == p.price
    && doc.categories == p.categories
    && doc.createdAt == p.createdAt
  }

  /** What handling an event leaves at its id, and that it leaves every other id alone. */
  lemma ProjectIndexes(index: map<ProductId, Doc>, e: Event)
    ensures var index' := Project(index, e);
            && (e.ProductDeleted? ==> index'.Keys == index.Keys - {e.id})
            && (!e.ProductDeleted? ==> index'.Keys == index.Keys + {e.id} && Shows(index'[e.id], e.product))
            && forall q <- index :: q != e.id ==> index'[q] == index[q]
  {
  }

  /* ---------- The machine ---------- */

  datatype Label =
    | Create(id: ProductId, product: Product)
    | Update(id: ProductId, name: string, description: string, price: int, categories: seq<string>)
    | Delete(id: ProductId)
    | Tick(elapsed: nat)
    | Read(relay: nat, ids: seq<EventId>)
    | Handle(relay: nat, lands: bool, attempt: Attempt)   // a refused call may have landed
    | Commit(relay: nat)
    | Abandon(relay: nat)                                 // crash, statement error or failed commit

  function Apply(s: State, c: Change): State {
    if c.event.None? then s
    else s.(products := c.products, outbox := Append(s.outbox, c.event.value, s.clock), log := s.log + [c.event.value])
  }

  predicate Due(s: State, id: EventId) {
    Pending(s.outbox, id) && s.outbox.rows[id].nextAt <= s.clock
  }

  predicate MayRead(s: State, r: nat, ids: seq<EventId>) {
    r !in s.relays && |ids| <= BATCH && Distinct(ids) && forall id <- ids :: Due(s, id)
  }

  function RowsRead(t: Tables<Event>, ids: seq<EventId>): map<EventId, Row<Event>> {
    map id | id in ids && id in t.rows :: t.rows[id]
  }

  predicate MayHandle(s: State, r: nat) {
    && r in s.relays && |s.relays[r].outcomes| < |s.relays[r].ids|
    && s.relays[r].ids[|s.relays[r].outcomes|] in s.relays[r].rows
  }

  function NextId(s: State, r: nat): EventId
    requires MayHandle(s, r)
  {
    s.relays[r].ids[|s.relays[r].outcomes|]
  }

  function HandleStep(s: State, r: nat, lands: bool, attempt: Attempt): State
    requires MayHandle(s, r)
  {
    var b, id := s.relays[r], NextId(s, r);
    var s' := s.(relays := s.relays[r := b.(outcomes := b.outcomes + [attempt])]);
    if lands || attempt == Sent then
      s'.(index := Project(s.index, b.rows[id].event), landed := s.landed + {id})
    else s'
  }

  predicate Ready(b: Batch) {
    |b.outcomes| == |b.ids| && forall id <- b.ids :: id in b.rows
  }

  predicate Outcome(b: Batch, id: EventId, attempt: Attempt) {
    exists i :: 0 <= i < |b.ids| && i < |b.outcomes| && b.ids[i] == id && b.outcomes[i] == attempt
  }

  ghost function Verdicts(b: Batch, now: int): map<EventId, Verdict<Event>>
    requires Ready(b)
  {
    map id | id in b.ids ::
      Judge(b.rows[id], if Outcome(b, id, Sent) then Sent else if Outcome(b, id, Poison) then Poison else Refused, now)
  }

  function Counted(polls: map<EventId, nat>, ids: seq<EventId>): map<EventId, nat> {
    map id | id in polls.Keys + (set i | i in ids) :: Count(polls, id) + if id in ids then 1 else 0
  }

  ghost function Step(s: State, l: Label): State {
    match l
    case Create(id, product) => Apply(s, CreateTx(s.products, id, product))
    case Update(id, name, description, price, categories) =>
      Apply(s, UpdateTx(s.products, id, name, description, price, categories))
    case Delete(id) => Apply(s, DeleteTx(s.products, id))
    case Tick(elapsed) => s.(clock := s.clock + elapsed)
    case Read(r, ids) =>
      if MayRead(s, r, ids) then
        s.(relays := s.relays[r := Batch(ids, RowsRead(s.outbox, ids), [])])
      else s
    case Handle(r, lands, attempt) => if MayHandle(s, r) then HandleStep(s, r, lands, attempt) else s
    case Commit(r) =>
      if r in s.relays && Ready(s.relays[r]) then
        s.(outbox := Settle(s.outbox, Verdicts(s.relays[r], s.clock)), relays := s.relays - {r},
           polls := Counted(s.polls, s.relays[r].ids))
      else s
    case Abandon(r) => s.(relays := s.relays - {r})
  }

  ghost function Run(s: State, labels: seq<Label>): State
    decreases |labels|
  {
    if labels == [] then s else Run(Step(s, labels[0]), labels[1..])
  }

  lemma {:induction false} RunAppend(s: State, a: seq<Label>, b: seq<Label>)
    ensures Run(s, a + b) == Run(Run(s, a), b)
    decreases |a|
  {
    if a == [] {
      assert a + b == b;
    } else {
      assert (a + b)[1..] == a[1..] + b;
      RunAppend(Step(s, a[0]), a[1..], b);
    }
  }

  lemma OneStep(s: State, l: Label)
    ensures Run(s, [l]) == Step(s, l)
  {
    assert [l][1..] == [];
  }

  const EMPTY: State := State(map[], Tables(0, map[], map[]), map[], map[], 0, [], {}, map[])

  /* ---------- The rows follow the events ---------- */

  function Get<T>(m: map<ProductId, T>, p: ProductId): Option<T> {
    if p in m then Some(m[p]) else None
  }

  function Effect(e: Event): Option<Product> {
    if e.ProductDeleted? then None else Some(e.product)
  }

  // What a product looks like after these events.
  function Show(log: seq<Event>, p: ProductId): Option<Product> {
    if log == [] then None
    else if log[|log| - 1].id == p then Effect(log[|log| - 1])
    else Show(log[..|log| - 1], p)
  }

  lemma ShowAppend(log: seq<Event>, e: Event, p: ProductId)
    ensures Show(log + [e], p) == if e.id == p then Effect(e) else Show(log, p)
  {
    assert (log + [e])[..|log|] == log;
  }

  // Events about other products do not show.
  lemma {:induction false} ShowSkips(log: seq<Event>, k: nat, p: ProductId)
    requires k <= |log| && forall i :: k <= i < |log| ==> log[i].id != p
    ensures Show(log[..k], p) == Show(log, p)
    decreases |log|
  {
    if k == |log| {
      assert log[..k] == log;
    } else {
      ShowSkips(log[..|log| - 1], k, p);
      assert log[..|log| - 1][..k] == log[..k];
    }
  }

  ghost predicate RowsFollow(s: State, p: ProductId) {
    Get(s.products, p) == Show(s.log, p)
  }

  // A change puts into the log what it does to the row, and touches no other row.
  ghost predicate Recorded(products: map<ProductId, Product>, c: Change, p: ProductId) {
    c.event.Some? ==>
      Get(c.products, p) == if c.event.value.id == p then Effect(c.event.value) else Get(products, p)
  }

  lemma ChangeKeepsRows(s: State, c: Change, p: ProductId)
    requires RowsFollow(s, p) && Recorded(s.products, c, p)
    ensures RowsFollow(Apply(s, c), p)
  {
    if c.event.Some? {
      ShowAppend(s.log, c.event.value, p);
    }
  }

  lemma StepKeepsRows(s: State, l: Label, p: ProductId)
    requires RowsFollow(s, p)
    ensures RowsFollow(Step(s, l), p)
  {
    match l
    case Create(id, product) => ChangeKeepsRows(s, CreateTx(s.products, id, product), p);
    case Update(id, n, d, price, c) => ChangeKeepsRows(s, UpdateTx(s.products, id, n, d, price, c), p);
    case Delete(id) => ChangeKeepsRows(s, DeleteTx(s.products, id), p);
    case Tick(_) | Read(_, _) | Handle(_, _, _) | Commit(_) | Abandon(_) =>
  }

  lemma {:induction false} RunKeepsRows(s: State, labels: seq<Label>, p: ProductId)
    requires RowsFollow(s, p)
    ensures RowsFollow(Run(s, labels), p)
    decreases |labels|
  {
    if labels != [] {
      StepKeepsRows(s, labels[0], p);
      RunKeepsRows(Step(s, labels[0]), labels[1..], p);
    }
  }

  /* ---------- Conservation, for any number of relays ---------- */

  ghost predicate EventOk(s: State, id: EventId) {
    && (id < s.outbox.next <==> id in s.outbox.rows || id in s.outbox.dlq)
    && !(id in s.outbox.rows && id in s.outbox.dlq)
    && (id in s.outbox.rows || id in s.outbox.dlq ==> id < |s.log| && EventAt(s.outbox, id) == s.log[id])
    && (Processed(s.outbox, id) ==> id in s.landed)
    && (Pending(s.outbox, id) ==> s.outbox.rows[id].retries == Count(s.polls, id))
    && (id >= s.outbox.next ==> Count(s.polls, id) == 0)
  }

  // A batch holds existing events, as they were created; what it calls sent has landed.
  ghost predicate BatchOk(s: State, b: Batch) {
    && Distinct(b.ids)
    && (forall id <- b.ids :: id < |s.log| && id in b.rows && b.rows[id].event == s.log[id])
    && |b.outcomes| <= |b.ids|
    && (forall i :: 0 <= i < |b.outcomes| && b.outcomes[i] == Sent ==> b.ids[i] in s.landed)
  }

  ghost predicate Inv(s: State) {
    && |s.log| == s.outbox.next
    && (forall id: EventId :: EventOk(s, id))
    && (forall r <- s.relays :: BatchOk(s, s.relays[r]))
    && (forall id <- s.landed :: id < |s.log|)
  }

  lemma CommitHeld(s: State, r: nat, id: EventId)
    requires |s.log| == s.outbox.next && id < |s.log| && EventOk(s, id)
    requires r in s.relays && Ready(s.relays[r]) && id in s.relays[r].ids
    requires s.relays[r].rows[id].event == s.log[id] && (Outcome(s.relays[r], id, Sent) ==> id in s.landed)
    ensures EventOk(Step(s, Commit(r)), id)
  {
    var b, t := s.relays[r], Step(s, Commit(r)).outbox;
    var verdicts := Verdicts(b, s.clock);
    var v := verdicts[id];
    assert v.Bury? ==> v.dead.event == s.log[id];
    assert id in t.rows <==> id in s.outbox.rows && !v.Bury?;
    assert id in t.dlq <==> id in s.outbox.dlq || v.Bury?;
    assert id in t.rows ==> t.rows[id] == SettleRow(s.outbox.rows[id], v);
    assert v == Done ==> id in s.landed;
    assert Count(Counted(s.polls, b.ids), id) == Count(s.polls, id) + 1;
  }

  lemma CommitElsewhere(s: State, r: nat, id: EventId)
    requires EventOk(s, id) && r in s.relays && Ready(s.relays[r]) && id !in s.relays[r].ids
    ensures EventOk(Step(s, Commit(r)), id)
  {
    var b, t := s.relays[r], Step(s, Commit(r)).outbox;
    assert id !in Verdicts(b, s.clock);
    assert id in t.rows <==> id in s.outbox.rows;
    assert id in t.dlq <==> id in s.outbox.dlq;
    assert Count(Counted(s.polls, b.ids), id) == Count(s.polls, id);
  }

  lemma CommitOne(s: State, r: nat, id: EventId)
    requires |s.log| == s.outbox.next && EventOk(s, id)
    requires r in s.relays && BatchOk(s, s.relays[r]) && Ready(s.relays[r])
    ensures EventOk(Step(s, Commit(r)), id)
  {
    if id in s.relays[r].ids {
      CommitHeld(s, r, id);
    } else {
      CommitElsewhere(s, r, id);
    }
  }

  lemma WriterKeepsEvents(s: State, c: Change, id: EventId)
    requires Inv(s)
    ensures EventOk(Apply(s, c), id)
  {
    assert EventOk(s, id) && EventOk(s, s.outbox.next);
  }

  lemma StepKeepsEvent(s: State, l: Label, id: EventId)
    requires Inv(s)
    ensures EventOk(Step(s, l), id)
  {
    assert EventOk(s, id);
    match l
    case Create(p, product) => WriterKeepsEvents(s, CreateTx(s.products, p, product), id);
    case Update(p, n, d, price, c) => WriterKeepsEvents(s, UpdateTx(s.products, p, n, d, price, c), id);
    case Delete(p) => WriterKeepsEvents(s, DeleteTx(s.products, p), id);
    case Commit(r) => if r in s.relays && Ready(s.relays[r]) { CommitOne(s, r, id); }
    case Tick(_) | Read(_, _) | Handle(_, _, _) | Abandon(_) =>
  }

  lemma ReadKeepsBatches(s: State, r: nat, ids: seq<EventId>)
    requires Inv(s) && MayRead(s, r, ids)
    ensures BatchOk(Step(s, Read(r, ids)), Step(s, Read(r, ids)).relays[r])
  {
    forall id <- ids ensures id < s.outbox.next && id in s.outbox.rows && s.outbox.rows[id].event == s.log[id] {
      assert Due(s, id) && EventOk(s, id);
    }
  }

  lemma BatchKept(s: State, s': State, b: Batch)
    requires BatchOk(s, b) && s.log <= s'.log && s.landed <= s'.landed
    ensures BatchOk(s', b)
  {
  }

  lemma HandleKeepsBatch(s: State, r: nat, lands: bool, attempt: Attempt)
    requires MayHandle(s, r) && BatchOk(s, s.relays[r])
    ensures BatchOk(HandleStep(s, r, lands, attempt), HandleStep(s, r, lands, attempt).relays[r])
  {
  }

  lemma StepKeepsBatch(s: State, l: Label, r: nat)
    requires Inv(s) && r in Step(s, l).relays
    ensures BatchOk(Step(s, l), Step(s, l).relays[r])
  {
    if l.Read? && MayRead(s, l.relay, l.ids) && l.relay == r {
      ReadKeepsBatches(s, r, l.ids);
    } else if l.Handle? && l.relay == r && MayHandle(s, r) {
      HandleKeepsBatch(s, r, l.lands, l.attempt);
    } else {
      OtherBatches(s, l, r);
      BatchKept(s, Step(s, l), s.relays[r]);
    }
  }

  // A step leaves the batches of other relays alone, and only adds to the histories.
  lemma OtherBatches(s: State, l: Label, r: nat)
    requires r in Step(s, l).relays
    requires !(l.Read? && MayRead(s, l.relay, l.ids) && l.relay == r) && !(l.Handle? && l.relay == r && MayHandle(s, r))
    ensures r in s.relays && Step(s, l).relays[r] == s.relays[r]
    ensures s.log <= Step(s, l).log && s.landed <= Step(s, l).landed
  {
  }

  lemma {:induction false} RunKeepsInv(s: State, labels: seq<Label>)
    requires Inv(s)
    ensures Inv(Run(s, labels))
    decreases |labels|
  {
    if labels != [] {
      StepKeepsInv(s, labels[0]);
      RunKeepsInv(Step(s, labels[0]), labels[1..]);
    }
  }

  lemma StepKeepsInv(s: State, l: Label)
    requires Inv(s)
    ensures Inv(Step(s, l))
  {
    var s' := Step(s, l);
    assert |s'.log| == s'.outbox.next;
    forall id: EventId ensures EventOk(s', id) { StepKeepsEvent(s, l, id); }
    forall r <- s'.relays ensures BatchOk(s', s'.relays[r]) { StepKeepsBatch(s, l, r); }
    forall id <- s'.landed ensures id < |s'.log| { StepKeepsLanded(s, l, id); }
  }

  lemma StepKeepsLanded(s: State, l: Label, id: EventId)
    requires Inv(s) && id in Step(s, l).landed
    ensures id < |Step(s, l).log|
  {
    if l.Handle? && MayHandle(s, l.relay) {
      assert BatchOk(s, s.relays[l.relay]) && NextId(s, l.relay) in s.relays[l.relay].ids;
    }
  }

  /** In every run, of any number of relays: each event created is in exactly one of the two
      tables with the content it was created with, it is marked processed only after the
      index took it in, and a pending one counts its committed polls.  Every product row is
      what its events say. */
  lemma CatalogConservation(labels: seq<Label>, id: EventId, p: ProductId)
    ensures var s := Run(EMPTY, labels);
            && Conserved(s.outbox) && s.outbox.next == |s.log|
            && (id < |s.log| ==> (id in s.outbox.rows || id in s.outbox.dlq) && EventAt(s.outbox, id) == s.log[id])
            && (Processed(s.outbox, id) ==> id in s.landed)
            && (Pending(s.outbox, id) ==> s.outbox.rows[id].retries == Count(s.polls, id))
            && Get(s.products, p) == Show(s.log, p)
  {
    var s := Run(EMPTY, labels);
    assert Inv(EMPTY);
    RunKeepsInv(EMPTY, labels);
    RunKeepsRows(EMPTY, labels, p);
    forall i: EventId ensures i < s.outbox.next <==> i in s.outbox.rows || i in s.outbox.dlq {
      assert EventOk(s, i);
    }
    forall i: EventId ensures !(i in s.outbox.rows && i in s.outbox.dlq) {
      assert EventOk(s, i);
    }
    assert EventOk(s, id);
  }
}
