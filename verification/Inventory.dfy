/**
The inventory tables and the two transactions on them, `Reserve` and `Release`,
as functions from committed tables to committed tables.

A transaction either commits all of its writes or none, so every error reply
returns the tables it was given.
*/
module Inventory {
  import opened Common

  datatype Stock = Stock(available: int, reserved: int)

  datatype ReservationStatus = Reserved | Released

  datatype Reservation = Reservation(quantity: int, status: ReservationStatus)

  // Primary key of the reservations table.
  datatype Key = Key(order: OrderId, product: ProductId)

  datatype Operation = OpReserve | OpRelease

  datatype LedgerEntry = LedgerEntry(key: Key, change: int, op: Operation)

  datatype Tables = Tables(
    stock: map<ProductId, Stock>,
    reservations: map<Key, Reservation>,
    ledger: seq<LedgerEntry>)

  datatype Error =
    | InvalidQuantity
    | ReservationNotFound
    | AlreadyReleased
    | QuantityMismatch
    | InsufficientStock
    | CommitFailed

  datatype Reply = Ok | Err(error: Error)

  datatype Call =
    | Reserve(key: Key, quantity: int)
    | Release(key: Key, quantity: int)

  datatype Result = Result(db: Tables, reply: Reply)

  function ReserveTx(db: Tables, k: Key, q: int): Result {
    if q <= 0 then
      Result(db, Err(InvalidQuantity))
    else if k in db.reservations then
      var row := db.reservations[k];
      Result(db,
             if row.status != Reserved then Err(AlreadyReleased)
             else if row.quantity != q then Err(QuantityMismatch)
             else Ok)
    else if k.product !in db.stock || db.stock[k.product].available < q then
      Result(db, Err(InsufficientStock))
    else
      var s := db.stock[k.product];
      Result(Tables(db.stock[k.product := Stock(s.available - q, s.reserved + q)],
                    db.reservations[k := Reservation(q, Reserved)],
                    db.ledger + [LedgerEntry(k, -q, OpReserve)]),
             Ok)
  }

  function ReleaseTx(db: Tables, k: Key, q: int): Result {
    if q <= 0 then
      Result(db, Err(InvalidQuantity))
    else if k !in db.reservations then
      Result(db, Err(ReservationNotFound))
    else
      var row := db.reservations[k];
      if row.status == Released && row.quantity == q then
        Result(db, Ok)
      else if row.status != Reserved then
        Result(db, Err(AlreadyReleased))
      else if row.quantity != q then
        Result(db, Err(QuantityMismatch))
      else if k.product !in db.stock || db.stock[k.product].reserved < q then
        Result(db, Err(InsufficientStock))
      else
        var s := db.stock[k.product];
        Result(Tables(db.stock[k.product := Stock(s.available + q, s.reserved - q)],
                      db.reservations[k := row.(status := Released)],
                      db.ledger + [LedgerEntry(k, q, OpRelease)]),
               Ok)
  }

  function Apply(db: Tables, c: Call): Result {
    match c
    case Reserve(k, q) => ReserveTx(db, k, q)
    case Release(k, q) => ReleaseTx(db, k, q)
  }

  // The tables after any sequence of calls, from any number of clients.
  function Run(db: Tables, calls: seq<Call>): Tables
    decreases |calls|
  {
    if calls == [] then db else Run(Apply(db, calls[0]).db, calls[1..])
  }

  /* ---------- When a call is granted ---------- */

  // At least q units of product p can be taken.
  predicate InStock(db: Tables, p: ProductId, q: int) {
    q > 0 && p in db.stock && db.stock[p].available >= q
  }

  /** What every Reserve is answered.  A new pair is granted exactly when the product has at
      least the quantity available, the last units included, and then the columns move by it. */
  lemma ReserveAnswers(db: Tables, k: Key, q: int)
    ensures var r := ReserveTx(db, k, q);
            && (q <= 0 ==> r.reply == Err(InvalidQuantity))
            && (q > 0 && k in db.reservations && db.reservations[k].status == Released ==>
                  r.reply == Err(AlreadyReleased))
            && (q > 0 && k in db.reservations && db.reservations[k].status == Reserved ==>
                  r.reply == if db.reservations[k].quantity == q then Ok else Err(QuantityMismatch))
            && (q > 0 && k !in db.reservations ==>
                  && (r.reply.Ok? <==> k.product in db.stock && db.stock[k.product].available >= q)
                  && (r.reply.Err? ==> r.reply == Err(InsufficientStock))
                  && (r.reply.Ok? ==> Taken(db, r.db, k, q)))
            && ((q > 0 && k !in db.reservations && r.reply.Ok?) || r.db == db)
  {
  }

  // q units moved from the available to the reserved column, with the row that says so.
  ghost predicate Taken(db: Tables, db': Tables, k: Key, q: int)
    requires k.product in db.stock
  {
    && db'.stock.Keys == db.stock.Keys
    && db'.stock[k.product].available == db.stock[k.product].available - q
    && db'.stock[k.product].reserved == db.stock[k.product].reserved + q
    && (forall p <- db.stock :: p != k.product ==> db'.stock[p] == db.stock[p])
    && db'.reservations == db.reservations[k := Reservation(q, Reserved)]
  }

  /** What every Release is answered. */
  lemma ReleaseAnswers(db: Tables, k: Key, q: int)
    ensures var r := ReleaseTx(db, k, q);
            && (q <= 0 ==> r.reply == Err(InvalidQuantity))
            && (q > 0 && k !in db.reservations ==> r.reply == Err(ReservationNotFound))
            && (q > 0 && k in db.reservations && db.reservations[k].status == Released ==>
                  r.reply == if db.reservations[k].quantity == q then Ok else Err(AlreadyReleased))
            && (q > 0 && k in db.reservations && db.reservations[k].status == Reserved ==>
                  && (r.reply == Err(QuantityMismatch) <==> db.reservations[k].quantity != q)
                  && (r.reply.Ok? <==> db.reservations[k].quantity == q && k.product in db.stock &&
                                       db.stock[k.product].reserved >= q)
                  && (r.reply.Ok? ==> Taken(r.db.(reservations := db.reservations), db, k, q)
                                      && r.db.reservations == db.reservations[k := Reservation(q, Released)]))
            && ((q > 0 && k in db.reservations && db.reservations[k] == Reservation(q, Reserved)) || r.db == db)
  {
  }

  // Every call is granted, one after the other.
  predicate AllGranted(db: Tables, calls: seq<Call>)
    decreases |calls|
  {
    calls == [] || (Apply(db, calls[0]).reply.Ok? && AllGranted(Apply(db, calls[0]).db, calls[1..]))
  }

  function Wanted(calls: seq<Call>): int {
    if calls == [] then 0 else calls[0].quantity + Wanted(calls[1..])
  }

  /** Reservations of one product by different orders are all granted exactly when together
      they ask for no more than is available: the stock can be sold out and not oversold. */
  lemma {:induction false} SoldOutNotOversold(db: Tables, p: ProductId, calls: seq<Call>)
    requires p in db.stock && db.stock[p].available >= 0
    requires forall c <- calls :: c.Reserve? && c.key.product == p && c.quantity > 0 && c.key !in db.reservations
    requires forall i, j :: 0 <= i < j < |calls| ==> calls[i].key != calls[j].key
    ensures AllGranted(db, calls) <==> Wanted(calls) <= db.stock[p].available
    decreases |calls|
  {
    if calls != [] {
      ReserveAnswers(db, calls[0].key, calls[0].quantity);
      WantedIsPositive(calls[1..]);
      if Apply(db, calls[0]).reply.Ok? {
        SoldOutNotOversold(Apply(db, calls[0]).db, p, calls[1..]);
      }
    }
  }

  lemma {:induction false} WantedIsPositive(calls: seq<Call>)
    requires forall c <- calls :: c.quantity > 0
    ensures Wanted(calls) >= 0
  {
    if calls != [] {
      WantedIsPositive(calls[1..]);
    }
  }

  /* ---------- What the tables mean ---------- */

  // Quantity this row holds back from the stock of product p.
  function Held(k: Key, row: Reservation, p: ProductId): int {
    if k.product == p && row.status == Reserved then row.quantity else 0
  }

  // Sum of the live reservation quantities of product p.
  ghost function LiveSum(rows: map<Key, Reservation>, p: ProductId): int {
    if rows == map[] then 0 else
      var k :| k in rows;
      Held(k, rows[k], p) + LiveSum(rows - {k}, p)
  }

  // Sum of the ledger changes of product p.
  function LedgerSum(ledger: seq<LedgerEntry>, p: ProductId): int {
    if ledger == [] then 0 else
      var last := ledger[|ledger| - 1];
      LedgerSum(ledger[..|ledger| - 1], p) + if last.key.product == p then last.change else 0
  }

  // The ledger entries of one (order, product) pair, oldest first.
  function History(ledger: seq<LedgerEntry>, k: Key): seq<LedgerEntry> {
    if ledger == [] then [] else
      var last := ledger[|ledger| - 1];
      History(ledger[..|ledger| - 1], k) + if last.key == k then [last] else []
  }

  // The ledger entries a pair must have, given only its reservation row.
  function Owed(rows: map<Key, Reservation>, k: Key): seq<LedgerEntry> {
    if k !in rows then
      []
    else if rows[k].status == Reserved then
      [LedgerEntry(k, -rows[k].quantity, OpReserve)]
    else
      [LedgerEntry(k, -rows[k].quantity, OpReserve), LedgerEntry(k, rows[k].quantity, OpRelease)]
  }

  // Stock still on hand, never less held back than the live reservations hold,
  // and a ledger that tells every pair's story exactly once.
  ghost predicate WellFormed(db: Tables) {
    && (forall p <- db.stock ::
          db.stock[p].available >= 0 && db.stock[p].reserved >= LiveSum(db.reservations, p))
    && (forall k <- db.reservations :: db.reservations[k].quantity > 0 && k.product in db.stock)
    && (forall k: Key :: History(db.ledger, k) == Owed(db.reservations, k))
  }

  /* ---------- Sums over the reservations table ---------- */

  lemma {:induction false} LiveSumSplit(rows: map<Key, Reservation>, k: Key, p: ProductId)
    requires k in rows
    ensures LiveSum(rows, p) == Held(k, rows[k], p) + LiveSum(rows - {k}, p)
    decreases |rows|
  {
    var j :| j in rows && LiveSum(rows, p) == Held(j, rows[j], p) + LiveSum(rows - {j}, p);
    if j != k {
      LiveSumSplit(rows - {j}, k, p);
      LiveSumSplit(rows - {k}, j, p);
      assert rows - {j} - {k} == rows - {k} - {j};
    }
  }

  lemma LiveSumPut(rows: map<Key, Reservation>, k: Key, row: Reservation, p: ProductId)
    ensures LiveSum(rows[k := row], p) ==
            LiveSum(rows, p) + Held(k, row, p) - (if k in rows then Held(k, rows[k], p) else 0)
  {
    LiveSumSplit(rows[k := row], k, p);
    assert rows[k := row] - {k} == rows - {k};
    if k in rows {
      LiveSumSplit(rows, k, p);
    } else {
      assert rows - {k} == rows;
    }
  }

  lemma {:induction false} LiveSumNonNegative(rows: map<Key, Reservation>, p: ProductId)
    requires forall k <- rows :: rows[k].quantity >= 0
    ensures LiveSum(rows, p) >= 0
    decreases |rows|
  {
    if k :| k in rows {
      LiveSumSplit(rows, k, p);
      LiveSumNonNegative(rows - {k}, p);
    }
  }

  // A live row never holds more than the stock row has put aside.
  lemma HeldIsCovered(db: Tables, k: Key)
    requires WellFormed(db) && k in db.reservations && db.reservations[k].status == Reserved
    ensures db.stock[k.product].reserved >= db.reservations[k].quantity
  {
    LiveSumSplit(db.reservations, k, k.product);
    LiveSumNonNegative(db.reservations - {k}, k.product);
  }

  lemma LedgerAppend(ledger: seq<LedgerEntry>, e: LedgerEntry)
    ensures forall p :: LedgerSum(ledger + [e], p) == LedgerSum(ledger, p) + if e.key.product == p then e.change else 0
    ensures forall k :: History(ledger + [e], k) == History(ledger, k) + if e.key == k then [e] else []
  {
    assert (ledger + [e])[..|ledger|] == ledger;
  }

  /* ---------- Conservation ---------- */

  // What one product's numbers must satisfy after db0 became db.
  ghost predicate Balanced(db0: Tables, db: Tables, p: ProductId)
    requires p in db0.stock && p in db.stock
  {
    var s0, s := db0.stock[p], db.stock[p];
    && s.available >= 0 && s.reserved >= LiveSum(db.reservations, p) >= 0
    && s.available + s.reserved == s0.available + s0.reserved
    && s.reserved - s0.reserved == LiveSum(db.reservations, p) - LiveSum(db0.reservations, p)
    && s.available - s0.available == LedgerSum(db.ledger, p) - LedgerSum(db0.ledger, p)
  }

  // The shape of every committed change: q units move from available to reserved (or back
  // when q < 0), one reservation row is written, one ledger entry is appended.
  ghost predicate Moves(db: Tables, db': Tables, k: Key, q: int) {
    && k.product in db.stock && k in db'.reservations
    && var s := db.stock[k.product];
    && db'.stock == db.stock[k.product := Stock(s.available - q, s.reserved + q)]
    && db'.reservations == db.reservations[k := db'.reservations[k]]
    && |db'.ledger| == |db.ledger| + 1
    && db'.ledger == db.ledger + [db'.ledger[|db.ledger|]]
    && db'.ledger[|db.ledger|].key == k && db'.ledger[|db.ledger|].change == -q
    && Held(k, db'.reservations[k], k.product) ==
       q + if k in db.reservations then Held(k, db.reservations[k], k.product) else 0
  }

  lemma MovesBalance(db: Tables, db': Tables, k: Key, q: int, p: ProductId)
    requires Moves(db, db', k, q)
    ensures LiveSum(db'.reservations, p) == LiveSum(db.reservations, p) + if k.product == p then q else 0
    ensures LedgerSum(db'.ledger, p) == LedgerSum(db.ledger, p) - if k.product == p then q else 0
  {
    LiveSumPut(db.reservations, k, db'.reservations[k], p);
    LedgerAppend(db.ledger, db'.ledger[|db.ledger|]);
  }

  lemma ReserveMoves(db: Tables, k: Key, q: int)
    requires ReserveTx(db, k, q).db != db
    ensures Moves(db, ReserveTx(db, k, q).db, k, q)
    ensures q > 0 && k !in db.reservations && ReserveTx(db, k, q).reply == Ok
    ensures ReserveTx(db, k, q).db.reservations[k] == Reservation(q, Reserved)
  {
  }

  lemma ReleaseMoves(db: Tables, k: Key, q: int)
    requires ReleaseTx(db, k, q).db != db
    ensures Moves(db, ReleaseTx(db, k, q).db, k, -q)
    ensures q > 0 && k in db.reservations && db.reservations[k] == Reservation(q, Reserved)
    ensures ReleaseTx(db, k, q).reply == Ok
    ensures ReleaseTx(db, k, q).db.reservations[k] == Reservation(q, Released)
  {
  }

  lemma HistoryFollows(db: Tables, c: Call, k: Key)
    requires WellFormed(db) && Apply(db, c).db != db
    ensures History(Apply(db, c).db.ledger, k) == Owed(Apply(db, c).db.reservations, k)
  {
    assert History(db.ledger, k) == Owed(db.reservations, k);
    var db' := Apply(db, c).db;
    match c
    case Reserve(_, q) =>
      ReserveMoves(db, c.key, q);
      LedgerAppend(db.ledger, LedgerEntry(c.key, -q, OpReserve));
    case Release(_, q) =>
      ReleaseMoves(db, c.key, q);
      LedgerAppend(db.ledger, LedgerEntry(c.key, q, OpRelease));
  }

  lemma ApplyBalances(db: Tables, c: Call)
    requires WellFormed(db)
    ensures WellFormed(Apply(db, c).db)
    ensures Apply(db, c).db.stock.Keys == db.stock.Keys
    ensures forall p <- db.stock :: Balanced(db, Apply(db, c).db, p)
  {
    var db' := Apply(db, c).db;
    if db' == db {
      forall p <- db.stock ensures Balanced(db, db', p) {
        LiveSumNonNegative(db.reservations, p);
      }
    } else {
      var q := if c.Reserve? then c.quantity else -c.quantity;
      assert Moves(db, db', c.key, q) by {
        if c.Reserve? { ReserveMoves(db, c.key, c.quantity); } else { ReleaseMoves(db, c.key, c.quantity); }
      }
      assert forall k <- db'.reservations :: db'.reservations[k].quantity > 0;
      forall p <- db.stock ensures Balanced(db, db', p) {
        MovesBalance(db, db', c.key, q, p);
        LiveSumNonNegative(db'.reservations, p);
      }
      forall k: Key ensures History(db'.ledger, k) == Owed(db'.reservations, k) {
        HistoryFollows(db, c, k);
      }
    }
  }

  /** Over every run of calls: nothing is oversold, stock is only moved between its two
      columns, and the reservations table and the ledger each account for the move. */
  lemma {:induction false} Conservation(db: Tables, calls: seq<Call>)
    requires WellFormed(db)
    ensures WellFormed(Run(db, calls))
    ensures Run(db, calls).stock.Keys == db.stock.Keys
    ensures forall p <- db.stock :: Balanced(db, Run(db, calls), p)
    decreases |calls|
  {
    if calls == [] {
      forall p <- db.stock ensures Balanced(db, db, p) {
        LiveSumNonNegative(db.reservations, p);
      }
    } else {
      var db1 := Apply(db, calls[0]).db;
      ApplyBalances(db, calls[0]);
      Conservation(db1, calls[1..]);
      forall p <- db.stock ensures Balanced(db, Run(db, calls), p) {
        assert Balanced(db, db1, p);
        assert Balanced(db1, Run(db, calls), p);
      }
    }
  }

  // The columns are 32-bit INTs.  When the initial total of a product fits, every value
  // either column ever takes fits too, so unbounded integers lose nothing.
  const INT_MAX: int := 0x7fff_ffff

  lemma ColumnsFit(db: Tables, calls: seq<Call>, p: ProductId)
    requires WellFormed(db) && p in db.stock
    requires db.stock[p].available + db.stock[p].reserved <= INT_MAX
    ensures p in Run(db, calls).stock
    ensures 0 <= Run(db, calls).stock[p].available <= INT_MAX
    ensures 0 <= Run(db, calls).stock[p].reserved <= INT_MAX
  {
    Conservation(db, calls);
    assert Balanced(db, Run(db, calls), p);
  }

  /* ---------- Idempotence and duplicate collapse ---------- */

  // Rows are never removed, their quantity never changes, and Released is final.
  ghost predicate Grows(db: Tables, db': Tables) {
    forall k <- db.reservations ::
      && k in db'.reservations
      && db'.reservations[k].quantity == db.reservations[k].quantity
      && (db.reservations[k].status == Released ==> db'.reservations[k].status == Released)
  }

  lemma {:induction false} RunGrows(db: Tables, calls: seq<Call>)
    ensures Grows(db, Run(db, calls))
    decreases |calls|
  {
    if calls != [] {
      RunGrows(Apply(db, calls[0]).db, calls[1..]);
    }
  }

  /** A released pair is never reserved again, whatever happens in between. */
  lemma ReleasedIsFinal(db: Tables, k: Key, calls: seq<Call>, q: int)
    requires k in db.reservations && db.reservations[k].status == Released
    ensures var db' := Run(db, calls);
            ReserveTx(db', k, q).reply.Err? && ReserveTx(db', k, q).db == db'
  {
    RunGrows(db, calls);
  }

  /** A call that succeeded can be repeated at any later time without changing a table,
      and the repeat succeeds too, unless it is a Reserve whose pair was released since. */
  lemma RepeatIsNoOp(db: Tables, c: Call, calls: seq<Call>)
    requires Apply(db, c).reply.Ok?
    ensures var db' := Run(Apply(db, c).db, calls);
            && Apply(db', c).db == db'
            && (Apply(db', c).reply.Ok? <==>
                c.Release? || (c.key in db'.reservations && db'.reservations[c.key].status == Reserved))
  {
    RunGrows(Apply(db, c).db, calls);
  }

  // The calls of a run that changed a table.
  function Effective(db: Tables, calls: seq<Call>): seq<Call>
    decreases |calls|
  {
    if calls == [] then
      []
    else
      var db' := Apply(db, calls[0]).db;
      (if db' == db then [] else [calls[0]]) + Effective(db', calls[1..])
  }

  ghost predicate AtMostOnce(calls: seq<Call>) {
    forall i, j :: 0 <= i < j < |calls| && calls[i].key == calls[j].key ==>
      calls[i].Reserve? && calls[j].Release?
  }

  // Which calls can still change a table.
  lemma EffectiveNeedsRoom(db: Tables, c: Call)
    ensures Apply(db, c).db != db ==>
      && (c.Reserve? ==> c.key !in db.reservations)
      && (c.Release? ==> c.key in db.reservations && db.reservations[c.key].status == Reserved)
      && c.key in Apply(db, c).db.reservations
      && (c.Release? ==> Apply(db, c).db.reservations[c.key].status == Released)
  {
    if Apply(db, c).db != db && c.Release? {
      assert Apply(db, c).db.ledger != db.ledger;
    }
  }

  lemma {:induction false} EffectiveAreRoomy(db: Tables, calls: seq<Call>)
    ensures forall c <- Effective(db, calls) ::
      && (c.Reserve? ==> c.key !in db.reservations)
      && (c.Release? && c.key in db.reservations ==> db.reservations[c.key].status == Reserved)
    decreases |calls|
  {
    if calls != [] {
      EffectiveNeedsRoom(db, calls[0]);
      EffectiveAreRoomy(Apply(db, calls[0]).db, calls[1..]);
      RunGrows(db, [calls[0]]);
      assert Run(db, [calls[0]]) == Apply(db, calls[0]).db;
    }
  }

  /** Duplicate collapse: a run of calls, with any repeats and any interleaving of
      clients, leaves the tables that its effective calls alone would leave; and among
      those each pair has at most one Reserve, then at most one Release. */
  lemma {:induction false} DuplicateCollapse(db: Tables, calls: seq<Call>)
    ensures Run(db, calls) == Run(db, Effective(db, calls))
    ensures AtMostOnce(Effective(db, calls))
    decreases |calls|
  {
    if calls != [] {
      var db' := Apply(db, calls[0]).db;
      var rest := Effective(db', calls[1..]);
      DuplicateCollapse(db', calls[1..]);
      if db' == db {
        assert Effective(db, calls) == rest;
      } else {
        EffectiveNeedsRoom(db, calls[0]);
        EffectiveAreRoomy(db', calls[1..]);
        var all := Effective(db, calls);
        assert all == [calls[0]] + rest && all[1..] == rest;
        assert forall j :: 1 <= j < |all| ==> all[j] == rest[j - 1] && all[j] in rest;
      }
    }
  }

  /* ---------- Release always works for a recorded reservation ---------- */

  lemma ReleaseIsGranted(db: Tables, k: Key, q: int)
    requires k in db.reservations && db.reservations[k].quantity == q > 0 && k.product in db.stock
    requires db.reservations[k].status == Reserved ==> db.stock[k.product].reserved >= q
    ensures ReleaseTx(db, k, q).reply == Ok
    ensures ReleaseTx(db, k, q).db.reservations == db.reservations[k := Reservation(q, Released)]
    ensures db.reservations[k].status == Released ==> ReleaseTx(db, k, q).db == db
  {
    if db.reservations[k].status == Released {
      assert db.reservations[k := Reservation(q, Released)] == db.reservations;
    }
  }

  /** Releasing the recorded quantity of an existing reservation succeeds, at any time,
      and afterwards the pair's ledger is one Reserve and one Release of that quantity. */
  lemma ReleaseSucceeds(db: Tables, k: Key, q: int)
    requires WellFormed(db)
    requires k in db.reservations && db.reservations[k].quantity == q
    ensures ReleaseTx(db, k, q).reply == Ok
    ensures var db' := ReleaseTx(db, k, q).db;
            && WellFormed(db')
            && db'.reservations == db.reservations[k := Reservation(q, Released)]
            && History(db'.ledger, k) == [LedgerEntry(k, -q, OpReserve), LedgerEntry(k, q, OpRelease)]
            && (db.reservations[k].status == Released ==> db' == db)
  {
    if db.reservations[k].status == Reserved {
      HeldIsCovered(db, k);
    }
    ReleaseIsGranted(db, k, q);
    ApplyBalances(db, Release(k, q));
    var db' := ReleaseTx(db, k, q).db;
    assert History(db'.ledger, k) == Owed(db'.reservations, k);
  }

  // Net change the ledger records for one pair.
  function Net(ledger: seq<LedgerEntry>, k: Key): int {
    if ledger == [] then 0 else
      var last := ledger[|ledger| - 1];
      Net(ledger[..|ledger| - 1], k) + if last.key == k then last.change else 0
  }

  lemma {:induction false} NetOfHistory(ledger: seq<LedgerEntry>, k: Key)
    ensures Net(ledger, k) == Net(History(ledger, k), k)
    decreases |ledger|
  {
    if ledger != [] {
      var init, last := ledger[..|ledger| - 1], ledger[|ledger| - 1];
      NetOfHistory(init, k);
      if last.key == k {
        assert (History(init, k) + [last])[..|History(init, k)|] == History(init, k);
      } else {
        assert History(ledger, k) == History(init, k);
      }
    }
  }

  /** A pair's ledger sums to zero exactly when it holds nothing. */
  lemma NetIsWhatIsHeld(db: Tables, k: Key)
    requires WellFormed(db)
    ensures Net(db.ledger, k) == -(if k in db.reservations then Held(k, db.reservations[k], k.product) else 0)
  {
    NetOfHistory(db.ledger, k);
    assert History(db.ledger, k) == Owed(db.reservations, k);
    if k in db.reservations {
      var q := db.reservations[k].quantity;
      var first := LedgerEntry(k, -q, OpReserve);
      assert [first][..0] == [];
      assert Net([first], k) == Net([first][..0], k) - q;
      var second := LedgerEntry(k, q, OpRelease);
      assert [first, second][..1] == [first];
      assert Net([first, second], k) == Net([first], k) + q;
    }
  }
}
