/**
Concurrent `Reserve` and `Release` transactions, one SQL statement at a time, under READ
COMMITTED:

- INSERT ... ON CONFLICT DO NOTHING waits while another open transaction has inserted the same
  key, then finds the committed row or inserts its own;
- SELECT ... FOR UPDATE waits while another open transaction holds the reservation row, then
  reads the committed one;
- UPDATE of a stock row waits while another open transaction has updated it, then tests its
  WHERE clause against the committed row;
- COMMIT publishes all writes at once.  The statements between the stock update and the commit
  touch only rows the transaction has locked, so they are part of it.

Every interleaving leaves the tables that running the atomic transactions in commit order
leaves, so conservation and duplicate collapse hold of it.
*/
module InventoryInterleaving {
  import opened Inventory

  datatype Progress =
    | Begun
    | Inserted      // Reserve: the new row is written, not yet visible
    | Conflict      // Reserve: there is a committed row
    | Granted       // the existing row is locked and asks for nothing more
    | RowLocked     // Release: the live row is locked
    | Stocked       // the stock row is updated and locked

  datatype Tx = Tx(call: Call, progress: Progress)

  datatype State = State(db: Tables, open: map<nat, Tx>)

  datatype Label =
    | Begin(tx: nat, call: Call)
    | Insert(tx: nat)
    | Lock(tx: nat)
    | UpdateStock(tx: nat)
    | Commit(tx: nat)
    | Abort(tx: nat)

  // Holds a new row that is not yet visible.
  predicate HoldsNew(tx: Tx) {
    tx.call.Reserve? && (tx.progress.Inserted? || tx.progress.Stocked?)
  }

  // Holds the lock of a committed reservation row.
  predicate HoldsRow(tx: Tx) {
    tx.progress.Granted? || tx.progress.RowLocked? || (tx.call.Release? && tx.progress.Stocked?)
  }

  ghost predicate InsertWaits(s: State, t: nat)
    requires t in s.open
  {
    exists u <- s.open :: u != t && HoldsNew(s.open[u]) && s.open[u].call.key == s.open[t].call.key
  }

  ghost predicate LockWaits(s: State, t: nat)
    requires t in s.open
  {
    exists u <- s.open :: u != t && HoldsRow(s.open[u]) && s.open[u].call.key == s.open[t].call.key
  }

  ghost predicate StockWaits(s: State, t: nat)
    requires t in s.open
  {
    exists u <- s.open ::
      u != t && s.open[u].progress.Stocked? && s.open[u].call.key.product == s.open[t].call.key.product
  }

  function Goes(s: State, t: nat, p: Progress): State
    requires t in s.open
  {
    s.(open := s.open[t := s.open[t].(progress := p)])
  }

  function Aborted(s: State, t: nat): State {
    s.(open := s.open - {t})
  }

  // The existing row, read under its lock.
  function Locked(s: State, t: nat): State
    requires t in s.open
  {
    var c := s.open[t].call;
    if c.key !in s.db.reservations then Aborted(s, t)
    else
      var row := s.db.reservations[c.key];
      match c
      case Reserve(_, q) => if row == Reservation(q, Reserved) then Goes(s, t, Granted) else Aborted(s, t)
      case Release(_, q) =>
        if row == Reservation(q, Released) then Goes(s, t, Granted)
        else if row == Reservation(q, Reserved) then Goes(s, t, RowLocked)
        else Aborted(s, t)
  }

  // The WHERE clause of the stock update.
  predicate Enough(db: Tables, c: Call) {
    && c.key.product in db.stock
    && match c
    case Reserve(_, q) => db.stock[c.key.product].available >= q
    case Release(_, q) => db.stock[c.key.product].reserved >= q
  }

  /** One statement.  A label that does not apply, or has to wait, leaves the state alone. */
  ghost function Step(s: State, l: Label): State {
    match l
    case Begin(t, c) => if t in s.open || c.quantity <= 0 then s else s.(open := s.open[t := Tx(c, Begun)])
    case Insert(t) =>
      if t !in s.open || !s.open[t].call.Reserve? || !s.open[t].progress.Begun? || InsertWaits(s, t) then s
      else Goes(s, t, if s.open[t].call.key in s.db.reservations then Conflict else Inserted)
    case Lock(t) =>
      if t !in s.open || LockWaits(s, t) then s
      else if s.open[t].progress.Conflict? || (s.open[t].call.Release? && s.open[t].progress.Begun?) then Locked(s, t)
      else s
    case UpdateStock(t) =>
      if t !in s.open || !(s.open[t].progress.Inserted? || s.open[t].progress.RowLocked?) || StockWaits(s, t) then s
      else if Enough(s.db, s.open[t].call) then Goes(s, t, Stocked)
      else Aborted(s, t)
    case Commit(t) =>
      if t !in s.open then s
      else if s.open[t].progress.Granted? then Aborted(s, t)
      else if s.open[t].progress.Stocked? then State(Published(s.db, s.open[t].call), s.open - {t})
      else s
    case Abort(t) => Aborted(s, t)
  }

  // The writes of a transaction that got through.
  function Published(db: Tables, c: Call): Tables {
    if c.key.product !in db.stock then db
    else
      var stock := db.stock[c.key.product];
      match c
      case Reserve(k, q) =>
        Tables(db.stock[k.product := Stock(stock.available - q, stock.reserved + q)],
               db.reservations[k := Reservation(q, Reserved)], db.ledger + [LedgerEntry(k, -q, OpReserve)])
      case Release(k, q) =>
        Tables(db.stock[k.product := Stock(stock.available + q, stock.reserved - q)],
               db.reservations[k := Reservation(q, Released)], db.ledger + [LedgerEntry(k, q, OpRelease)])
  }

  ghost function Run(s: State, labels: seq<Label>): State
    decreases |labels|
  {
    if labels == [] then s else Run(Step(s, labels[0]), labels[1..])
  }

  /* ---------- What an open transaction may rely on ---------- */

  ghost predicate TxValid(db: Tables, tx: Tx) {
    var k, q := tx.call.key, tx.call.quantity;
    && q > 0
    && (HoldsNew(tx) ==> k !in db.reservations)
    && (tx.progress.Conflict? ==> k in db.reservations)
    && (tx.progress.Granted? ==>
          k in db.reservations && db.reservations[k] == Reservation(q, if tx.call.Reserve? then Reserved else Released))
    && (tx.progress.RowLocked? ==> tx.call.Release?)
    && (tx.progress.Inserted? ==> tx.call.Reserve?)
    && (tx.call.Release? && (tx.progress.RowLocked? || tx.progress.Stocked?) ==>
          k in db.reservations && db.reservations[k] == Reservation(q, Reserved))
    && (tx.progress.Stocked? ==> Enough(db, tx.call))
  }

  // Two open transactions never hold the same new key, row or stock row.
  ghost predicate Apart(a: Tx, b: Tx) {
    && (HoldsNew(a) && HoldsNew(b) ==> a.call.key != b.call.key)
    && (HoldsRow(a) && HoldsRow(b) ==> a.call.key != b.call.key)
    && (a.progress.Stocked? && b.progress.Stocked? ==> a.call.key.product != b.call.key.product)
  }

  ghost predicate Inv(s: State) {
    && (forall t <- s.open :: TxValid(s.db, s.open[t]))
    && (forall t, u :: t in s.open && u in s.open && t != u ==> Apart(s.open[t], s.open[u]))
  }

  /** At the moment it commits, a transaction has done what the atomic one does in one go. */
  lemma CommitIsAtomic(s: State, t: nat)
    requires t in s.open && TxValid(s.db, s.open[t]) && (s.open[t].progress.Granted? || s.open[t].progress.Stocked?)
    ensures Apply(s.db, s.open[t].call) == Result(Step(s, Commit(t)).db, Ok)
  {
  }

  // A commit takes nothing away from the other open transactions.
  lemma CommitLeavesValid(db: Tables, a: Tx, b: Tx)
    requires TxValid(db, a) && a.progress.Stocked? && TxValid(db, b) && Apart(a, b)
    ensures TxValid(Published(db, a.call), b)
  {
  }

  lemma GoesKeepsInv(s: State, t: nat, p: Progress)
    requires Inv(s) && t in s.open && TxValid(s.db, s.open[t].(progress := p))
    requires forall u <- s.open :: u != t ==>
      Apart(s.open[t].(progress := p), s.open[u]) && Apart(s.open[u], s.open[t].(progress := p))
    ensures Inv(Goes(s, t, p))
  {
  }

  lemma AbortKeepsInv(s: State, t: nat)
    requires Inv(s)
    ensures Inv(Aborted(s, t))
  {
  }

  lemma CommitKeepsInv(s: State, t: nat)
    requires Inv(s) && t in s.open && s.open[t].progress.Stocked?
    ensures Inv(Step(s, Commit(t)))
  {
    var s' := Step(s, Commit(t));
    forall u <- s'.open ensures TxValid(s'.db, s'.open[u]) {
      CommitLeavesValid(s.db, s.open[t], s.open[u]);
    }
  }

  lemma InsertKeepsInv(s: State, t: nat)
    requires Inv(s) && t in s.open && s.open[t].call.Reserve? && s.open[t].progress.Begun? && !InsertWaits(s, t)
    ensures Inv(Step(s, Insert(t)))
  {
    var p := if s.open[t].call.key in s.db.reservations then Conflict else Inserted;
    forall u <- s.open | u != t
      ensures Apart(s.open[t].(progress := p), s.open[u]) && Apart(s.open[u], s.open[t].(progress := p))
    {
    }
    GoesKeepsInv(s, t, p);
  }

  lemma LockKeepsInv(s: State, t: nat)
    requires Inv(s) && t in s.open && !LockWaits(s, t)
    requires s.open[t].progress.Conflict? || (s.open[t].call.Release? && s.open[t].progress.Begun?)
    ensures Inv(Locked(s, t))
  {
    AbortKeepsInv(s, t);
    var s' := Locked(s, t);
    if t in s'.open {
      var p := s'.open[t].progress;
      assert TxValid(s.db, s.open[t]) && HoldsRow(s'.open[t]);
      forall u <- s.open | u != t
        ensures Apart(s.open[t].(progress := p), s.open[u]) && Apart(s.open[u], s.open[t].(progress := p))
      {
      }
      GoesKeepsInv(s, t, p);
    }
  }

  lemma UpdateKeepsInv(s: State, t: nat)
    requires Inv(s) && t in s.open && !StockWaits(s, t)
    requires s.open[t].progress.Inserted? || s.open[t].progress.RowLocked?
    ensures Inv(Step(s, UpdateStock(t)))
  {
    AbortKeepsInv(s, t);
    if Enough(s.db, s.open[t].call) {
      assert TxValid(s.db, s.open[t]);
      forall u <- s.open | u != t
        ensures Apart(s.open[t].(progress := Stocked), s.open[u]) && Apart(s.open[u], s.open[t].(progress := Stocked))
      {
        assert Apart(s.open[t], s.open[u]) && Apart(s.open[u], s.open[t]);
      }
      GoesKeepsInv(s, t, Stocked);
    }
  }

  lemma StepKeepsInv(s: State, l: Label)
    requires Inv(s)
    ensures Inv(Step(s, l))
  {
    if Step(s, l) != s {
      match l
      case Begin(_, _) =>
      case Insert(t) => InsertKeepsInv(s, t);
      case Lock(t) => LockKeepsInv(s, t);
      case UpdateStock(t) => UpdateKeepsInv(s, t);
      case Commit(t) => if s.open[t].progress.Stocked? { CommitKeepsInv(s, t); } else { AbortKeepsInv(s, t); }
      case Abort(t) => AbortKeepsInv(s, t);
    }
  }

  // The atomic calls a run amounts to, in the order they committed.
  ghost function Serial(s: State, labels: seq<Label>): seq<Call>
    decreases |labels|
  {
    if labels == [] then []
    else
      var l, rest := labels[0], Serial(Step(s, labels[0]), labels[1..]);
      if l.Commit? && l.tx in s.open && (s.open[l.tx].progress.Granted? || s.open[l.tx].progress.Stocked?) then
        [s.open[l.tx].call] + rest
      else rest
  }

  lemma OnlyCommitsWrite(s: State, l: Label)
    requires !(l.Commit? && l.tx in s.open && (s.open[l.tx].progress.Granted? || s.open[l.tx].progress.Stocked?))
    ensures Step(s, l).db == s.db
  {
  }

  /** Serialisability: every interleaving of the statements of concurrent reserves and releases
      leaves the tables that the atomic transactions leave in commit order. */
  lemma {:induction false} Serializable(s: State, labels: seq<Label>)
    requires Inv(s)
    ensures Inv(Run(s, labels))
    ensures Run(s, labels).db == Inventory.Run(s.db, Serial(s, labels))
    decreases |labels|
  {
    if labels != [] {
      var l, rest := labels[0], Serial(Step(s, labels[0]), labels[1..]);
      StepKeepsInv(s, l);
      Serializable(Step(s, l), labels[1..]);
      if l.Commit? && l.tx in s.open && (s.open[l.tx].progress.Granted? || s.open[l.tx].progress.Stocked?) {
        assert TxValid(s.db, s.open[l.tx]);
        CommitIsAtomic(s, l.tx);
        assert ([s.open[l.tx].call] + rest)[1..] == rest;
      } else {
        OnlyCommitsWrite(s, l);
      }
    }
  }

  /** So under every interleaving nothing is oversold, stock only moves between its columns, and
      reservations and ledger each account for the move. */
  lemma ConservedUnderInterleaving(db: Tables, labels: seq<Label>)
    requires WellFormed(db)
    ensures var db' := Run(State(db, map[]), labels).db;
            && WellFormed(db') && db'.stock.Keys == db.stock.Keys
            && forall p <- db.stock :: Balanced(db, db', p)
  {
    Serializable(State(db, map[]), labels);
    Conservation(db, Serial(State(db, map[]), labels));
  }

  // The statements of one transaction, those its call has no use for included.
  function Script(t: nat, c: Call): seq<Label> {
    [Begin(t, c), Insert(t), Lock(t), UpdateStock(t), Commit(t)]
  }

  lemma ScriptRuns(s: State, t: nat, c: Call)
    ensures Run(s, Script(t, c)) ==
      Step(Step(Step(Step(Step(s, Begin(t, c)), Insert(t)), Lock(t)), UpdateStock(t)), Commit(t))
  {
    var l1, l2 := [Insert(t), Lock(t), UpdateStock(t), Commit(t)], [Lock(t), UpdateStock(t), Commit(t)];
    var l3, l4 := [UpdateStock(t), Commit(t)], [Commit(t)];
    assert Script(t, c)[1..] == l1 && l1[1..] == l2;
    assert l2[1..] == l3 && l3[1..] == l4 && l4[1..] == [];
    var s1, s2 := Step(s, Begin(t, c)), Step(Step(s, Begin(t, c)), Insert(t));
    var s3 := Step(s2, Lock(t));
    assert Run(s3, l3) == Run(Step(s3, UpdateStock(t)), l4) == Step(Step(s3, UpdateStock(t)), Commit(t));
    assert Run(s1, l1) == Run(s2, l2) == Run(s3, l3);
  }

  /** Nobody waits for nothing: with no other transaction open, the statements of a call run
      through and leave exactly what the atomic transaction leaves. */
  lemma UncontendedIsAtomic(db: Tables, t: nat, c: Call)
    ensures Run(State(db, map[]), Script(t, c)) == State(Apply(db, c).db, map[])
  {
    ScriptRuns(State(db, map[]), t, c);
    var s1 := Step(State(db, map[]), Begin(t, c));
    var s2 := Step(s1, Insert(t));
    var s3 := Step(s2, Lock(t));
    var s4 := Step(s3, UpdateStock(t));
    assert s4.db == db && s4.open - {t} == map[];
    assert t !in s4.open ==> s4.open == map[];
    if c.quantity > 0 {
      if c.Reserve? {
        assert s2.open[t].progress == if c.key in db.reservations then Conflict else Inserted;
        ReserveAnswers(db, c.key, c.quantity);
      } else {
        assert s2 == s1;
        ReleaseAnswers(db, c.key, c.quantity);
      }
      assert Apply(db, c).reply.Ok? <==> t in s4.open;
    }
  }
}
