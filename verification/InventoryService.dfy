/**
The inventory service as it runs: SQL statements on mutable tables, the `reserve` and
`release` scripts, and the transaction around them.  Each use case is proved to do
exactly what its transaction function in `Inventory` says.
*/
module InventoryService {
  import opened Common
  import opened Inventory

  /** The three tables, one method per SQL statement. */
  class Repository {
    var stock: map<ProductId, Stock>
    var reservations: map<Key, Reservation>
    var ledger: seq<LedgerEntry>

    constructor (db: Tables)
      ensures Db() == db
    {
      stock, reservations, ledger := db.stock, db.reservations, db.ledger;
    }

    function Db(): Tables
      reads this
    {
      Tables(stock, reservations, ledger)
    }

    // INSERT ... ON CONFLICT (order_id, product_id) DO NOTHING
    method InsertReservation(k: Key, q: int) returns (rows: nat)
      modifies `reservations
      ensures rows == if k in old(reservations) then 0 else 1
      ensures reservations == if rows == 0 then old(reservations) else old(reservations)[k := Reservation(q, Reserved)]
    {
      if k in reservations {
        rows := 0;
      } else {
        reservations := reservations[k := Reservation(q, Reserved)];
        rows := 1;
      }
    }

    // SELECT ... FOR UPDATE
    method SelectReservation(k: Key) returns (row: Option<Reservation>)
      ensures row == if k in reservations then Some(reservations[k]) else None
    {
      row := if k in reservations then Some(reservations[k]) else None;
    }

    method UpdateReservationStatus(k: Key, status: ReservationStatus)
      modifies `reservations
      ensures reservations ==
        if k in old(reservations) then old(reservations)[k := old(reservations)[k].(status := status)]
        else old(reservations)
    {
      if k in reservations {
        reservations := reservations[k := reservations[k].(status := status)];
      }
    }

    // UPDATE inventory ... WHERE product_id = p AND available >= q
    method UpdateStockForReserve(p: ProductId, q: int) returns (rows: nat)
      modifies `stock
      ensures rows == if p in old(stock) && old(stock)[p].available >= q then 1 else 0
      ensures stock == if rows == 0 then old(stock) else
        old(stock)[p := Stock(old(stock)[p].available - q, old(stock)[p].reserved + q)]
    {
      rows := 0;
      if p in stock && stock[p].available >= q {
        stock := stock[p := Stock(stock[p].available - q, stock[p].reserved + q)];
        rows := 1;
      }
    }

    // UPDATE inventory ... WHERE product_id = p AND reserved >= q
    method UpdateStockForRelease(p: ProductId, q: int) returns (rows: nat)
      modifies `stock
      ensures rows == if p in old(stock) && old(stock)[p].reserved >= q then 1 else 0
      ensures stock == if rows == 0 then old(stock) else
        old(stock)[p := Stock(old(stock)[p].available + q, old(stock)[p].reserved - q)]
    {
      rows := 0;
      if p in stock && stock[p].reserved >= q {
        stock := stock[p := Stock(stock[p].available + q, stock[p].reserved - q)];
        rows := 1;
      }
    }

    method InsertLedger(k: Key, change: int, op: Operation)
      modifies `ledger
      ensures ledger == old(ledger) + [LedgerEntry(k, change, op)]
    {
      ledger := ledger + [LedgerEntry(k, change, op)];
    }

    method Rollback(db: Tables)
      modifies this
      ensures Db() == db
    {
      stock, reservations, ledger := db.stock, db.reservations, db.ledger;
    }
  }

  // The answer when the commit is refused: an error stays what it is.
  function OrFailed(reply: Reply): Reply {
    if reply.Ok? then Err(CommitFailed) else reply
  }

  class Usecase {
    const repo: Repository

    constructor (repo: Repository)
      ensures this.repo == repo
    {
      this.repo := repo;
    }

    // The statements of one reservation.  On an error the tables may be half written;
    // the transaction below discards them.
    method ReserveScript(k: Key, q: int) returns (reply: Reply)
      requires q > 0
      modifies repo
      ensures reply == ReserveTx(old(repo.Db()), k, q).reply
      ensures reply.Ok? ==> repo.Db() == ReserveTx(old(repo.Db()), k, q).db
    {
      var rows := repo.InsertReservation(k, q);
      if rows == 0 {
        var existing := repo.SelectReservation(k);
        if existing.value.status != Reserved {
          return Err(AlreadyReleased);
        }
        if existing.value.quantity != q {
          return Err(QuantityMismatch);
        }
        return Ok;
      }
      var affected := repo.UpdateStockForReserve(k.product, q);
      if affected == 0 {
        return Err(InsufficientStock);
      }
      repo.InsertLedger(k, -q, OpReserve);
      return Ok;
    }

    method ReleaseScript(k: Key, q: int) returns (reply: Reply)
      requires q > 0
      modifies repo
      ensures reply == ReleaseTx(old(repo.Db()), k, q).reply
      ensures reply.Ok? ==> repo.Db() == ReleaseTx(old(repo.Db()), k, q).db
    {
      var row := repo.SelectReservation(k);
      if row.None? {
        return Err(ReservationNotFound);
      }
      if row.value.status == Released && row.value.quantity == q {
        return Ok;
      }
      if row.value.status != Reserved {
        return Err(AlreadyReleased);
      }
      if row.value.quantity != q {
        return Err(QuantityMismatch);
      }
      var affected := repo.UpdateStockForRelease(k.product, q);
      if affected == 0 {
        return Err(InsufficientStock);
      }
      repo.UpdateReservationStatus(k, Released);
      repo.InsertLedger(k, q, OpRelease);
      return Ok;
    }

    /** One transaction: what the caller sees is the transaction function, or nothing at
        all when the commit is refused. */
    method Reserve(k: Key, q: int, commits: bool) returns (reply: Reply)
      modifies repo
      ensures commits ==> Result(repo.Db(), reply) == ReserveTx(old(repo.Db()), k, q)
      ensures !commits ==> repo.Db() == old(repo.Db())
      ensures !commits ==> reply == OrFailed(ReserveTx(old(repo.Db()), k, q).reply)
    {
      if q <= 0 {
        return Err(InvalidQuantity);
      }
      var before := repo.Db();
      reply := ReserveScript(k, q);
      if reply.Err? || !commits {
        repo.Rollback(before);
        if reply.Ok? {
          reply := Err(CommitFailed);
        }
      }
    }

    method Release(k: Key, q: int, commits: bool) returns (reply: Reply)
      modifies repo
      ensures commits ==> Result(repo.Db(), reply) == ReleaseTx(old(repo.Db()), k, q)
      ensures !commits ==> repo.Db() == old(repo.Db())
      ensures !commits ==> reply == OrFailed(ReleaseTx(old(repo.Db()), k, q).reply)
    {
      if q <= 0 {
        return Err(InvalidQuantity);
      }
      var before := repo.Db();
      reply := ReleaseScript(k, q);
      if reply.Err? || !commits {
        repo.Rollback(before);
        if reply.Ok? {
          reply := Err(CommitFailed);
        }
      }
    }
  }
}
