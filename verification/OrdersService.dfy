/** The service and its repository as they run inside one transaction: statements on a
    mutable table, in the code's order. Each call is proved to be the atomic act that
    Placement defines and that Serializability shows the interleaved calls amount to. */
module OrdersService {
  import opened Options
  import opened OrderRules
  import opened Ledger
  import opened Placement
  import opened Protocol

  class OrdersRepository {
    var rows: seq<Row>
    var nextId: int
    var locks: set<int>

    constructor (rows: seq<Row>, nextId: int)
      ensures this.rows == rows && this.nextId == nextId && locks == {}
    {
      this.rows, this.nextId, locks := rows, nextId, {};
    }

    /** The advisory lock; a caller that finds it taken waits before this returns. */
    method LockPlacements(user: int)
      requires user !in locks
      modifies this`locks
      ensures locks == old(locks) + {user}
    {
      locks := locks + {user};
    }

    /** The lock goes with its transaction. */
    method EndTransaction(user: int)
      modifies this`locks
      ensures locks == old(locks) - {user}
    {
      locks := locks - {user};
    }

    function ByIdempotencyKey(user: int, key: Key): (r: Option<Row>)
      reads this
      ensures r.Some? ==> r.value in rows && r.value.userId == user && r.value.key == Some(key)
      ensures r.None? ==> forall row :: row in rows && row.userId == user ==> row.key != Some(key)
    {
      ByKey(rows, user, key)
    }

    function StatusOf(id: int): (r: Option<Status>)
      reads this
      ensures r.None? <==> forall row :: row in rows ==> row.id != id
    {
      match FindId(rows, id)
      case None => None
      case Some(i) => Some(rows[i].status)
    }

    /** INSERT: takes the next id whether or not the unique index lets the row in. */
    method Insert(order: Row) returns (created: Option<Row>)
      modifies this`rows, this`nextId
      ensures nextId == old(nextId) + 1
      ensures created.None? <==>
              exists row :: row in old(rows) && row.userId == order.userId && row.key == order.key && order.key.Some?
      ensures created.Some? ==> created.value == order.(id := old(nextId)) && rows == old(rows) + [created.value]
      ensures created.None? ==> rows == old(rows)
    {
      var row := order.(id := nextId);
      nextId := nextId + 1;
      if order.key.Some? && ByKey(rows, order.userId, order.key.value).Some? {
        created := None;
      } else {
        created := Some(row);
        rows := rows + [row];
      }
    }

    /** UPDATE ... WHERE id = ? AND status IN (cancellable), one statement. */
    method CancelRow(id: int) returns (cancelled: Option<Row>)
      modifies this`rows
      ensures cancelled.Some? <==> Placement.Cancel(old(rows), id).0.CancelOk?
      ensures cancelled.Some? ==> Placement.Cancel(old(rows), id) == (CancelOk(cancelled.value), rows)
      ensures cancelled.None? ==> rows == old(rows)
    {
      cancelled := None;
      var at := FindId(rows, id);
      if at.Some? && Cancellable(rows[at.value].status) {
        var row := rows[at.value].(status := Cancelled);
        rows := rows[at.value := row];
        cancelled := Some(row);
      }
    }
  }

  class OrdersService {
    const repository: OrdersRepository
    const users: set<int>
    const quotes: map<int, Quote>

    constructor (repository: OrdersRepository, users: set<int>, quotes: map<int, Quote>)
      ensures this.repository == repository && this.users == users && this.quotes == quotes
    {
      this.repository, this.users, this.quotes := repository, users, quotes;
    }

    /** One placement, whole: lock, look the key up, check the user and the quote, size, read
        the balances, decide, insert, and let the lock go whatever happened. */
    method PlaceOrder(req: Request) returns (answer: Answer)
      requires WellFormed(req) && req.userId !in repository.locks
      modifies repository
      ensures answer == Place(old(repository.rows), req.userId in users, QuoteOf(quotes, req.instrumentId), req,
                              old(repository.nextId))
      ensures repository.rows == Placed(old(repository.rows), answer)
      ensures repository.nextId == old(repository.nextId) + if answer.Created? then 1 else 0
      ensures repository.locks == old(repository.locks)
    {
      repository.LockPlacements(req.userId);
      answer := PlaceWithin(req);
      repository.EndTransaction(req.userId);
    }

    method PlaceWithin(req: Request) returns (answer: Answer)
      requires WellFormed(req) && req.userId in repository.locks
      modifies repository`rows, repository`nextId
      ensures answer == Place(old(repository.rows), req.userId in users, QuoteOf(quotes, req.instrumentId), req,
                              old(repository.nextId))
      ensures repository.rows == Placed(old(repository.rows), answer)
      ensures repository.nextId == old(repository.nextId) + if answer.Created? then 1 else 0
    {
      var replayed := repository.ByIdempotencyKey(req.userId, req.key);
      if replayed.Some? {
        return Replayed(replayed.value);
      }
      if req.userId !in users {
        return UserNotFound;
      }
      var (close, refusal) := Tradable(req, QuoteOf(quotes, req.instrumentId));
      if close.None? {
        return refusal;
      }
      var limitPrice := req.price;
      var sizing := ResolveSize(req.size, req.amount, if limitPrice.Some? then limitPrice.value else close.value);
      if !sizing.Sized? {
        return BadSize;
      }
      var cash := AvailableCash(repository.rows, req.userId);
      var held := HeldShares(repository.rows, req.userId, req.instrumentId);
      var decision := Decide(req.side, req.otype, limitPrice, close.value, cash, held, sizing.size);
      var created := repository.Insert(Row(0, req.userId, req.instrumentId, req.side, sizing.size, decision.price,
                                           req.otype, decision.status, Some(req.key)));
      answer := if created.Some? then Created(created.value) else DuplicateKey;
    }

    /** A cancel takes no lock: the condition is in the UPDATE, the status only explains a miss. */
    method CancelOrder(id: int) returns (answer: CancelAnswer)
      modifies repository`rows
      ensures (answer, repository.rows) == Placement.Cancel(old(repository.rows), id)
    {
      var cancelled := repository.CancelRow(id);
      if cancelled.Some? {
        return CancelOk(cancelled.value);
      }
      var status := repository.StatusOf(id);
      answer := if status.None? then OrderNotFound else Conflict(status.value);
    }
  }
}
