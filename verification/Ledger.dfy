/** The orders table and the folds the database views compute over it. No balance is
    stored anywhere: cash and positions are sums over the FILLED rows. */
module Ledger {
  import opened Options
  import opened OrderRules
  import opened SeqSum

  /** An idempotency key is opaque text. */
  type Key = string

  datatype Row = Row(id: int, userId: int, instrumentId: int, side: Side, size: int, price: int,
                     otype: OrderType, status: Status, key: Option<Key>)

  /** What one row does to its user's cash; a side that is not recognised does nothing. */
  function CashDelta(row: Row): int {
    if !row.status.Filled? then 0 else
    match row.side
    case CashIn => row.size * row.price
    case Sell => row.size * row.price
    case CashOut => -row.size * row.price
    case Buy => -row.size * row.price
    case UnknownSide => 0
  }

  function ShareDelta(row: Row): int {
    if !row.status.Filled? then 0
    else if row.side.Buy? then row.size
    else if row.side.Sell? then -row.size
    else 0
  }

  /** A fill pays, or is paid, its price for each share that changes hands; nothing else moves either. */
  lemma TradeDelta(row: Row)
    requires row.side.Buy? || row.side.Sell?
    ensures !row.status.Filled? ==> CashDelta(row) == 0 && ShareDelta(row) == 0
    ensures row.status.Filled? ==> CashDelta(row) + row.price * ShareDelta(row) == 0
    ensures row.status.Filled? ==> ShareDelta(row) == if row.side.Buy? then row.size else -row.size
  {
  }

  /** A transfer moves its worth in or out, and no shares; a side that is not recognised moves nothing. */
  lemma TransferDelta(row: Row)
    requires row.status.Filled? && !row.side.Buy? && !row.side.Sell?
    ensures ShareDelta(row) == 0
    ensures row.side.CashIn? ==> CashDelta(row) == row.size * row.price
    ensures row.side.CashOut? ==> CashDelta(row) == -(row.size * row.price)
    ensures row.side.UnknownSide? ==> CashDelta(row) == 0
  {
  }

  function CashOf(user: int): Row -> int {
    (row: Row) => if row.userId == user then CashDelta(row) else 0
  }

  function SharesOf(user: int, instrument: int): Row -> int {
    (row: Row) => if row.userId == user && row.instrumentId == instrument then ShareDelta(row) else 0
  }

  function CashFold(rows: seq<Row>, user: int): int { Sum(rows, CashOf(user)) }

  function SharesFold(rows: seq<Row>, user: int, instrument: int): int {
    Sum(rows, SharesOf(user, instrument))
  }

  /** View cash_balances: one row for each user with a FILLED order. */
  function CashBalances(rows: seq<Row>): map<int, int> {
    map row | row in rows && row.status.Filled? :: row.userId := CashFold(rows, row.userId)
  }

  /** View holdings: one row for each traded position whose net is not zero. */
  function Holdings(rows: seq<Row>): map<(int, int), int> {
    map row | row in rows && row.status.Filled? && (row.side.Buy? || row.side.Sell?)
              && SharesFold(rows, row.userId, row.instrumentId) != 0
      :: (row.userId, row.instrumentId) := SharesFold(rows, row.userId, row.instrumentId)
  }

  /** The missing row is the zero. */
  function AvailableCash(rows: seq<Row>, user: int): int {
    var balances := CashBalances(rows);
    if user in balances then balances[user] else 0
  }

  function HeldShares(rows: seq<Row>, user: int, instrument: int): int {
    var held := Holdings(rows);
    if (user, instrument) in held then held[(user, instrument)] else 0
  }

  /** Reading a view with the missing row as zero is reading the fold. */
  lemma ViewsAreFolds(rows: seq<Row>, user: int, instrument: int)
    ensures AvailableCash(rows, user) == CashFold(rows, user)
    ensures HeldShares(rows, user, instrument) == SharesFold(rows, user, instrument)
  {
    if user !in CashBalances(rows) {
      forall i | 0 <= i < |rows| ensures CashOf(user)(rows[i]) == 0 {
        assert rows[i] in rows;
      }
      SumZero(rows, CashOf(user));
    }
    if (user, instrument) !in Holdings(rows) && SharesFold(rows, user, instrument) != 0 {
      forall i | 0 <= i < |rows| ensures SharesOf(user, instrument)(rows[i]) == 0 {
        assert rows[i] in rows;
      }
      SumZero(rows, SharesOf(user, instrument));
    }
  }

  /** The row stored under a user's key, if any. */
  function ByKey(rows: seq<Row>, user: int, key: Key): (r: Option<Row>)
    ensures r.Some? ==> r.value in rows && r.value.userId == user && r.value.key == Some(key)
    ensures r.None? ==> forall row :: row in rows && row.userId == user ==> row.key != Some(key)
  {
    if rows == [] then None
    else
      var last := rows[|rows| - 1];
      if last.userId == user && last.key == Some(key) then Some(last)
      else ByKey(rows[..|rows| - 1], user, key)
  }

  /** Position of the row with this id, if any. */
  function FindId(rows: seq<Row>, id: int): (r: Option<nat>)
    ensures r.Some? ==> r.value < |rows| && rows[r.value].id == id
    ensures r.None? ==> forall row :: row in rows ==> row.id != id
  {
    if rows == [] then None
    else if rows[|rows| - 1].id == id then Some(|rows| - 1)
    else FindId(rows[..|rows| - 1], id)
  }

  /** The only change a committed row can undergo. */
  predicate SameOrMoved(before: Row, after: Row) {
    after == before || (before.status == New && after == before.(status := Cancelled))
  }

  predicate KeysUnique(rows: seq<Row>) {
    forall i, j :: 0 <= i < j < |rows| && rows[i].key.Some? && rows[i].userId == rows[j].userId
      ==> rows[i].key != rows[j].key
  }

  predicate IdsUnique(rows: seq<Row>) {
    forall i, j :: 0 <= i < j < |rows| ==> rows[i].id != rows[j].id
  }

  /** A user's rows, in table order, carry increasing ids. */
  predicate UserIdsIncrease(rows: seq<Row>) {
    forall i, j :: 0 <= i < j < |rows| && rows[i].userId == rows[j].userId ==> rows[i].id < rows[j].id
  }
}
