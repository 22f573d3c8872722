/** One placement and one cancel, each as a single atomic act on the orders table. This is
    the serial meaning that the interleaved protocol and the service's code are held to. */
module Placement {
  import opened Options
  import opened OrderRules
  import opened SeqSum
  import opened Ledger

  datatype Request = Request(userId: int, instrumentId: int, side: TradeSide, otype: OrderType,
                             size: Option<int>, amount: Option<int>, price: Option<int>, key: Key)

  const MAX_MONEY: int := 9_999_999_999

  predicate IsMoney(value: Option<int>) { value.Some? ==> 1 <= value.value <= MAX_MONEY }

  /** What the request's validation guarantees before a transaction opens. */
  predicate WellFormed(req: Request) {
    && (req.otype.Limit? <==> req.price.Some?)
    && (req.size.Some? <==> req.amount.None?)
    && (req.size.Some? ==> 1 <= req.size.value <= MAX_INT4)
    && IsMoney(req.price) && IsMoney(req.amount)
  }

  /** What the instrument lookup finds: its type and its latest close, if it has any. */
  datatype Quote = NoInstrument | Quote(moneda: bool, close: Option<nat>)

  datatype Answer =
    | Created(row: Row)            // 201
    | Replayed(row: Row)           // 200
    | UserNotFound                 // 404
    | InstrumentNotFound           // 404
    | NotTradable                  // 400
    | NoMarketData                 // 400
    | BadSize                      // 400
    | DuplicateKey                 // 500, the unique index firing
    | Shed                         // 503, or no answer: rolled back

  predicate Answered(a: Answer) { a.Created? || a.Replayed? }

  function PriceOf(req: Request, close: int): int {
    if req.price.Some? then req.price.value else close
  }

  function SizeOf(req: Request, close: int): Sizing {
    ResolveSize(req.size, req.amount, PriceOf(req, close))
  }

  /** The refusal a quote earns, or the close to trade at. */
  function Tradable(req: Request, quote: Quote): (r: (Option<nat>, Answer))
    ensures r.0.Some? ==> quote == Quote(false, r.0)
    ensures r.0.None? ==> r.1 in {InstrumentNotFound, NotTradable, NoMarketData}
  {
    match quote
    case NoInstrument => (None, InstrumentNotFound)
    case Quote(moneda, close) =>
      if moneda then (None, NotTradable)
      else if close.None? then (None, NoMarketData)
      else (close, Shed)
  }

  function NewRow(req: Request, close: int, size: int, cash: int, held: int, id: int): Row {
    var decision := Decide(req.side, req.otype, req.price, close, cash, held, size);
    Row(id, req.userId, req.instrumentId, req.side, size, decision.price, req.otype, decision.status, Some(req.key))
  }

  /** The answer a placement gets when it runs alone against `rows`. */
  function Place(rows: seq<Row>, known: bool, quote: Quote, req: Request, id: int): Answer {
    match ByKey(rows, req.userId, req.key)
    case Some(row) => Replayed(row)
    case None =>
      if !known then UserNotFound else
      var (close, refusal) := Tradable(req, quote);
      if close.None? then refusal else
      var sizing := SizeOf(req, close.value);
      if !sizing.Sized? then BadSize else
      Created(NewRow(req, close.value, sizing.size,
                     AvailableCash(rows, req.userId), HeldShares(rows, req.userId, req.instrumentId), id))
  }

  function Placed(rows: seq<Row>, answer: Answer): seq<Row> {
    if answer.Created? then rows + [answer.row] else rows
  }

  datatype CancelAnswer = CancelOk(row: Row) | OrderNotFound | Conflict(status: Status)

  /** A cancel running alone: the conditional UPDATE, then the status that refused it. */
  function Cancel(rows: seq<Row>, id: int): (CancelAnswer, seq<Row>) {
    match FindId(rows, id)
    case None => (OrderNotFound, rows)
    case Some(i) =>
      if Cancellable(rows[i].status) then
        var row := rows[i].(status := Cancelled);
        (CancelOk(row), rows[i := row])
      else (Conflict(rows[i].status), rows)
  }

  /** Every answer a cancel can get: an order is cancelled exactly while it is NEW, and a refusal names
      the status that stands in the way. */
  lemma CancelIsExact(rows: seq<Row>, id: int)
    requires IdsUnique(rows)
    ensures var (answer, rows') := Cancel(rows, id);
            && (answer == OrderNotFound <==> forall i :: 0 <= i < |rows| ==> rows[i].id != id)
            && (forall i :: 0 <= i < |rows| && rows[i].id == id ==>
                  if rows[i].status == New
                  then answer == CancelOk(rows[i].(status := Cancelled)) && rows' == rows[i := answer.row]
                  else answer == Conflict(rows[i].status))
            && (!answer.CancelOk? ==> rows' == rows)
  {
  }

  lemma AmountCovers(cash: int, amount: int, price: int, size: int)
    requires size * price <= amount <= cash
    ensures cash >= price * size == size * price
  {
  }

  /** Sizing and deciding use the same price, so a BUY by an amount the user has in cash is
      never refused; and every accepted order is one the balance read covers. */
  lemma BuyByAmountIsCovered(rows: seq<Row>, quote: Quote, req: Request, id: int)
    requires WellFormed(req) && req.side.Buy? && req.amount.Some?
    requires AvailableCash(rows, req.userId) >= req.amount.value
    ensures var a := Place(rows, true, quote, req, id);
            a.Created? ==> a.row.status != Rejected && a.row.size * a.row.price <= req.amount.value
  {
    var (close, _) := Tradable(req, quote);
    if close.Some? {
      var sizing := SizeOf(req, close.value);
      if sizing.Sized? {
        AmountCovers(AvailableCash(rows, req.userId), req.amount.value, PriceOf(req, close.value), sizing.size);
      }
    }
  }

  /** An order the target accepts costs no more than the folds it was decided on. */
  lemma AcceptedIsCovered(rows: seq<Row>, known: bool, quote: Quote, req: Request, id: int)
    requires WellFormed(req)
    ensures var a := Place(rows, known, quote, req, id);
            a.Created? ==>
              && a.row.id == id && a.row.userId == req.userId && a.row.instrumentId == req.instrumentId
              && a.row.side == req.side && a.row.key == Some(req.key)
              && a.row.price >= 0 && 1 <= a.row.size <= MAX_INT4
              && a.row.otype == req.otype
              && (req.otype.Limit? ==> Some(a.row.price) == req.price)
              && (req.otype.Market? ==> quote == Quote(false, Some(a.row.price)))
              && (a.row.status.Filled? ==> a.row.otype.Market?) && (a.row.status == New ==> a.row.otype.Limit?)
              && (a.row.status.Rejected? <==>
                    if req.side.Buy? then CashFold(rows, req.userId) < a.row.price * a.row.size
                    else SharesFold(rows, req.userId, req.instrumentId) < a.row.size)
  {
    ViewsAreFolds(rows, req.userId, req.instrumentId);
  }

  /** Some count of shares a column can hold is the floor of the amount at this price. */
  predicate SomeCountFits(amount: int, price: int) {
    exists n :: 1 <= n <= 2_147_483_647 && n * price <= amount < (n + 1) * price
  }

  /** An order for an amount, bought or sold, is stored for as many shares as the amount pays for at its own
      price, the LIMIT or the close; it is a bad size exactly when no column-sized count is that many. */
  lemma AmountIsFloored(rows: seq<Row>, close: nat, req: Request, id: int)
    requires WellFormed(req) && req.amount.Some? && ByKey(rows, req.userId, req.key).None?
    ensures var (a, amount) := (Place(rows, true, Quote(false, Some(close)), req, id), req.amount.value);
            var price := if req.otype.Limit? then req.price.value else close;
            && (a.Created? ==> a.row.price == price && a.row.size * price <= amount < (a.row.size + 1) * price)
            && (a.Created? <==> SomeCountFits(amount, price)) && (a.BadSize? <==> !SomeCountFits(amount, price))
  {
    SizedIffSomeCountFits(req.amount.value, if req.otype.Limit? then req.price.value else close);
  }

  /** Every answer a placement can get when it runs alone, and the one reason for each. */
  lemma AnswerIsExact(rows: seq<Row>, known: bool, quote: Quote, req: Request, id: int)
    requires WellFormed(req)
    ensures var a := Place(rows, known, quote, req, id);
            var taken := exists row :: row in rows && row.userId == req.userId && row.key == Some(req.key);
            && (a.Replayed? <==> taken)
            && (a == UserNotFound <==> !taken && !known)
            && (a == InstrumentNotFound <==> !taken && known && quote == NoInstrument)
            && (a == NotTradable <==> !taken && known && quote.Quote? && quote.moneda)
            && (a == NoMarketData <==> !taken && known && quote == Quote(false, None))
            && (a == BadSize || a.Created? <==> !taken && known && quote.Quote? && !quote.moneda && quote.close.Some?)
            && (req.size.Some? ==> a != BadSize)
            && (a.Replayed? ==> a.row in rows && a.row.userId == req.userId && a.row.key == Some(req.key))
  {
  }

  /** An order sized in shares under a free key is stored as it was asked for. */
  lemma StoredAsAsked(rows: seq<Row>, known: bool, quote: Quote, req: Request, id: int)
    requires req.size.Some? && req.amount.None? && ByKey(rows, req.userId, req.key).None?
    ensures var a := Place(rows, known, quote, req, id);
            && !a.Replayed?
            && (a.Created? ==> a.row.userId == req.userId && a.row.instrumentId == req.instrumentId
                               && a.row.side == req.side && a.row.size == req.size.value && a.row.otype == req.otype)
  {
  }

  /** Two tables a user's placement cannot tell apart. */
  ghost predicate SameView(rows: seq<Row>, rows': seq<Row>, user: int) {
    && (forall key :: ByKey(rows, user, key).None? <==> ByKey(rows', user, key).None?)
    && AvailableCash(rows, user) == AvailableCash(rows', user)
    && (forall i :: HeldShares(rows, user, i) == HeldShares(rows', user, i))
  }

  /** Another user's commit changes nothing a placement of `user` reads. */
  lemma OtherCommitKeepsView(rows: seq<Row>, row: Row, user: int)
    requires row.userId != user
    ensures SameView(rows, rows + [row], user)
  {
    assert (rows + [row])[..|rows|] == rows;
    SumAppend(rows, row, CashOf(user));
    forall i ensures HeldShares(rows, user, i) == HeldShares(rows + [row], user, i) {
      SumAppend(rows, row, SharesOf(user, i));
      ViewsAreFolds(rows, user, i);
      ViewsAreFolds(rows + [row], user, i);
    }
    ViewsAreFolds(rows, user, 0);
    ViewsAreFolds(rows + [row], user, 0);
  }

  /** Neither does a cancel, whoever's order it takes: a NEW order moved no money. */
  lemma CancelKeepsView(rows: seq<Row>, at: nat, user: int)
    requires at < |rows| && rows[at].status == New
    ensures SameView(rows, rows[at := rows[at].(status := Cancelled)], user)
  {
    var row := rows[at].(status := Cancelled);
    var rows' := rows[at := row];
    SumUpdate(rows, at, row, CashOf(user));
    forall i ensures HeldShares(rows, user, i) == HeldShares(rows', user, i) {
      SumUpdate(rows, at, row, SharesOf(user, i));
      ViewsAreFolds(rows, user, i);
      ViewsAreFolds(rows', user, i);
    }
    ViewsAreFolds(rows, user, 0);
    ViewsAreFolds(rows', user, 0);
    forall key ensures ByKey(rows, user, key).None? <==> ByKey(rows', user, key).None? {
      CancelKeepsKey(rows, at, user, key);
    }
  }

  /** A key keeps naming the order it named, through any cancel. */
  lemma {:induction false} CancelKeepsKey(rows: seq<Row>, at: nat, user: int, key: Key)
    requires at < |rows| && rows[at].status == New
    ensures var before := ByKey(rows, user, key);
            var after := ByKey(rows[at := rows[at].(status := Cancelled)], user, key);
            before.Some? == after.Some? && (before.Some? ==> SameOrMoved(before.value, after.value))
  {
    var n := |rows| - 1;
    var rows' := rows[at := rows[at].(status := Cancelled)];
    if at == n {
      assert rows'[..n] == rows[..n];
    } else {
      assert rows'[..n] == rows[..n][at := rows[at].(status := Cancelled)];
      CancelKeepsKey(rows[..n], at, user, key);
    }
  }
}
