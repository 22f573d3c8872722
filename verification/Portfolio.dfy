/** A user's portfolio: the cash fold and every listed position at its latest close, both out
    of one snapshot. Fills happen at the close positions are valued at, so no placement and no
    cancel changes what a user is worth. */
module Portfolio {
  import opened Options
  import opened OrderRules
  import opened SeqSum
  import opened Ledger
  import opened Placement
  import opened Protocol
  import opened ProtocolInvariant
  import opened Serializability

  /** The instruments in ticker order; each row of the orders table refers to one of them. */
  type Catalog = seq<int>

  datatype Position = Position(instrumentId: int, quantity: int, marketValue: int)

  datatype Portfolio = Portfolio(totalValue: int, availableCash: int, positions: seq<Position>)

  function CloseOf(quotes: map<int, Quote>, instrument: int): int {
    match QuoteOf(quotes, instrument)
    case NoInstrument => 0
    case Quote(_, close) => if close.Some? then close.value else 0
  }

  /** Currency is the cash line, never a position. */
  predicate Listed(quotes: map<int, Quote>, instrument: int) {
    var quote := QuoteOf(quotes, instrument);
    quote.Quote? && !quote.moneda
  }

  /** The holdings view joined to the catalogue, in its order. */
  function Positions(rows: seq<Row>, quotes: map<int, Quote>, catalog: Catalog, user: int): seq<Position> {
    if catalog == [] then []
    else
      var rest, i := Positions(rows, quotes, catalog[..|catalog| - 1], user), catalog[|catalog| - 1];
      if (user, i) in Holdings(rows) && Listed(quotes, i)
      then rest + [Position(i, Holdings(rows)[(user, i)], Holdings(rows)[(user, i)] * CloseOf(quotes, i))]
      else rest
  }

  function ForUser(rows: seq<Row>, quotes: map<int, Quote>, catalog: Catalog, user: int): Portfolio {
    var cash, positions := AvailableCash(rows, user), Positions(rows, quotes, catalog, user);
    Portfolio(cash + Sum(positions, (p: Position) => p.marketValue), cash, positions)
  }

  /** What one instrument adds to the total, whether or not its position is listed. */
  function Worth(rows: seq<Row>, quotes: map<int, Quote>, user: int): int -> int {
    (i: int) => if Listed(quotes, i) then SharesFold(rows, user, i) * CloseOf(quotes, i) else 0
  }

  predicate Distinct(catalog: Catalog) {
    forall i, j :: 0 <= i < j < |catalog| ==> catalog[i] != catalog[j]
  }

  /** The total is the cash fold plus the fold of every listed position: a position whose net is
      zero has vanished from the view and is worth nothing. */
  lemma {:induction false} TotalIsFolds(rows: seq<Row>, quotes: map<int, Quote>, catalog: Catalog, user: int)
    ensures Sum(Positions(rows, quotes, catalog, user), (p: Position) => p.marketValue)
         == Sum(catalog, Worth(rows, quotes, user))
    ensures ForUser(rows, quotes, catalog, user).totalValue
         == CashFold(rows, user) + Sum(catalog, Worth(rows, quotes, user))
  {
    ViewsAreFolds(rows, user, 0);
    if catalog != [] {
      var n := |catalog| - 1;
      TotalIsFolds(rows, quotes, catalog[..n], user);
      ViewsAreFolds(rows, user, catalog[n]);
      var rest := Positions(rows, quotes, catalog[..n], user);
      var f := (p: Position) => p.marketValue;
      if (user, catalog[n]) in Holdings(rows) && Listed(quotes, catalog[n]) {
        SumAppend(rest, Position(catalog[n], Holdings(rows)[(user, catalog[n])],
                                 Holdings(rows)[(user, catalog[n])] * CloseOf(quotes, catalog[n])), f);
      }
    }
  }

  /** What a portfolio lists: each instrument of the catalogue that is not currency and of which the user's
      shares are not zero, once, with those shares, at its close if it has one. */
  lemma {:induction false} PositionIsExact(rows: seq<Row>, quotes: map<int, Quote>, catalog: Catalog, user: int,
                                           p: Position)
    ensures ForUser(rows, quotes, catalog, user).availableCash == CashFold(rows, user)
    ensures p in ForUser(rows, quotes, catalog, user).positions <==>
            && p.instrumentId in catalog && p.quantity == SharesFold(rows, user, p.instrumentId) != 0
            && p.instrumentId in quotes
            && quotes[p.instrumentId].Quote? && !quotes[p.instrumentId].moneda
            && p.marketValue == if quotes[p.instrumentId].close.None? then 0
                                else p.quantity * quotes[p.instrumentId].close.value
  {
    ViewsAreFolds(rows, user, 0);
    if catalog != [] {
      var n := |catalog| - 1;
      PositionIsExact(rows, quotes, catalog[..n], user, p);
      ViewsAreFolds(rows, user, catalog[n]);
      assert catalog == catalog[..n] + [catalog[n]];
    }
  }

  lemma FillMovesWorthOf(rows: seq<Row>, row: Row, quotes: map<int, Quote>, user: int, i: int)
    ensures Worth(rows + [row], quotes, user)(i) == Worth(rows, quotes, user)(i)
            + if row.userId == user && row.instrumentId == i && Listed(quotes, i)
              then ShareDelta(row) * CloseOf(quotes, i) else 0
  {
    SumAppend(rows, row, SharesOf(user, i));
  }

  /** A fill moves cash and one position by amounts that cancel at the close. */
  lemma {:induction false} FillMovesOneWorth(rows: seq<Row>, row: Row, quotes: map<int, Quote>, catalog: Catalog,
                                             user: int)
    requires Distinct(catalog)
    ensures Sum(catalog, Worth(rows + [row], quotes, user)) == Sum(catalog, Worth(rows, quotes, user))
            + if row.userId == user && row.instrumentId in catalog && Listed(quotes, row.instrumentId)
              then ShareDelta(row) * CloseOf(quotes, row.instrumentId) else 0
  {
    if catalog != [] {
      var n := |catalog| - 1;
      FillMovesOneWorth(rows, row, quotes, catalog[..n], user);
      FillMovesWorthOf(rows, row, quotes, user, catalog[n]);
      assert catalog == catalog[..n] + [catalog[n]];
    }
  }

  lemma {:induction false} CancelMovesNoWorth(rows: seq<Row>, at: nat, quotes: map<int, Quote>, catalog: Catalog,
                                              user: int)
    requires at < |rows| && rows[at].status == New
    ensures var rows' := rows[at := rows[at].(status := Cancelled)];
            && CashFold(rows', user) == CashFold(rows, user)
            && Sum(catalog, Worth(rows', quotes, user)) == Sum(catalog, Worth(rows, quotes, user))
  {
    var row := rows[at].(status := Cancelled);
    SumUpdate(rows, at, row, CashOf(user));
    forall i ensures SharesFold(rows[at := row], user, i) == SharesFold(rows, user, i) {
      SumUpdate(rows, at, row, SharesOf(user, i));
    }
    SumPointwise(catalog, catalog, Worth(rows[at := row], quotes, user), Worth(rows, quotes, user));
  }

  /** Every accepted order of the history was quoted what the portfolio values at. */
  predicate QuotedAt(log: seq<Event>, quotes: map<int, Quote>) {
    forall k :: 0 <= k < |log| && log[k].PlaceEvent? && log[k].answer.Created? ==>
      log[k].quote == QuoteOf(quotes, log[k].req.instrumentId)
  }

  lemma CallKeepsValue(rows: seq<Row>, e: Event, quotes: map<int, Quote>, catalog: Catalog, user: int)
    requires StaleConflict(e) || Faithful(rows, e)
    requires QuotedAt([e], quotes) && Distinct(catalog) && (forall i :: i in quotes ==> i in catalog)
    ensures ForUser(Effect(rows, e), quotes, catalog, user).totalValue
            == ForUser(rows, quotes, catalog, user).totalValue
  {
    TotalIsFolds(rows, quotes, catalog, user);
    TotalIsFolds(Effect(rows, e), quotes, catalog, user);
    if e.PlaceEvent? && e.answer.Created? {
      assert [e][0] == e;
      CreatedKeepsValue(rows, e, quotes, catalog, user);
    } else if e.CancelEvent? && !StaleConflict(e) && Cancel(rows, e.id).0.CancelOk? {
      CancelMovesNoWorth(rows, FindId(rows, e.id).value, quotes, catalog, user);
    }
  }

  lemma CashAgainstShares(row: Row, close: int)
    requires row.side.Buy? || row.side.Sell?
    requires row.status.Filled? ==> row.price == close
    ensures CashDelta(row) + ShareDelta(row) * close == 0
  {
  }

  /** What a fill takes in cash it gives back at the close, to the centavo. */
  lemma FillCancelsOut(rows: seq<Row>, e: Event, quotes: map<int, Quote>)
    requires e.PlaceEvent? && e.answer.Created? && Faithful(rows, e)
    requires e.quote == QuoteOf(quotes, e.req.instrumentId)
    ensures var row := e.answer.row; CashDelta(row) + ShareDelta(row) * CloseOf(quotes, row.instrumentId) == 0
    ensures e.answer.row.status.Filled? ==>
              Listed(quotes, e.answer.row.instrumentId) && e.answer.row.instrumentId in quotes
  {
    AcceptedIsCovered(rows, e.known, e.quote, e.req, e.id);
    CashAgainstShares(e.answer.row, CloseOf(quotes, e.answer.row.instrumentId));
  }

  lemma CreatedKeepsValue(rows: seq<Row>, e: Event, quotes: map<int, Quote>, catalog: Catalog, user: int)
    requires e.PlaceEvent? && e.answer.Created? && Faithful(rows, e)
    requires e.quote == QuoteOf(quotes, e.req.instrumentId)
    requires Distinct(catalog) && (forall i :: i in quotes ==> i in catalog)
    ensures CashFold(rows + [e.answer.row], user) + Sum(catalog, Worth(rows + [e.answer.row], quotes, user))
         == CashFold(rows, user) + Sum(catalog, Worth(rows, quotes, user))
  {
    FillCancelsOut(rows, e, quotes);
    SumAppend(rows, e.answer.row, CashOf(user));
    FillMovesOneWorth(rows, e.answer.row, quotes, catalog, user);
  }

  lemma {:induction false} SerialKeepsValue(seed: seq<Row>, log: seq<Event>, quotes: map<int, Quote>,
                                            catalog: Catalog, user: int)
    requires Serial(seed, log) && QuotedAt(log, quotes)
    requires Distinct(catalog) && (forall i :: i in quotes ==> i in catalog)
    ensures ForUser(Replay(seed, log), quotes, catalog, user).totalValue
            == ForUser(seed, quotes, catalog, user).totalValue
  {
    if log != [] {
      var n := |log| - 1;
      SerialPrefix(seed, log, n);
      assert forall k :: 0 <= k < n ==> log[..n][k] == log[k];
      SerialKeepsValue(seed, log[..n], quotes, catalog, user);
      CallKeepsValue(Replay(seed, log[..n]), log[n], quotes, catalog, user);
    }
  }

  /** Cash read before a fill and positions read after it miss the total by the whole order:
      the reason both halves come out of one snapshot. */
  lemma TornReadMissesTheOrder(rows: seq<Row>, row: Row, quotes: map<int, Quote>, catalog: Catalog)
    requires Distinct(catalog) && row.instrumentId in catalog && Listed(quotes, row.instrumentId)
    ensures CashFold(rows, row.userId)
            + Sum(Positions(rows + [row], quotes, catalog, row.userId), (p: Position) => p.marketValue)
         == ForUser(rows, quotes, catalog, row.userId).totalValue + ShareDelta(row) * CloseOf(quotes, row.instrumentId)
  {
    TotalIsFolds(rows, quotes, catalog, row.userId);
    TotalIsFolds(rows + [row], quotes, catalog, row.userId);
    FillMovesOneWorth(rows, row, quotes, catalog, row.userId);
  }

  /* ---- Over the protocol ---- */

  predicate QuotedNow(tx: Tx, quotes: map<int, Quote>) {
    var quote := QuoteOf(quotes, tx.req.instrumentId);
    match tx.phase
    case Sizing(close, _) => quote == Quote(false, Some(close))
    case CashRead(close, _, _) => quote == Quote(false, Some(close))
    case Ready(close, _, _, _) => quote == Quote(false, Some(close))
    case Inserted(q, _) => quote == q
    case Refused(_, _, answer) => !answer.Created?
    case _ => true
  }

  predicate QuotesStill(s: State) {
    && (forall t :: 0 <= t < |s.txs| ==> QuotedNow(s.txs[t], s.quotes))
    && QuotedAt(s.log, s.quotes)
  }

  lemma NextKeepsQuotesStill(s: State, step: Step)
    requires QuotesStill(s) && !step.MarketMove?
    ensures QuotesStill(Next(s, step)) && Next(s, step).quotes == s.quotes
  {
  }

  lemma {:induction false} RunKeepsQuotesStill(s: State, steps: seq<Step>)
    requires QuotesStill(s) && forall k :: 0 <= k < |steps| ==> !steps[k].MarketMove?
    ensures QuotesStill(Run(s, steps)) && Run(s, steps).quotes == s.quotes
  {
    if steps != [] {
      RunKeepsQuotesStill(s, steps[..|steps| - 1]);
      NextKeepsQuotesStill(Run(s, steps[..|steps| - 1]), steps[|steps| - 1]);
    }
  }

  /** While the closes stand, every portfolio read taken anywhere in any run shows the user the
      same total: short positions, positions that cross zero and uncommitted orders included. */
  lemma ValueIsConserved(s: State, steps: seq<Step>, catalog: Catalog, user: int)
    requires Seed(s) && forall k :: 0 <= k < |steps| ==> !steps[k].MarketMove?
    requires Distinct(catalog) && (forall i :: i in s.quotes ==> i in catalog)
    ensures ForUser(Run(s, steps).rows, s.quotes, catalog, user).totalValue
         == ForUser(s.rows, s.quotes, catalog, user).totalValue
  {
    Reachable(s, steps);
    RunKeepsQuotesStill(s, steps);
    SerialKeepsValue(s.rows, Run(s, steps).log, s.quotes, catalog, user);
  }
}
