/** Where the shadow's word runs out: each lemma takes any world that meets its conditions to one
    where an unqualified claim about the shadow is false. */
module ShadowLimits {
  import opened Options
  import opened OrderRules
  import opened SeqSum
  import opened Ledger
  import opened Placement
  import opened Protocol
  import opened Portfolio
  import opened ShadowLedger
  import opened ShadowWorld
  import opened ShadowSoundness
  import opened ShadowRefusals
  import opened Drift
  import opened Money

  /** A user at rest whose shadow is the database and whose prices are the closes. */
  ghost predicate AtRest(w: World, user: int) {
    WorldInv(w) && PricesCurrent(w) && user in w.clean && user in w.users && Grounded(w, user)
  }

  predicate MarketOrder(w: World, order: SimOrder, key: Key) {
    order.otype.Market? && WellFormed(ToRequest(order, key)) && ByKey(w.rows, order.userId, key).None?
  }

  lemma RestingBooks(w: World, user: int)
    requires AtRest(w, user)
    ensures user in w.shadow.users && w.shadow.users[user].seeded && !w.shadow.users[user].uncertain
    ensures w.shadow.users[user].outstanding == 0 && w.shadow.users[user].heldCash == 0
    ensures forall i :: Get(w.shadow.users[user].heldShares, i) == 0
    ensures w.shadow.users[user].cash == CashFold(w.rows, user)
    ensures forall i :: Listed(w.quotes, i) ==> Get(w.shadow.users[user].shares, i) == SharesFold(w.rows, user, i)
  {
    assert Agrees(w, user);
    NoneLiveIffNoneOutstanding(w.flights, user, w.shadow.current);
    NothingHeld(w, user);
    QuietAgrees(w, user);
    ViewsAreFolds(w.rows, user, 0);
    forall i | Listed(w.quotes, i) ensures Get(w.shadow.users[user].shares, i) == SharesFold(w.rows, user, i) {
      ViewsAreFolds(w.rows, user, i);
    }
  }

  lemma ActsPush(w: World, acts: seq<Act>, act: Act)
    ensures Acts(w, acts + [act]) == After(Acts(w, acts), act)
  {
    assert (acts + [act])[..|acts|] == acts;
  }

  /** An order sent, processed and settled while nothing else happens. */
  function Trip(n: nat, order: SimOrder, id: int, key: Key): seq<Act> {
    [Send(order)] + [Process(n, id, key)] + [Deliver(n)]
  }

  function RoundTrip(w: World, order: SimOrder, id: int, key: Key): World {
    Acts(w, Trip(|w.flights|, order, id, key))
  }

  lemma RoundTripUnfolds(w: World, order: SimOrder, id: int, key: Key)
    ensures var n := |w.flights|;
            RoundTrip(w, order, id, key) == After(After(After(w, Send(order)), Process(n, id, key)), Deliver(n))
  {
    var n := |w.flights|;
    ActsPush(w, [], Send(order));
    ActsPush(w, [Send(order)], Process(n, id, key));
    ActsPush(w, [Send(order)] + [Process(n, id, key)], Deliver(n));
  }

  lemma RoundTripShape(w: World, order: SimOrder, id: int, key: Key)
    requires MarketOrder(w, order, key)
    ensures var w' := RoundTrip(w, order, id, key);
            && w'.rows == Placed(w.rows, TargetAnswer(w, order, id, key))
            && w'.flights == w.flights + [Flight(ReservationFor(w.shadow, order), Closed)]
            && w'.quotes == w.quotes && w'.users == w.users && w'.clean == w.clean
            && w'.shadow == Settle(Reserve(w.shadow, order), ReservationFor(w.shadow, order),
                                   ExecutionOf(TargetAnswer(w, order, id, key)))
  {
    RoundTripUnfolds(w, order, id, key);
    var n := |w.flights|;
    var w1 := After(w, Send(order));
    assert w1.flights == w.flights + [Flight(ReservationFor(w.shadow, order), Sent)];
    var w2 := After(w1, Process(n, id, key));
    assert w2.flights == w.flights
           + [Flight(ReservationFor(w.shadow, order), Heard(ExecutionOf(TargetAnswer(w, order, id, key))))];
  }

  lemma RoundTripKeeps(w: World, order: SimOrder, id: int, key: Key)
    requires WorldInv(w) && PricesCurrent(w)
    ensures WorldInv(RoundTrip(w, order, id, key)) && PricesCurrent(RoundTrip(w, order, id, key))
  {
    RunStaysCurrent(w, Trip(|w.flights|, order, id, key));
  }

  lemma {:induction false} RunStaysCurrent(w: World, acts: seq<Act>)
    requires WorldInv(w) && PricesCurrent(w) && forall n :: 0 <= n < |acts| ==>
             !acts[n].MoveClose? && !acts[n].ProcessAt?
    ensures WorldInv(Acts(w, acts)) && PricesCurrent(Acts(w, acts))
  {
    if acts != [] {
      var n := |acts| - 1;
      RunStaysCurrent(w, acts[..n]);
      AfterKeeps(Acts(w, acts[..n]), acts[n]);
      PricesStayCurrent(Acts(w, acts[..n]), acts[n]);
    }
  }

  /** Alone, a predicted fill is a fill at the learned price. */
  lemma PredictedFillMoves(w: World, order: SimOrder, id: int, key: Key)
    requires AtRest(w, order.userId) && MarketOrder(w, order, key) && Expect(w.shadow, order).ExpectFilled?
    ensures var a := TargetAnswer(w, order, id, key);
            && a.Created? && a.row.status == Filled && a.row.price == w.shadow.prices[order.instrumentId]
            && a.row.userId == order.userId && a.row.key == Some(key)
            && CashFold(w.rows + [a.row], order.userId)
                 == CashFold(w.rows, order.userId) + CashMove(order, w.shadow.prices[order.instrumentId])
            && SharesFold(w.rows + [a.row], order.userId, order.instrumentId)
                 == SharesFold(w.rows, order.userId, order.instrumentId) + ShareMove(order)
  {
    RestingBooks(w, order.userId);
    AloneTheShadowIsExact(w, order, id, key);
    var a := TargetAnswer(w, order, id, key);
    StoredAsAsked(w.rows, order.userId in w.users, QuoteOf(w.quotes, order.instrumentId), ToRequest(order, key), id);
    assert AtClose(w.quotes, order.instrumentId, w.shadow.prices[order.instrumentId]);
    DeltaIsTheMove(a.row, order);
    SumAppend(w.rows, a.row, CashOf(order.userId));
    SumAppend(w.rows, a.row, SharesOf(order.userId, order.instrumentId));
  }

  lemma RoundTripFills(w: World, order: SimOrder, id: int, key: Key)
    requires AtRest(w, order.userId) && MarketOrder(w, order, key) && Expect(w.shadow, order).ExpectFilled?
    ensures var w' := RoundTrip(w, order, id, key);
            && AtRest(w', order.userId) && w'.quotes == w.quotes && w'.shadow.prices == w.shadow.prices
            && w'.rows == w.rows + [TargetAnswer(w, order, id, key).row]
            && TargetAnswer(w, order, id, key).row.key == Some(key)
            && CashFold(w'.rows, order.userId)
                 == CashFold(w.rows, order.userId) + CashMove(order, w.shadow.prices[order.instrumentId])
            && SharesFold(w'.rows, order.userId, order.instrumentId)
                 == SharesFold(w.rows, order.userId, order.instrumentId) + ShareMove(order)
  {
    RoundTripShape(w, order, id, key);
    RoundTripKeeps(w, order, id, key);
    PredictedFillMoves(w, order, id, key);
    StillAtRest(w, RoundTrip(w, order, id, key), order);
    PriceStays(w.shadow, order, ExecutionOf(TargetAnswer(w, order, id, key)));
  }

  /** A price heard again is the price learned already. */
  lemma PriceStays(sh: Shadow, order: SimOrder, execution: Option<Execution>)
    requires order.instrumentId in sh.prices
    requires execution.Some? ==> execution.value.price == sh.prices[order.instrumentId]
    ensures Settle(Reserve(sh, order), ReservationFor(sh, order), execution).prices == sh.prices
  {
  }

  lemma StillAtRest(w: World, w': World, order: SimOrder)
    requires AtRest(w, order.userId) && WorldInv(w') && PricesCurrent(w')
    requires w'.flights == w.flights + [Flight(ReservationFor(w.shadow, order), Closed)]
    requires w'.users == w.users && w'.clean == w.clean
    ensures AtRest(w', order.userId)
  {
  }

  /* ---- Out and back between two snapshots ---- */

  /** A buy settled before the API's balance is read and a sale of the same shares settled after
      it leave the two snapshots alike and at rest, and the read between them different: the
      comparison goes ahead and reports a drift no arithmetic of the target's produced. */
  lemma OutAndBackDrifts(w: World, buy: SimOrder, id: int, key: Key, id': int, key': Key)
    requires AtRest(w, buy.userId) && MarketOrder(w, buy, key) && buy.side.Buy?
    requires Expect(w.shadow, buy).ExpectFilled? && w.shadow.prices[buy.instrumentId] > 0
    requires SharesFold(w.rows, buy.userId, buy.instrumentId) >= 0
    requires ByKey(w.rows, buy.userId, key').None? && key' != key
    ensures var sell := buy.(side := Sell);
            var middle := RoundTrip(w, buy, id, key);
            var end := RoundTrip(middle, sell, id', key');
            && AtRest(end, buy.userId) && buy.userId in w.shadow.users && buy.userId in end.shadow.users
            && var before, after := SnapshotOf(w, buy.userId), SnapshotOf(end, buy.userId);
               var api := ApiString(AvailableCash(middle.rows, buy.userId));
               Compared(before, [after], map[buy.userId := api]) && before.cash != api
  {
    var user, sell := buy.userId, buy.(side := Sell);
    var middle := RoundTrip(w, buy, id, key);
    RoundTripFills(w, buy, id, key);
    KeyStaysFree(w.rows, TargetAnswer(w, buy, id, key).row, user, key, key');
    SellIsPredicted(w, middle, buy);
    RoundTripFills(middle, sell, id', key');
    MovesCancel(buy, w.shadow.prices[buy.instrumentId]);
    SameEndsOtherMiddle(w, middle, RoundTrip(middle, sell, id', key'), user);
  }

  lemma MovesCancel(buy: SimOrder, price: int)
    requires buy.side.Buy? && buy.size >= 1 && price > 0
    ensures CashMove(buy, price) < 0
    ensures CashMove(buy, price) + CashMove(buy.(side := Sell), price) == 0
    ensures ShareMove(buy) == buy.size
  {
    assert price * buy.size > 0;
  }

  lemma SameEndsOtherMiddle(w: World, middle: World, end: World, user: int)
    requires AtRest(w, user) && AtRest(middle, user) && AtRest(end, user)
    requires CashFold(end.rows, user) == CashFold(w.rows, user) != CashFold(middle.rows, user)
    ensures user in w.shadow.users && user in end.shadow.users
    ensures var before, after := SnapshotOf(w, user), SnapshotOf(end, user);
            var api := ApiString(AvailableCash(middle.rows, user));
            Compared(before, [after], map[user := api]) && before.cash != api
  {
    RestingBooks(w, user);
    RestingBooks(end, user);
    ViewsAreFolds(middle.rows, user, 0);
    MoneyOfIsApiString(CashFold(w.rows, user));
    PrintIsInjective(CashFold(w.rows, user), CashFold(middle.rows, user));
    assert LastOf([SnapshotOf(end, user)], user) == Some(SnapshotOf(end, user));
  }

  lemma KeyStaysFree(rows: seq<Row>, row: Row, user: int, key: Key, key': Key)
    requires row.key == Some(key) && key != key' && ByKey(rows, user, key').None?
    ensures ByKey(rows + [row], user, key').None?
  {
    assert (rows + [row])[..|rows|] == rows;
  }

  lemma SellIsPredicted(w: World, middle: World, buy: SimOrder)
    requires AtRest(w, buy.userId) && AtRest(middle, buy.userId) && middle.quotes == w.quotes
    requires middle.shadow.prices == w.shadow.prices && buy.instrumentId in w.shadow.prices
    requires buy.otype.Market? && buy.side.Buy? && SharesFold(middle.rows, buy.userId, buy.instrumentId) >= buy.size
    ensures Expect(middle.shadow, buy.(side := Sell)).ExpectFilled?
  {
    RestingBooks(middle, buy.userId);
    assert AtClose(w.quotes, buy.instrumentId, w.shadow.prices[buy.instrumentId]);
  }

  /* ---- Orders the shadow holds nothing for ---- */

  function SendsAll(orders: seq<SimOrder>): seq<Act> {
    if orders == [] then [] else SendsAll(orders[..|orders| - 1]) + [Send(orders[|orders| - 1])]
  }

  /** Orders of one user, all to buy, of instruments the target trades. */
  predicate Buying(w: World, u: int, orders: seq<SimOrder>) {
    forall order :: order in orders ==>
      && order.userId == u && order.otype.Market? && order.side.Buy? && WellFormed(ToRequest(order, ""))
      && AtClose(w.quotes, order.instrumentId, CloseOf(w.quotes, order.instrumentId))
  }

  /** What sending them leaves: each in flight, nothing taken from the balance, nothing owed to it. */
  ghost predicate AllSent(w: World, v: World, u: int, orders: seq<SimOrder>) {
    && v.rows == w.rows && v.users == w.users && v.quotes == w.quotes && v.shadow.prices == w.shadow.prices
    && |v.flights| == |w.flights| + |orders| && v.flights[..|w.flights|] == w.flights
    && u in w.shadow.users && u in v.shadow.users
    && v.shadow.users[u].cash == w.shadow.users[u].cash && v.shadow.users[u].heldCash >= 0
    && (forall j :: 0 <= j < |orders| ==> SentAs(v.flights[|w.flights| + j], orders[j], v.shadow.users[u].cash))
  }

  predicate SentAs(f: Flight, order: SimOrder, cash: int) {
    f.stage.Sent? && f.res.order == order && (f.res.expectation.ExpectFilled? ==> cash >= 0)
  }

  lemma {:induction false} SendingAll(w: World, u: int, orders: seq<SimOrder>)
    requires AtRest(w, u) && Buying(w, u, orders) && u in w.shadow.users
    ensures AllSent(w, Acts(w, SendsAll(orders)), u, orders)
  {
    if orders == [] {
      RestingBooks(w, u);
      assert w.flights[..|w.flights|] == w.flights;
    } else {
      var n := |orders| - 1;
      var before := Acts(w, SendsAll(orders[..n]));
      SendingAll(w, u, orders[..n]);
      assert orders[n] in orders && Can(before, Send(orders[n]));
      ActsPush(w, SendsAll(orders[..n]), Send(orders[n]));
      SendingOne(w, before, u, orders[..n], orders[n]);
      assert orders[..n] + [orders[n]] == orders;
    }
  }

  lemma SendingOne(w: World, before: World, u: int, orders: seq<SimOrder>, order: SimOrder)
    requires PricesCurrent(w) && u in w.shadow.users && AllSent(w, before, u, orders) && Can(before, Send(order))
    requires order.userId == u && order.size >= 1 && order.side.Buy?
    ensures AllSent(w, After(before, Send(order)), u, orders + [order])
  {
    var r := ReservationFor(before.shadow, order);
    if r.expectation.ExpectFilled? {
      HoldIsNotNegative(w, before, order);
    }
    var v, n := After(before, Send(order)), |w.flights|;
    forall j | 0 <= j < |orders + [order]|
      ensures SentAs(v.flights[n + j], (orders + [order])[j], v.shadow.users[u].cash)
    {
      if j < |orders| {
        assert v.flights[n + j] == before.flights[n + j]
               && SentAs(before.flights[n + j], orders[j], before.shadow.users[u].cash);
      }
    }
  }

  lemma HoldIsNotNegative(w: World, before: World, order: SimOrder)
    requires PricesCurrent(w) && before.shadow.prices == w.shadow.prices && order.size >= 1
    requires order.instrumentId in before.shadow.prices
    ensures before.shadow.prices[order.instrumentId] * order.size >= 0
  {
    assert AtClose(w.quotes, order.instrumentId, w.shadow.prices[order.instrumentId]);
  }

  /** The exact condition for a predicted fill among any number of buys sent together, predicted or
      not: the target refuses it in some run exactly when some sub-collection of the others is one
      the balance pays for, and does not pay for with this one. */
  lemma PredictedFillIsRefusedIff(w: World, u: int, orders: seq<SimOrder>, k: nat)
    requires AtRest(w, u) && Buying(w, u, orders) && k < |orders| && u in w.shadow.users
    ensures var v, at := Acts(w, SendsAll(orders)), |w.flights| + k;
            && |v.flights| == |w.flights| + |orders|
            && (v.flights[at].res.expectation.ExpectFilled? ==>
                  ((exists acts :: UndisturbedRun(acts, u) && HeardRefused(Acts(v, acts), at)) <==>
                   Outspent(v, u, at, w.shadow.users[u].cash)))
  {
    SendingAll(w, u, orders);
    RestingBooks(w, u);
    SentIsRefusedIff(w, Acts(w, SendsAll(orders)), u, orders, k);
  }

  lemma SentIsRefusedIff(w: World, v: World, u: int, orders: seq<SimOrder>, k: nat)
    requires Grounded(w, u) && u in w.users && Buying(w, u, orders) && k < |orders| && AllSent(w, v, u, orders)
    requires CashFold(w.rows, u) == w.shadow.users[u].cash
    ensures v.flights[|w.flights| + k].res.expectation.ExpectFilled? ==>
              ((exists acts :: UndisturbedRun(acts, u) && HeardRefused(Acts(v, acts), |w.flights| + k)) <==>
               Outspent(v, u, |w.flights| + k, w.shadow.users[u].cash))
  {
    OnlyTheseCanFill(w, v, u, orders);
    assert v.flights[|w.flights| + k].res.order == orders[k];
    if v.flights[|w.flights| + k].res.expectation.ExpectFilled? {
      BuyRefusedInSomeRunIff(v, u, |w.flights| + k);
    }
  }

  lemma OnlyTheseCanFill(w: World, v: World, u: int, orders: seq<SimOrder>)
    requires Grounded(w, u) && Buying(w, u, orders) && AllSent(w, v, u, orders)
    ensures OnlyBuys(v, u)
    ensures forall j :: 0 <= j < |v.flights| ==> (Fillable(v, j, u) <==> |w.flights| <= j)
  {
    forall j | 0 <= j < |v.flights|
      ensures Fillable(v, j, u) <==> |w.flights| <= j
      ensures Fillable(v, j, u) ==> v.flights[j].res.order.side.Buy? && v.flights[j].res.order.size >= 1
    {
      if j < |w.flights| {
        assert v.flights[j] == v.flights[..|w.flights|][j];
      } else {
        var order := orders[j - |w.flights|];
        assert v.flights[|w.flights| + (j - |w.flights|)].res.order == order && order in orders;
      }
    }
  }

  /** With two: a buy sent before a predicted fill breaks it exactly when the balance pays for the
      first and not for both. */
  lemma BlindOrderBreaksTheCover(w: World, blind: SimOrder, covered: SimOrder)
    requires var u := blind.userId; AtRest(w, u) && u in w.shadow.users && Buying(w, u, [blind] + [covered])
    requires Expect(After(w, Send(blind)).shadow, covered).ExpectFilled?
    ensures var u, n := blind.userId, |w.flights|;
            var sent := After(After(w, Send(blind)), Send(covered));
            var cash, first := w.shadow.users[u].cash, CloseOf(w.quotes, blind.instrumentId) * blind.size;
            (exists acts :: UndisturbedRun(acts, u) && HeardRefused(Acts(sent, acts), n + 1)) <==>
            first <= cash < first + CloseOf(w.quotes, covered.instrumentId) * covered.size
  {
    CoveredAlone(w, blind, covered);
    var v := TwoSent(w, blind, covered);
    PredictedFillIsRefusedIff(w, blind.userId, [blind] + [covered], 1);
    TwoCosts(v, blind.userId, |w.flights|, |w.flights| + 1, |w.flights|, w.shadow.users[blind.userId].cash);
  }

  /** And so does one sent after it, which the shadow expects nothing of. */
  lemma LaterOrderBreaksTheCover(w: World, covered: SimOrder, later: SimOrder)
    requires var u := covered.userId; AtRest(w, u) && u in w.shadow.users && Buying(w, u, [covered] + [later])
    requires Expect(w.shadow, covered).ExpectFilled?
    ensures var u, n := covered.userId, |w.flights|;
            var sent := After(After(w, Send(covered)), Send(later));
            var cash, second := w.shadow.users[u].cash, CloseOf(w.quotes, later.instrumentId) * later.size;
            (exists acts :: UndisturbedRun(acts, u) && HeardRefused(Acts(sent, acts), n)) <==>
            second <= cash < second + CloseOf(w.quotes, covered.instrumentId) * covered.size
  {
    RestingBooks(w, covered.userId);
    assert AtClose(w.quotes, covered.instrumentId, w.shadow.prices[covered.instrumentId]);
    var v := TwoSent(w, covered, later);
    PredictedFillIsRefusedIff(w, covered.userId, [covered] + [later], 0);
    TwoCosts(v, covered.userId, |w.flights|, |w.flights|, |w.flights| + 1, w.shadow.users[covered.userId].cash);
  }

  lemma TwoSent(w: World, a: SimOrder, b: SimOrder) returns (v: World)
    requires AtRest(w, a.userId) && a.userId in w.shadow.users && Buying(w, a.userId, [a] + [b])
    ensures v == Acts(w, SendsAll([a] + [b])) == After(After(w, Send(a)), Send(b))
    ensures |v.flights| == |w.flights| + 2
    ensures v.flights[|w.flights|].res == ReservationFor(w.shadow, a)
    ensures v.flights[|w.flights| + 1].res == ReservationFor(After(w, Send(a)).shadow, b)
    ensures forall j :: 0 <= j < |v.flights| ==> (Fillable(v, j, a.userId) <==> |w.flights| <= j)
    ensures Cost(v, |w.flights|) == CloseOf(w.quotes, a.instrumentId) * a.size
    ensures Cost(v, |w.flights| + 1) == CloseOf(w.quotes, b.instrumentId) * b.size
  {
    TwoSends(w, a, b);
    v := Acts(w, SendsAll([a] + [b]));
    assert a in [a] + [b] && b in [a] + [b];
    SendingAll(w, a.userId, [a] + [b]);
    OnlyTheseCanFill(w, v, a.userId, [a] + [b]);
    assert v.flights[|w.flights| + 0].res.order == a && v.flights[|w.flights| + 1].res.order == b;
  }

  lemma TwoSends(w: World, blind: SimOrder, covered: SimOrder)
    ensures Acts(w, SendsAll([blind])) == After(w, Send(blind))
    ensures Acts(w, SendsAll([blind] + [covered])) == After(After(w, Send(blind)), Send(covered))
  {
    assert [blind][..0] == [] && ([blind] + [covered])[..1] == [blind];
    ActsPush(w, [], Send(blind));
    ActsPush(w, SendsAll([blind]), Send(covered));
  }

  /** Of two orders in flight the sub-collections that leave one of them out are the other and none. */
  lemma TwoCosts(v: World, u: int, n: nat, k: nat, other: nat, cash: int)
    requires |v.flights| == n + 2 && (forall j :: 0 <= j < |v.flights| ==> (Fillable(v, j, u) <==> n <= j))
    requires (k == n && other == n + 1) || (k == n + 1 && other == n)
    requires cash >= Cost(v, k)
    ensures Outspent(v, u, k, cash) <==> Cost(v, other) <= cash < Cost(v, other) + Cost(v, k)
  {
    SumAppend<nat>([], other, CostAt(v));
    assert [] + [other] == [other];
    assert TotalCost(v, [other]) == Cost(v, other) && TotalCost(v, []) == 0;
    if s: seq<nat> :| Among(v, u, s) && k !in s && TotalCost(v, s) <= cash < TotalCost(v, s) + Cost(v, k) {
      OneOther(v, u, s, n, k, other);
    }
    if Cost(v, other) <= cash < Cost(v, other) + Cost(v, k) {
      assert Among(v, u, [other]) && k !in [other];
    }
  }

  lemma OneOther(v: World, u: int, s: seq<nat>, n: nat, k: nat, other: nat)
    requires |v.flights| == n + 2 && Among(v, u, s) && k !in s
    requires (k == n && other == n + 1) || (k == n + 1 && other == n)
    requires forall j :: 0 <= j < |v.flights| ==> (Fillable(v, j, u) <==> n <= j)
    ensures s == [] || s == [other]
  {
    assert |s| >= 2 ==> s[0] != s[1];
    forall m | 0 <= m < |s| ensures s[m] == other {
      assert Fillable(v, s[m], u) && s[m] in s;
    }
  }

  /** A prediction counts on the whole order at least. */
  lemma CoveredAlone(w: World, blind: SimOrder, covered: SimOrder)
    requires var u := blind.userId; AtRest(w, u) && u in w.shadow.users && Buying(w, u, [blind] + [covered])
    requires Expect(After(w, Send(blind)).shadow, covered).ExpectFilled?
    ensures w.shadow.users[blind.userId].cash >= CloseOf(w.quotes, covered.instrumentId) * covered.size
  {
    var u := blind.userId;
    assert blind in [blind] + [covered] && covered in [blind] + [covered];
    TwoSends(w, blind, covered);
    assert Buying(w, u, [blind]);
    SendingAll(w, u, [blind]);
    assert AtClose(w.quotes, covered.instrumentId, w.shadow.prices[covered.instrumentId]);
  }

  /* ---- A generation restarted over an order in flight ---- */

  /** A reseed forgets the order in flight: the user's fresh shadow is seeded, trusted and at rest,
      and once the target stores that order the two are apart exactly when it was filled for
      anything but nothing. */
  lemma ReseedForgetsTheFlight(w: World, order: SimOrder, id: int, key: Key)
    requires MarketOrder(w, order, key) && TargetAnswer(w, order, id, key).Created?
    ensures var end := Acts(w, Restart(w, order) + [Process(|w.flights|, id, key)]);
            var row := TargetAnswer(w, order, id, key).row;
            && order.userId in end.shadow.users && order.userId !in end.clean
            && var user := end.shadow.users[order.userId];
               && user.seeded && !user.uncertain && user.outstanding == 0
               && (user.cash != AvailableCash(end.rows, order.userId) <==>
                     row.status.Filled? && row.price * order.size != 0)
  {
    var row := TargetAnswer(w, order, id, key).row;
    RestartThenFill(w, order, id, key);
    StoredAsAsked(w.rows, order.userId in w.users, QuoteOf(w.quotes, order.instrumentId), ToRequest(order, key), id);
    RowMovesCash(w.rows, row, order);
  }

  lemma RowMovesCash(rows: seq<Row>, row: Row, order: SimOrder)
    requires row.userId == order.userId && row.side == order.side && row.size == order.size
    ensures AvailableCash(rows + [row], order.userId) != AvailableCash(rows, order.userId) <==>
            row.status.Filled? && row.price * order.size != 0
  {
    DeltaIsTheMove(row, order);
    ViewsAreFolds(rows, order.userId, 0);
    ViewsAreFolds(rows + [row], order.userId, 0);
    SumAppend(rows, row, CashOf(order.userId));
    assert CashMove(order, row.price) == 0 <==> row.price * order.size == 0;
  }

  lemma RestartThenFill(w: World, order: SimOrder, id: int, key: Key)
    requires MarketOrder(w, order, key) && TargetAnswer(w, order, id, key).Created?
    ensures var end := Acts(w, Restart(w, order) + [Process(|w.flights|, id, key)]);
            && end.rows == w.rows + [TargetAnswer(w, order, id, key).row]
            && order.userId in end.shadow.users && order.userId !in end.clean
            && var user := end.shadow.users[order.userId];
               user.seeded && !user.uncertain && user.outstanding == 0
                 && user.cash == AvailableCash(w.rows, order.userId)
  {
    RestartShape(w, order);
    var seeded := Acts(w, Restart(w, order));
    assert TargetAnswer(seeded, order, id, key) == TargetAnswer(w, order, id, key);
    ActsPush(w, Restart(w, order), Process(|w.flights|, id, key));
    LateFill(seeded, |w.flights|, id, key);
  }

  lemma LateFill(w: World, k: nat, id: int, key: Key)
    requires Can(w, Process(k, id, key)) && TargetAnswer(w, w.flights[k].res.order, id, key).Created?
    ensures var w' := After(w, Process(k, id, key));
            && w'.rows == w.rows + [TargetAnswer(w, w.flights[k].res.order, id, key).row]
            && w'.shadow == w.shadow && w'.clean == w.clean
  {
  }

  /** An order sent, a generation opened over it, and the user seeded again by one atomic read. */
  function Restart(w: World, order: SimOrder): seq<Act> {
    [Send(order)] + [NewGeneration([order.userId])]
    + [SeedUser(w.shadow.current + 1, order.userId, ForUser(w.rows, w.quotes, w.catalog, order.userId))]
  }

  /** The order is in flight over a shadow that trusts its balance and counts no order. */
  predicate Restarted(w: World, order: SimOrder, seeded: World) {
    && seeded.flights == w.flights + [Flight(ReservationFor(w.shadow, order), Sent)]
    && seeded.rows == w.rows && seeded.quotes == w.quotes && seeded.users == w.users
    && order.userId !in seeded.clean && order.userId in seeded.shadow.users
    && var user := seeded.shadow.users[order.userId];
       user.seeded && !user.uncertain && user.outstanding == 0 && user.cash == AvailableCash(w.rows, order.userId)
  }

  lemma ActsThree(w: World, a: Act, b: Act, c: Act)
    ensures Acts(w, [a] + [b] + [c]) == After(After(After(w, a), b), c)
  {
    ActsPush(w, [], a);
    assert [] + [a] == [a];
    ActsPush(w, [a], b);
    ActsPush(w, [a] + [b], c);
  }

  lemma RestartShape(w: World, order: SimOrder)
    requires Can(w, Send(order))
    ensures Restarted(w, order, Acts(w, Restart(w, order)))
  {
    ActsThree(w, Send(order), NewGeneration([order.userId]),
              SeedUser(w.shadow.current + 1, order.userId, ForUser(w.rows, w.quotes, w.catalog, order.userId)));
    Forgotten(w, order);
    SeededShape(w, order, After(After(w, Send(order)), NewGeneration([order.userId])));
  }

  lemma SeededShape(w: World, order: SimOrder, forgotten: World)
    requires forgotten.flights == w.flights + [Flight(ReservationFor(w.shadow, order), Sent)]
    requires forgotten.rows == w.rows && forgotten.quotes == w.quotes && forgotten.users == w.users
    requires forgotten.catalog == w.catalog && forgotten.shadow.current == w.shadow.current + 1
    requires order.userId in forgotten.shadow.users && forgotten.shadow.users[order.userId] == BLANK
    ensures Restarted(w, order, After(forgotten, SeedUser(w.shadow.current + 1, order.userId,
                                                          ForUser(w.rows, w.quotes, w.catalog, order.userId))))
  {
    SeedOverFlight(forgotten, |w.flights|, order.userId);
  }

  /** A new generation forgets the order; its flight goes on. */
  lemma Forgotten(w: World, order: SimOrder)
    requires Can(w, Send(order))
    ensures var w' := After(After(w, Send(order)), NewGeneration([order.userId]));
            && w'.flights == w.flights + [Flight(ReservationFor(w.shadow, order), Sent)]
            && w'.rows == w.rows && w'.quotes == w.quotes && w'.users == w.users && w'.catalog == w.catalog
            && w'.shadow.current == w.shadow.current + 1
            && order.userId in w'.shadow.users && w'.shadow.users[order.userId] == BLANK
  {
  }

  /** A seed taken over an order in flight, in a generation that order is not of. */
  lemma SeedOverFlight(w: World, k: nat, user: int)
    requires user in w.shadow.users && w.shadow.users[user] == BLANK
    requires k < |w.flights| && w.flights[k].res.order.userId == user && !w.flights[k].stage.Closed?
    ensures var w' := After(w, SeedUser(w.shadow.current, user, ForUser(w.rows, w.quotes, w.catalog, user)));
            && w' == w.(shadow := w'.shadow, clean := w.clean - {user}) && user in w'.shadow.users
            && var u := w'.shadow.users[user];
               u.seeded && !u.uncertain && u.outstanding == 0 && u.cash == AvailableCash(w.rows, user)
  {
    assert !Grounded(w, user);
  }
}
