/** A predicted refusal is not sure either: an order sent after it can be processed before it. */
module ShadowOvertakes {
  import opened OrderRules
  import opened SeqSum
  import opened Ledger
  import opened Placement
  import opened Portfolio
  import opened ShadowLedger
  import opened ShadowWorld
  import opened ShadowSoundness
  import opened ShadowRefusals
  import opened ShadowLimits
  import opened ShadowWitness

  /** A MARKET order the target trades. */
  predicate Tradeable(w: World, order: SimOrder) {
    && order.otype.Market? && WellFormed(ToRequest(order, ""))
    && AtClose(w.quotes, order.instrumentId, CloseOf(w.quotes, order.instrumentId))
  }

  /** A sale sent behind a buy. */
  function SaleBehind(w: World, buy: SimOrder, sale: SimOrder): World {
    After(After(w, Send(buy)), Send(sale))
  }

  /** What the two leave: both in flight, the table untouched. */
  predicate BothSent(w: World, v: World, buy: SimOrder, sale: SimOrder) {
    && v.rows == w.rows && v.users == w.users && v.quotes == w.quotes && |v.flights| == |w.flights| + 2
    && (forall j :: 0 <= j < |w.flights| ==> v.flights[j] == w.flights[j])
    && v.flights[|w.flights|] == Flight(ReservationFor(w.shadow, buy), Sent)
    && v.flights[|w.flights| + 1].stage.Sent? && v.flights[|w.flights| + 1].res.order == sale
  }

  lemma SaleBehindSends(w: World, buy: SimOrder, sale: SimOrder)
    requires Tradeable(w, buy) && Tradeable(w, sale)
    ensures BothSent(w, SaleBehind(w, buy, sale), buy, sale)
  {
  }

  /** Of two orders in flight those that can fill before the first are the second, or none. */
  lemma BeforeTheFirst(w: World, v: World, buy: SimOrder, sale: SimOrder, p: seq<nat>)
    requires var u := buy.userId;
             Grounded(w, u) && BothSent(w, v, buy, sale) && FillInTurn(v, u, p) && |w.flights| !in p
    ensures p == [] || p == [|w.flights| + 1]
  {
    var u, n := buy.userId, |w.flights|;
    forall j: nat | j < n ensures !Fillable(v, j, u) {
      assert v.flights[j] == w.flights[j];
    }
    assert |p| >= 2 ==> p[0] != p[1];
    forall m | 0 <= m < |p| ensures p[m] == n + 1 {
      assert Fillable(v, p[m], u) && p[m] in p;
    }
  }

  /** What one sale leaves, once filled. */
  lemma AfterTheSale(w: World, v: World, buy: SimOrder, sale: SimOrder)
    requires BothSent(w, v, buy, sale) && sale.side.Sell?
    ensures var u, n := buy.userId, |w.flights|;
            && CashAfter(v, u, []) == CashFold(w.rows, u)
            && CashAfter(v, u, [n + 1]) == CashFold(w.rows, u) + CloseOf(w.quotes, sale.instrumentId) * sale.size
            && SharesAfter(v, u, [], sale.instrumentId) == SharesFold(w.rows, u, sale.instrumentId)
  {
    SumAppend<nat>([], |w.flights| + 1, CashMoveAt(v));
    assert [] + [|w.flights| + 1] == [|w.flights| + 1];
  }

  lemma SaleCanFill(w: World, v: World, buy: SimOrder, sale: SimOrder)
    requires var u := buy.userId; sale.userId == u && BothSent(w, v, buy, sale)
    requires Tradeable(w, sale) && sale.side.Sell?
    ensures FillInTurn(v, buy.userId, [])
    ensures FillInTurn(v, buy.userId, [|w.flights| + 1]) <==>
            SharesFold(w.rows, buy.userId, sale.instrumentId) >= sale.size
  {
    AfterTheSale(w, v, buy, sale);
    assert [|w.flights| + 1][..0] == [];
    assert Fillable(v, |w.flights| + 1, buy.userId);
    assert PaysFor(v, buy.userId, [], |w.flights| + 1) <==>
           SharesFold(w.rows, buy.userId, sale.instrumentId) >= sale.size;
  }

  /** A buy that a user at rest is short for is predicted to be refused, and it is filled in some run
      exactly when a sale sent behind it can fill and makes up the difference. */
  lemma PredictedRefusalFillsIff(w: World, buy: SimOrder, sale: SimOrder)
    requires var u := buy.userId; AtRest(w, u) && u in w.shadow.users && sale.userId == u
    requires Tradeable(w, buy) && buy.side.Buy? && Tradeable(w, sale) && sale.side.Sell?
    requires Expect(w.shadow, buy).ExpectRejected?
    ensures var u, n := buy.userId, |w.flights|;
            var (v, user) := (SaleBehind(w, buy, sale), w.shadow.users[u]);
            && |v.flights| == n + 2 && v.flights[n].res.expectation.ExpectRejected?
            && ((exists acts :: UndisturbedRun(acts, u) && HeardFilled(Acts(v, acts), n)) <==>
                && Get(user.shares, sale.instrumentId) >= sale.size
                && user.cash + CloseOf(w.quotes, sale.instrumentId) * sale.size
                   >= CloseOf(w.quotes, buy.instrumentId) * buy.size)
  {
    RestingBooks(w, buy.userId);
    SaleBehindSends(w, buy, sale);
    ShortAtTheClose(w, buy);
    FundedByTheSale(w, SaleBehind(w, buy, sale), buy, sale);
    FilledInSomeRunIff(SaleBehind(w, buy, sale), buy.userId, |w.flights|);
  }

  lemma ShortAtTheClose(w: World, buy: SimOrder)
    requires AtRest(w, buy.userId) && buy.side.Buy? && Expect(w.shadow, buy).ExpectRejected?
    ensures CashFold(w.rows, buy.userId) < CloseOf(w.quotes, buy.instrumentId) * buy.size
  {
    RestingBooks(w, buy.userId);
    assert AtClose(w.quotes, buy.instrumentId, w.shadow.prices[buy.instrumentId]);
  }

  lemma FundedByTheSale(w: World, v: World, buy: SimOrder, sale: SimOrder)
    requires Grounded(w, buy.userId) && BothSent(w, v, buy, sale) && sale.userId == buy.userId
    requires Tradeable(w, buy) && buy.side.Buy? && Tradeable(w, sale) && sale.side.Sell?
    requires CashFold(w.rows, buy.userId) < CloseOf(w.quotes, buy.instrumentId) * buy.size
    ensures Fillable(v, |w.flights|, buy.userId)
    ensures Fundable(v, buy.userId, |w.flights|) <==>
            && SharesFold(w.rows, buy.userId, sale.instrumentId) >= sale.size
            && CashFold(w.rows, buy.userId) + CloseOf(w.quotes, sale.instrumentId) * sale.size
               >= CloseOf(w.quotes, buy.instrumentId) * buy.size
  {
    var u, n := buy.userId, |w.flights|;
    AfterTheSale(w, v, buy, sale);
    SaleCanFill(w, v, buy, sale);
    if p :| FillInTurn(v, u, p) && n !in p && PaysFor(v, u, p, n) {
      BeforeTheFirst(w, v, buy, sale, p);
    }
    if SharesFold(w.rows, u, sale.instrumentId) >= sale.size {
      assert FillInTurn(v, u, [n + 1]) && n !in [n + 1];
    }
  }

  /* ---- Such a run exists ---- */

  const SOLD := PRICED.(side := Sell)

  /** User 7 spends 60 of 100 pesos on a hundred shares; a second such buy is predicted REJECTED, and
      the shares are sold behind it. */
  function Spent(): World { RoundTrip(Warm(), PRICED, 3, "b") }

  lemma Spending(w: World)
    requires AtRest(w, 7) && w.quotes == QUOTES && w.shadow.prices == map[20 := 60]
    requires w.rows == TABLE + [REFUSED] && Expect(w.shadow, PRICED).ExpectFilled?
    ensures var w' := RoundTrip(w, PRICED, 3, "b");
            && AtRest(w', 7) && w'.quotes == QUOTES && w'.shadow.prices == map[20 := 60]
            && CashFold(w'.rows, 7) == 4_000 && SharesFold(w'.rows, 7, 20) == 100
  {
    TableFolds(w.rows);
    RoundTripFills(w, PRICED, 3, "b");
  }

  lemma SpentAtRest()
    ensures AtRest(Spent(), 7) && Spent().quotes == QUOTES && Spent().shadow.prices == map[20 := 60]
    ensures CashFold(Spent().rows, 7) == 4_000 && SharesFold(Spent().rows, 7, 20) == 100
  {
    WarmIsAtRest();
    PricedIsPredicted();
    Spending(Warm());
  }

  lemma SecondIsRefused(w: World)
    requires AtRest(w, 7) && w.quotes == QUOTES && w.shadow.prices == map[20 := 60]
    requires CashFold(w.rows, 7) == 4_000 && SharesFold(w.rows, 7, 20) == 100
    ensures 7 in w.shadow.users && Expect(w.shadow, PRICED).ExpectRejected?
    ensures exists acts :: UndisturbedRun(acts, 7) && HeardFilled(Acts(SaleBehind(w, PRICED, SOLD), acts), |w.flights|)
  {
    RestingBooks(w, 7);
    BothClose();
    PredictedRefusalFillsIff(w, PRICED, SOLD);
  }

  /** So an honest target fills an order the shadow predicted it would refuse. */
  lemma APredictedRefusalIsFilled()
    ensures var (w, v) := (Spent(), SaleBehind(Spent(), PRICED, SOLD));
            && Fresh(Start()) && Acts(Start(), Warmup()) == Warm() && Expect(w.shadow, PRICED).ExpectRejected?
            && exists acts :: UndisturbedRun(acts, 7) && HeardFilled(Acts(v, acts), |w.flights|)
  {
    StartHolds();
    WarmupRuns();
    SpentAtRest();
    SecondIsRefused(Spent());
  }
}
