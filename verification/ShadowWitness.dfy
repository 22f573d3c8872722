/** A run of the harness that reaches the conditions of ShadowLimits: user 7 has 100 pesos, two
    instruments close at 0.60, and the price of one of them has been learned. */
module ShadowWitness {
  import opened Options
  import opened OrderRules
  import opened SeqSum
  import opened Ledger
  import opened Placement
  import opened Portfolio
  import opened ShadowLedger
  import opened ShadowWorld
  import opened ShadowSoundness
  import opened ShadowRefusals
  import opened Drift
  import opened ShadowLimits
  import opened Money

  const TABLE: seq<Row> := [Row(1, 7, 66, CashIn, 100, 100, Market, Filled, None)]
  const QUOTES: map<int, Quote> := map[10 := Quote(false, Some(60)), 20 := Quote(false, Some(60))]
  const CATALOG: seq<int> := [10, 20]
  const PROBE := SimOrder(7, 20, Sell, 1, Market, None)
  const PRICED := SimOrder(7, 20, Buy, 100, Market, None)     // 60 pesos, of an instrument whose price is known
  const BLIND := SimOrder(7, 10, Buy, 100, Market, None)      // 60 pesos, of the other

  function Start(): World { World(Shadow(map[], map[], 0), TABLE, {7}, QUOTES, CATALOG, [], {}) }

  function Reading(): Portfolio { ForUser(TABLE, QUOTES, CATALOG, 7) }

  /** A generation, a seed, and an order of an unknown price that is refused at the close. */
  function Warmup(): seq<Act> {
    [NewGeneration([7])] + [SeedUser(1, 7, Reading())] + [Send(PROBE)] + [Process(0, 2, "p")] + [Deliver(0)]
  }

  function Seven(outstanding: int): ShadowUser {
    ShadowUser(10_000, SharesOfPositions(Reading().positions), 0, map[], outstanding, true, false)
  }

  const REFUSED := Row(2, 7, 20, Sell, 1, 60, Market, Rejected, Some("p"))

  function Warm(): World {
    World(Shadow(map[7 := Seven(0)], map[20 := 60], 1), TABLE + [REFUSED], {7}, QUOTES, CATALOG,
          [Flight(Reservation(1, PROBE, Unknown, 0, 0), Closed)], {7})
  }

  lemma TableFolds(rows: seq<Row>)
    requires rows == TABLE || rows == TABLE + [REFUSED]
    ensures AvailableCash(rows, 7) == CashFold(rows, 7) == 10_000
    ensures forall i :: HeldShares(rows, 7, i) == SharesFold(rows, 7, i) == 0
    ensures forall key :: key != "p" ==> ByKey(rows, 7, key).None?
    ensures ByKey(TABLE, 7, "p").None?
  {
    assert CashFold(TABLE, 7) == CashDelta(TABLE[0]) by {
      assert TABLE[..0] == [];
    }
    assert (TABLE + [REFUSED])[..1] == TABLE;
    ViewsAreFolds(rows, 7, 0);
    forall i ensures HeldShares(rows, 7, i) == SharesFold(rows, 7, i) == 0 {
      ViewsAreFolds(rows, 7, i);
      SumZero(rows, SharesOf(7, i));
    }
  }

  /** The run, step by step. */
  function Stepped(n: nat): World {
    var asked := Reservation(1, PROBE, Unknown, 0, 0);
    if n == 0 then Start()
    else if n == 1 then Start().(shadow := Shadow(map[7 := BLANK], map[], 1))
    else if n == 2 then Start().(shadow := Shadow(map[7 := Seven(0)], map[], 1), clean := {7})
    else if n == 3 then Start().(shadow := Shadow(map[7 := Seven(1)], map[], 1), clean := {7},
                                 flights := [Flight(asked, Sent)])
    else if n == 4 then Stepped(3).(rows := TABLE + [REFUSED],
                                    flights := [Flight(asked, Heard(Some(Execution(Rejected, 60))))])
    else Warm()
  }

  lemma Opens()
    ensures After(Stepped(0), NewGeneration([7])) == Stepped(1)
  {
  }

  /** The first seed of a user with nothing in flight. */
  lemma FirstSeed(w: World, portfolio: Portfolio)
    requires w.shadow == Shadow(map[7 := BLANK], map[], 1) && w.flights == [] && w.clean == {}
    requires ReadsBalances(w, 7, portfolio)
    ensures var user := BLANK.(cash := portfolio.availableCash, shares := SharesOfPositions(portfolio.positions),
            seeded := true);
            After(w, SeedUser(1, 7, portfolio)) == w.(shadow := Shadow(map[7 := user], map[], 1), clean := {7})
  {
    var user := BLANK.(cash := portfolio.availableCash, shares := SharesOfPositions(portfolio.positions),
                       seeded := true);
    assert w.shadow.users[7 := user] == map[7 := user];
  }

  lemma Seeding()
    ensures After(Stepped(1), SeedUser(1, 7, Reading())) == Stepped(2)
  {
    assert Reading().availableCash == 10_000 by { TableFolds(TABLE); }
    FirstSeed(Stepped(1), Reading());
  }

  lemma Asks()
    ensures After(Stepped(2), Send(PROBE)) == Stepped(3)
  {
  }

  lemma Refuses()
    ensures After(Stepped(3), Process(0, 2, "p")) == Stepped(4)
  {
    TableFolds(TABLE);
    assert TargetAnswer(Stepped(3), PROBE, 2, "p") == Created(REFUSED);
  }

  /** A refusal delivered teaches the price and moves nothing. */
  lemma RefusalTeaches(w: World, u: ShadowUser, r: Reservation, price: int)
    requires w.shadow == Shadow(map[7 := u], map[], 1) && r.generation == 1 && r.order.userId == 7
    requires r.order.otype.Market? && r.heldCash == 0 && r.heldShares == 0
    requires w.flights == [Flight(r, Heard(Some(Execution(Rejected, price))))]
    ensures After(w, Deliver(0)) ==
            w.(shadow := Shadow(map[7 := u.(outstanding := u.outstanding - 1)], map[r.order.instrumentId := price], 1),
               flights := [Flight(r, Closed)])
  {
    var sh := w.shadow;
    assert Released(u, r) == u.(outstanding := u.outstanding - 1);
    assert sh.prices[r.order.instrumentId := price] == map[r.order.instrumentId := price];
    assert sh.users[7 := Released(u, r)] == map[7 := Released(u, r)];
    assert SetStage(w, 0, Closed) == [Flight(r, Closed)];
  }

  lemma Learns()
    ensures After(Stepped(4), Deliver(0)) == Stepped(5)
  {
    RefusalTeaches(Stepped(4), Seven(1), Reservation(1, PROBE, Unknown, 0, 0), 60);
  }

  lemma StepRuns(n: nat)
    requires n < 5
    ensures |Warmup()| == 5 && After(Stepped(n), Warmup()[n]) == Stepped(n + 1)
  {
    if n == 0 {
      Opens();
    } else if n == 1 {
      Seeding();
    } else if n == 2 {
      Asks();
    } else if n == 3 {
      Refuses();
    } else {
      Learns();
    }
  }

  lemma {:induction false} RunsTo(n: nat)
    requires n <= 5
    ensures |Warmup()| == 5 && Acts(Start(), Warmup()[..n]) == Stepped(n)
  {
    if n > 0 {
      RunsTo(n - 1);
      StepRuns(n - 1);
      assert Warmup()[..n][..n - 1] == Warmup()[..n - 1];
    }
  }

  lemma WarmupRuns()
    ensures Acts(Start(), Warmup()) == Warm()
  {
    RunsTo(5);
    assert Warmup()[..5] == Warmup();
  }

  lemma StartHolds()
    ensures Fresh(Start()) && WorldInv(Start()) && PricesCurrent(Start())
  {
    assert Acts(Start(), []) == Start();
    ActsKeep(Start(), []);
  }

  lemma NoCloseMoves()
    ensures forall n :: 0 <= n < |Warmup()| ==> !Warmup()[n].MoveClose? && !Warmup()[n].ProcessAt?
  {
    assert Warmup() == [NewGeneration([7]), SeedUser(1, 7, Reading()), Send(PROBE), Process(0, 2, "p"), Deliver(0)];
  }

  /** The world it reaches is at rest. */
  lemma WarmIsAtRest()
    ensures AtRest(Warm(), 7)
  {
    StartHolds();
    NoCloseMoves();
    RunStaysCurrent(Start(), Warmup());
    WarmupRuns();
  }

  /** So the shadow can be wrong in each of three ways, in runs that start fresh. An order it predicts
      to fill is refused, because one it could not price goes first... */
  lemma APredictedFillIsRefused()
    ensures var sent := After(After(Acts(Start(), Warmup()), Send(BLIND)), Send(PRICED));
            && Fresh(Start()) && |sent.flights| == 3 && sent.flights[2].res.expectation.ExpectFilled?
            && exists acts :: UndisturbedRun(acts, 7) && HeardRefused(Acts(sent, acts), 2)
  {
    StartHolds();
    WarmupRuns();
    WarmIsAtRest();
    BlindHoldsNothing();
    BlindGoesFirst(Warm());
  }

  lemma BothClose()
    ensures AtClose(QUOTES, 10, CloseOf(QUOTES, 10)) && AtClose(QUOTES, 20, CloseOf(QUOTES, 20))
  {
  }

  lemma TwoBuys(w: World, first: SimOrder)
    requires w.quotes == QUOTES && (first == BLIND || first == PRICED)
    ensures Buying(w, 7, [first] + [PRICED])
  {
    BothClose();
    assert forall order :: order in [first] + [PRICED] ==> order == BLIND || order == PRICED;
  }

  lemma BlindGoesFirst(w: World)
    requires AtRest(w, 7) && 7 in w.shadow.users && w.shadow.users[7].cash == 10_000 && w.quotes == QUOTES
             && |w.flights| == 1
    requires Expect(After(w, Send(BLIND)).shadow, PRICED).ExpectFilled?
    ensures var sent := After(After(w, Send(BLIND)), Send(PRICED));
            exists acts :: UndisturbedRun(acts, 7) && HeardRefused(Acts(sent, acts), 2)
  {
    TwoBuys(w, BLIND);
    BlindOrderBreaksTheCover(w, BLIND, PRICED);
  }

  lemma SecondGoesFirst(w: World)
    requires AtRest(w, 7) && 7 in w.shadow.users && w.shadow.users[7].cash == 10_000 && w.quotes == QUOTES
             && |w.flights| == 1
    requires Expect(w.shadow, PRICED).ExpectFilled?
    ensures var sent := After(After(w, Send(PRICED)), Send(PRICED));
            exists acts :: UndisturbedRun(acts, 7) && HeardRefused(Acts(sent, acts), 1)
  {
    TwoBuys(w, PRICED);
    LaterOrderBreaksTheCover(w, PRICED, PRICED);
  }

  /** ... or because one goes first that it expected nothing of, being short with that very order
      outstanding... */
  lemma APredictedFillIsRefusedByAShortOne()
    ensures var sent := After(After(Acts(Start(), Warmup()), Send(PRICED)), Send(PRICED));
            && Fresh(Start()) && |sent.flights| == 3
            && sent.flights[1].res.expectation.ExpectFilled? && sent.flights[2].res.expectation.Unknown?
            && exists acts :: UndisturbedRun(acts, 7) && HeardRefused(Acts(sent, acts), 1)
  {
    StartHolds();
    WarmupRuns();
    WarmIsAtRest();
    PricedIsPredicted();
    SecondIsShort();
    SecondGoesFirst(Warm());
  }

  lemma BlindHoldsNothing()
    ensures Expect(After(Warm(), Send(BLIND)).shadow, PRICED).ExpectFilled?
    ensures |After(After(Warm(), Send(BLIND)), Send(PRICED)).flights| == 3
    ensures After(After(Warm(), Send(BLIND)), Send(PRICED)).flights[2].res.expectation.ExpectFilled?
  {
    assert Expect(Warm().shadow, BLIND).Unknown?;
  }

  lemma SecondIsShort()
    ensures var sent := After(After(Warm(), Send(PRICED)), Send(PRICED));
            && |sent.flights| == 3
            && sent.flights[1].res.expectation.ExpectFilled? && sent.flights[2].res.expectation.Unknown?
  {
    PricedIsPredicted();
  }

  /** ... two quiet snapshots that agree with each other disagree with the balance read between them... */
  lemma ADriftIsInvented()
    ensures var middle := RoundTrip(Warm(), PRICED, 3, "b");
            var end := RoundTrip(middle, PRICED.(side := Sell), 4, "c");
            && Fresh(Start()) && Acts(Start(), Warmup()) == Warm()
            && 7 in Warm().shadow.users && 7 in end.shadow.users
            && var api := ApiString(AvailableCash(middle.rows, 7));
               && Compared(SnapshotOf(Warm(), 7), [SnapshotOf(end, 7)], map[7 := api])
               && SnapshotOf(Warm(), 7).cash != api
  {
    StartHolds();
    WarmupRuns();
    WarmIsAtRest();
    PricedIsPredicted();
    TableFolds(Warm().rows);
    DriftsFrom(Warm());
  }

  lemma DriftsFrom(w: World)
    requires AtRest(w, 7) && 7 in w.users && w.rows == TABLE + [REFUSED] && 20 in w.shadow.prices
             && w.shadow.prices[20] == 60
    requires Expect(w.shadow, PRICED).ExpectFilled?
    ensures var middle := RoundTrip(w, PRICED, 3, "b");
            var end := RoundTrip(middle, PRICED.(side := Sell), 4, "c");
            && 7 in w.shadow.users && 7 in end.shadow.users
            && var api := ApiString(AvailableCash(middle.rows, 7));
               Compared(SnapshotOf(w, 7), [SnapshotOf(end, 7)], map[7 := api]) && SnapshotOf(w, 7).cash != api
  {
    TableFolds(w.rows);
    OutAndBackDrifts(w, PRICED, 3, "b", 4, "c");
  }

  /** ... and a shadow that is seeded, trusted and at rest is not the database. */
  lemma ATrustedShadowIsWrong()
    ensures var end := Acts(Warm(), Restart(Warm(), PRICED) + [Process(1, 3, "b")]);
            && Fresh(Start()) && Acts(Start(), Warmup()) == Warm()
            && 7 in end.shadow.users
            && var user := end.shadow.users[7];
               user.seeded && !user.uncertain && user.outstanding == 0 && user.cash != AvailableCash(end.rows, 7)
  {
    StartHolds();
    WarmupRuns();
    WarmIsAtRest();
    PricedIsPredicted();
    TableFolds(Warm().rows);
    PredictedFillMoves(Warm(), PRICED, 3, "b");
    ReseedForgetsTheFlight(Warm(), PRICED, 3, "b");
  }

  lemma PricedIsPredicted()
    ensures Expect(Warm().shadow, PRICED).ExpectFilled?
  {
    TableFolds(TABLE);
  }
}
