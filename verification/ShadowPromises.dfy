/** What a prediction is worth once answers get lost: an order sent with a predicted fill keeps its
    cover at the target, whatever the shadow forgets of it afterwards. */
module ShadowPromises {
  import opened Options
  import opened OrderRules
  import opened SeqSum
  import opened Ledger
  import opened Placement
  import opened Protocol
  import opened Portfolio
  import opened ShadowLedger
  import opened ShadowWorld
  import opened ShadowSoundness

  /** A MARKET order of the user's that the target may still come to, given up on or not. */
  predicate Waits(f: Flight, u: int) {
    (f.stage.Sent? || f.stage.Orphan?) && f.res.order.userId == u && f.res.order.otype.Market?
  }

  predicate WaitsTo(f: Flight, u: int, side: Side) { Waits(f, u) && f.res.order.side == side }

  function CostOf(quotes: map<int, Quote>, u: int): Flight -> int {
    (f: Flight) =>
      if WaitsTo(f, u, Buy) then CloseOf(quotes, f.res.order.instrumentId) * f.res.order.size else 0
  }

  function SoldOf(u: int, i: int): Flight -> int {
    (f: Flight) => if WaitsTo(f, u, Sell) && f.res.order.instrumentId == i then f.res.order.size else 0
  }

  /** The database covers all of them together, at the closes. */
  ghost predicate Promised(w: World, u: int) {
    && (forall k :: 0 <= k < |w.flights| && Waits(w.flights[k], u) ==>
          var i := w.flights[k].res.order.instrumentId; AtClose(w.quotes, i, CloseOf(w.quotes, i)))
    && (forall k :: 0 <= k < |w.flights| && WaitsTo(w.flights[k], u, Buy) ==>
          CashFold(w.rows, u) >= Sum(w.flights, CostOf(w.quotes, u)))
    && (forall k :: 0 <= k < |w.flights| && WaitsTo(w.flights[k], u, Sell) ==>
          var i := w.flights[k].res.order.instrumentId;
          SharesFold(w.rows, u, i) >= Sum(w.flights, SoldOf(u, i)))
  }

  /* ---- From the shadow's cover to the target's ---- */

  /** One order costs the target no more than what the shadow holds for it and what it is owed. */
  lemma HoldsMoreThanItCosts(w: World, j: nat, u: int, i: int)
    requires j < |w.flights| && Agrees(w, u) && Covers(w, u)
    ensures var (f, generation) := (w.flights[j], w.shadow.current);
            && DueCash(u)(f) + HeldCashOf(u, generation)(f) >= CostOf(w.quotes, u)(f)
            && DueShares(u, i)(f) + HeldSharesOf(u, generation, i)(f) >= SoldOf(u, i)(f)
  {
    var f := w.flights[j];
    BackedNetsOut(w, j, u, i);
    if Waits(f, u) {
      assert Mine(f, u) && Backed(w.quotes, f);
    }
  }

  lemma {:induction false} SumIsLess<T>(xs: seq<T>, f: T -> int, g: T -> int)
    requires forall i :: 0 <= i < |xs| ==> f(xs[i]) <= g(xs[i])
    ensures Sum(xs, f) <= Sum(xs, g)
  {
    if xs != [] {
      SumIsLess(xs[..|xs| - 1], f, g);
    }
  }

  lemma CashIsPromised(w: World, u: int)
    requires WorldInv(w) && u in w.clean && Covers(w, u)
    requires exists k :: 0 <= k < |w.flights| && MarketMine(w.flights[k], u, Buy)
    ensures CashFold(w.rows, u) >= Sum(w.flights, CostOf(w.quotes, u))
  {
    assert Agrees(w, u) && Booked(w.flights, w.shadow.users[u], u, w.shadow.current);
    var both := (f: Flight) => DueCash(u)(f) + HeldCashOf(u, w.shadow.current)(f);
    forall j | 0 <= j < |w.flights| ensures CostOf(w.quotes, u)(w.flights[j]) <= both(w.flights[j]) {
      HoldsMoreThanItCosts(w, j, u, 0);
    }
    SumPlus(w.flights, DueCash(u), HeldCashOf(u, w.shadow.current), both);
    SumIsLess(w.flights, CostOf(w.quotes, u), both);
  }

  lemma SharesArePromised(w: World, u: int, k: nat)
    requires WorldInv(w) && u in w.clean && Covers(w, u) && k < |w.flights| && MarketMine(w.flights[k], u, Sell)
    ensures var i := w.flights[k].res.order.instrumentId;
            SharesFold(w.rows, u, i) >= Sum(w.flights, SoldOf(u, i))
  {
    var i := w.flights[k].res.order.instrumentId;
    assert Agrees(w, u) && Booked(w.flights, w.shadow.users[u], u, w.shadow.current) && Backed(w.quotes, w.flights[k]);
    var both := (f: Flight) => DueShares(u, i)(f) + HeldSharesOf(u, w.shadow.current, i)(f);
    forall j | 0 <= j < |w.flights| ensures SoldOf(u, i)(w.flights[j]) <= both(w.flights[j]) {
      HoldsMoreThanItCosts(w, j, u, i);
    }
    SumPlus(w.flights, DueShares(u, i), HeldSharesOf(u, w.shadow.current, i), both);
    SumIsLess(w.flights, SoldOf(u, i), both);
  }

  /** While the shadow covers every order in flight, so does the database. */
  lemma CoversPromise(w: World, u: int)
    requires WorldInv(w) && u in w.clean && Covers(w, u)
    ensures Promised(w, u)
  {
    assert Agrees(w, u);
    forall k | 0 <= k < |w.flights| && Waits(w.flights[k], u)
      ensures Mine(w.flights[k], u) && Backed(w.quotes, w.flights[k])
    {
    }
    forall k | 0 <= k < |w.flights| && WaitsTo(w.flights[k], u, Buy)
      ensures CashFold(w.rows, u) >= Sum(w.flights, CostOf(w.quotes, u))
    {
      assert MarketMine(w.flights[k], u, Buy);
      CashIsPromised(w, u);
    }
    forall k | 0 <= k < |w.flights| && WaitsTo(w.flights[k], u, Sell)
      ensures var i := w.flights[k].res.order.instrumentId; SharesFold(w.rows, u, i) >= Sum(w.flights, SoldOf(u, i))
    {
      SharesArePromised(w, u, k);
    }
  }

  /* ---- What the target does with such an order ---- */

  lemma WaitingCosts(w: World, u: int)
    requires WorldInv(w) && Promised(w, u)
    ensures forall j :: 0 <= j < |w.flights| ==>
              CostOf(w.quotes, u)(w.flights[j]) >= 0 && forall i :: SoldOf(u, i)(w.flights[j]) >= 0
  {
    forall j | 0 <= j < |w.flights|
      ensures CostOf(w.quotes, u)(w.flights[j]) >= 0 && forall i :: SoldOf(u, i)(w.flights[j]) >= 0
    {
      var order := w.flights[j].res.order;
      assert WellFormed(ToRequest(order, ""));
      if WaitsTo(w.flights[j], u, Buy) {
        assert CloseOf(w.quotes, order.instrumentId) * order.size >= 0;
      }
    }
  }

  /** So whichever it comes to next, it fills, given up on or not. */
  lemma PromisedFills(w: World, k: nat, id: int, key: Key)
    requires WorldInv(w) && Can(w, Process(k, id, key))
    requires var u := w.flights[k].res.order.userId; u in w.users && Promised(w, u) && Waits(w.flights[k], u)
    ensures var a := TargetAnswer(w, w.flights[k].res.order, id, key);
            && a.Created? && a.row.status == Filled
            && a.row.price == CloseOf(w.quotes, w.flights[k].res.order.instrumentId)
  {
    var order := w.flights[k].res.order;
    var u := order.userId;
    WaitingCosts(w, u);
    SumAtLeast(w.flights, CostOf(w.quotes, u));
    SumAtLeast(w.flights, SoldOf(u, order.instrumentId));
    ViewsAreFolds(w.rows, u, order.instrumentId);
    if order.side.Buy? {
      assert WaitsTo(w.flights[k], u, Buy);
      assert CostOf(w.quotes, u)(w.flights[k]) == CloseOf(w.quotes, order.instrumentId) * order.size;
    } else {
      assert WaitsTo(w.flights[k], u, Sell);
      assert SoldOf(u, order.instrumentId)(w.flights[k]) == order.size;
    }
  }

  /* ---- Nothing the harness forgets takes the cover away ---- */

  /** The waiting orders are some of those that waited, and the cover is no thinner. */
  lemma PromiseFrame(w: World, w': World, u: int)
    requires Promised(w, u) && w'.quotes == w.quotes
    requires forall k :: 0 <= k < |w'.flights| && Waits(w'.flights[k], u) ==>
               k < |w.flights| && Waits(w.flights[k], u) && w'.flights[k].res == w.flights[k].res
    requires CashFold(w'.rows, u) - Sum(w'.flights, CostOf(w.quotes, u))
          >= CashFold(w.rows, u) - Sum(w.flights, CostOf(w.quotes, u))
    requires forall i :: SharesFold(w'.rows, u, i) - Sum(w'.flights, SoldOf(u, i))
                      >= SharesFold(w.rows, u, i) - Sum(w.flights, SoldOf(u, i))
    ensures Promised(w', u)
  {
    forall k | 0 <= k < |w'.flights| && WaitsTo(w'.flights[k], u, Buy)
      ensures CashFold(w'.rows, u) >= Sum(w'.flights, CostOf(w'.quotes, u))
    {
      assert WaitsTo(w.flights[k], u, Buy);
    }
    forall k | 0 <= k < |w'.flights| && WaitsTo(w'.flights[k], u, Sell)
      ensures var i := w'.flights[k].res.order.instrumentId;
              SharesFold(w'.rows, u, i) >= Sum(w'.flights, SoldOf(u, i))
    {
      assert WaitsTo(w.flights[k], u, Sell);
    }
  }

  lemma ChangeWaiting(flights: seq<Flight>, k: nat, f: Flight, quotes: map<int, Quote>, u: int)
    requires k < |flights|
    ensures Sum(flights[k := f], CostOf(quotes, u))
         == Sum(flights, CostOf(quotes, u)) - CostOf(quotes, u)(flights[k]) + CostOf(quotes, u)(f)
    ensures forall i :: Sum(flights[k := f], SoldOf(u, i))
                     == Sum(flights, SoldOf(u, i)) - SoldOf(u, i)(flights[k]) + SoldOf(u, i)(f)
  {
    SumUpdate(flights, k, f, CostOf(quotes, u));
    forall i
      ensures Sum(flights[k := f], SoldOf(u, i))
           == Sum(flights, SoldOf(u, i)) - SoldOf(u, i)(flights[k]) + SoldOf(u, i)(f)
    {
      SumUpdate(flights, k, f, SoldOf(u, i));
    }
  }

  /** An order refused, answered or given up on waits as it did, or no longer. */
  lemma StageKeepsPromise(w: World, w': World, k: nat, u: int)
    requires WorldInv(w) && Promised(w, u) && k < |w.flights| && w'.rows == w.rows && w'.quotes == w.quotes
    requires k < |w'.flights| && w'.flights == SetStage(w, k, w'.flights[k].stage)
    requires Waits(w'.flights[k], u) ==> Waits(w.flights[k], u)
    ensures Promised(w', u)
  {
    ChangeWaiting(w.flights, k, w'.flights[k], w.quotes, u);
    WaitingCosts(w, u);
    PromiseFrame(w, w', u);
  }

  lemma OtherSendKeepsPromise(w: World, order: SimOrder, u: int)
    requires Promised(w, u) && Can(w, Send(order)) && (order.userId == u ==> order.otype.Limit?)
    ensures Promised(After(w, Send(order)), u)
  {
    var w' := After(w, Send(order));
    var f := w'.flights[|w.flights|];
    SumAppend(w.flights, f, CostOf(w.quotes, u));
    forall i ensures Sum(w'.flights, SoldOf(u, i)) == Sum(w.flights, SoldOf(u, i)) {
      SumAppend(w.flights, f, SoldOf(u, i));
    }
    PromiseFrame(w, w', u);
  }

  /** What an order that fills takes, it was promised. */
  lemma FillTakesItsOwn(w: World, k: nat, id: int, key: Key, u: int)
    requires WorldInv(w) && Promised(w, u) && u in w.users && Can(w, Process(k, id, key)) && Waits(w.flights[k], u)
    ensures var heard := HeardOf(w, k, id, key, QuoteOf(w.quotes, w.flights[k].res.order.instrumentId));
            && DueCash(u)(heard) + CostOf(w.quotes, u)(w.flights[k]) >= 0
            && forall i :: DueShares(u, i)(heard) + SoldOf(u, i)(w.flights[k]) >= 0
  {
    PromisedFills(w, k, id, key);
    assert WellFormed(ToRequest(w.flights[k].res.order, ""));
    var quote := QuoteOf(w.quotes, w.flights[k].res.order.instrumentId);
    MovesWhatWaited(w.quotes, w.flights[k], HeardOf(w, k, id, key, quote), u);
  }

  lemma MovesWhatWaited(quotes: map<int, Quote>, f: Flight, heard: Flight, u: int)
    requires Waits(f, u) && f.res.order.size >= 1 && heard.res == f.res
    requires heard.stage == Heard(Some(Execution(Filled, CloseOf(quotes, f.res.order.instrumentId))))
    ensures DueCash(u)(heard) + CostOf(quotes, u)(f) >= 0
    ensures forall i :: DueShares(u, i)(heard) + SoldOf(u, i)(f) >= 0
  {
    var (close, size) := (CloseOf(quotes, f.res.order.instrumentId), f.res.order.size);
    assert -close * size + close * size == 0 && close * size >= 0;
  }

  /** Any other order moves nothing of the user's. */
  lemma OtherFillTakesNothing(w: World, k: nat, id: int, key: Key, u: int)
    requires WorldInv(w) && Can(w, Process(k, id, key)) && !Waits(w.flights[k], u)
    ensures var heard := HeardOf(w, k, id, key, QuoteOf(w.quotes, w.flights[k].res.order.instrumentId));
            DueCash(u)(heard) == 0 && forall i :: DueShares(u, i)(heard) == 0
  {
    assert WellFormed(ToRequest(w.flights[k].res.order, ""));
    HeardAtClose(w, k, id, key);
  }

  lemma LandingFolds(w: World, k: nat, id: int, key: Key, u: int)
    requires Can(w, Process(k, id, key))
    ensures var heard := HeardOf(w, k, id, key, QuoteOf(w.quotes, w.flights[k].res.order.instrumentId));
            var rows' := After(w, Process(k, id, key)).rows;
            && CashFold(rows', u) == CashFold(w.rows, u) + DueCash(u)(heard)
            && forall i :: SharesFold(rows', u, i) == SharesFold(w.rows, u, i) + DueShares(u, i)(heard)
  {
    var quote := QuoteOf(w.quotes, w.flights[k].res.order.instrumentId);
    var heard := HeardOf(w, k, id, key, quote);
    AnswerIsTheMove(w, heard, id, key, quote, u, 0);
    forall i
      ensures SharesFold(After(w, Process(k, id, key)).rows, u, i)
           == SharesFold(w.rows, u, i) + DueShares(u, i)(heard)
    {
      AnswerIsTheMove(w, heard, id, key, quote, u, i);
    }
  }

  lemma ProcessKeepsPromise(w: World, k: nat, id: int, key: Key, u: int)
    requires WorldInv(w) && Promised(w, u) && u in w.users && Can(w, Process(k, id, key))
    ensures Promised(After(w, Process(k, id, key)), u)
  {
    var w' := After(w, Process(k, id, key));
    ProcessedWaitsNoMore(w, k, id, key, u);
    ChangeWaiting(w.flights, k, w'.flights[k], w.quotes, u);
    LandingFolds(w, k, id, key, u);
    if Waits(w.flights[k], u) {
      FillTakesItsOwn(w, k, id, key, u);
    } else {
      OtherFillTakesNothing(w, k, id, key, u);
    }
    PromiseFrame(w, w', u);
  }

  lemma ProcessedWaitsNoMore(w: World, k: nat, id: int, key: Key, u: int)
    requires Can(w, Process(k, id, key))
    ensures var w' := After(w, Process(k, id, key));
            && w'.quotes == w.quotes && k < |w'.flights| && w'.flights == w.flights[k := w'.flights[k]]
            && CostOf(w.quotes, u)(w'.flights[k]) == 0 && (forall i :: SoldOf(u, i)(w'.flights[k]) == 0)
            && !Waits(w'.flights[k], u)
    ensures !Waits(w.flights[k], u) ==>
              CostOf(w.quotes, u)(w.flights[k]) == 0 && forall i :: SoldOf(u, i)(w.flights[k]) == 0
  {
  }

  lemma CancelKeepsPromise(w: World, id: int, u: int)
    requires Promised(w, u)
    ensures Promised(After(w, CancelOrder(id)), u)
  {
    var w' := After(w, CancelOrder(id));
    if Cancel(w.rows, id).0.CancelOk? {
      var at := FindId(w.rows, id).value;
      var row := Cancel(w.rows, id).0.row;
      SumUpdate(w.rows, at, row, CashOf(u));
      forall i ensures SharesFold(w'.rows, u, i) == SharesFold(w.rows, u, i) {
        SumUpdate(w.rows, at, row, SharesOf(u, i));
      }
    }
    PromiseFrame(w, w', u);
  }

  /** An act that keeps promises: closes stand, and a MARKET order of u's goes out only from a shadow
      that is clean and predicts it fills. Answers may be lost, users read again and generations opened. */
  predicate Keeping(w: World, act: Act, u: int) {
    match act
    case Send(order) =>
      order.userId == u && order.otype.Market? ==> u in w.clean && Expect(w.shadow, order).ExpectFilled?
    case MoveClose(_, _) => false
    case ProcessAt(_, _, _, _) => false
    case _ => true
  }

  lemma ActKeepsPromise(w: World, act: Act, u: int)
    requires WorldInv(w) && Promised(w, u) && u in w.users && Keeping(w, act, u)
    requires act.Send? && act.order.userId == u ==> act.order.otype.Limit?
    ensures Promised(After(w, act), u)
  {
    if Can(w, act) {
      match act
      case Send(order) => OtherSendKeepsPromise(w, order, u);
      case Process(k, id, key) => ProcessKeepsPromise(w, k, id, key, u);
      case Refuse(k) => StageKeepsPromise(w, After(w, act), k, u);
      case Deliver(k) => StageKeepsPromise(w, After(w, act), k, u);
      case Vanish(k) => StageKeepsPromise(w, After(w, act), k, u);
      case NewGeneration(_) => PromiseFrame(w, After(w, act), u);
      case SeedUser(_, _, _) => PromiseFrame(w, After(w, act), u);
      case CancelOrder(id) => CancelKeepsPromise(w, id, u);
    }
  }

  /** While the shadow is clean it covers every order; after that the target still does. */
  ghost predicate Kept(w: World, u: int) {
    WorldInv(w) && PricesCurrent(w) && u in w.users && if u in w.clean then Covers(w, u) else Promised(w, u)
  }

  lemma KeptIsPromised(w: World, u: int)
    requires Kept(w, u)
    ensures Promised(w, u)
  {
    if u in w.clean {
      CoversPromise(w, u);
    }
  }

  /** Only a seed with nothing in flight makes a user clean. */
  lemma CleanAgain(w: World, act: Act, u: int)
    requires u in After(w, act).clean && After(w, act) != w && Keeping(w, act, u)
    requires !(u in w.clean && Benign(w, act, u))
    ensures Grounded(After(w, act), u)
  {
  }

  lemma KeptStep(w: World, act: Act, u: int)
    requires Kept(w, u) && Keeping(w, act, u)
    ensures Kept(After(w, act), u) && After(w, act).users == w.users
  {
    if u in w.clean && Benign(w, act, u) {
      BenignStep(w, act, u);
    } else {
      KeptIsPromised(w, u);
      ActKeepsPromise(w, act, u);
      AfterKeeps(w, act);
      PricesStayCurrent(w, act);
      UsersStand(w, act);
      if u in After(w, act).clean && After(w, act) != w {
        CleanAgain(w, act, u);
        GroundedCovers(After(w, act), u);
      }
    }
  }

  lemma UsersStand(w: World, act: Act)
    ensures After(w, act).users == w.users
  {
  }

  ghost predicate KeepingRun(w: World, acts: seq<Act>, u: int) {
    forall n :: 0 <= n < |acts| ==> Keeping(Acts(w, acts[..n]), acts[n], u)
  }

  lemma KeepingPrefix(w: World, acts: seq<Act>, u: int)
    requires KeepingRun(w, acts, u) && acts != []
    ensures var n := |acts| - 1; KeepingRun(w, acts[..n], u) && Keeping(Acts(w, acts[..n]), acts[n], u)
  {
    var n := |acts| - 1;
    assert forall m :: 0 <= m < n ==> acts[..n][..m] == acts[..m];
  }

  lemma KeepingUpTo(w: World, acts: seq<Act>, u: int, n: nat)
    requires KeepingRun(w, acts, u) && n <= |acts|
    ensures KeepingRun(w, acts[..n], u)
  {
    assert forall m :: 0 <= m < n ==> acts[..n][..m] == acts[..m];
  }

  lemma {:induction false} KeepingRunKeeps(w: World, acts: seq<Act>, u: int)
    requires Kept(w, u) && KeepingRun(w, acts, u)
    ensures Kept(Acts(w, acts), u)
  {
    if acts != [] {
      var n := |acts| - 1;
      KeepingPrefix(w, acts, u);
      KeepingRunKeeps(w, acts[..n], u);
      KeptStep(Acts(w, acts[..n]), acts[n], u);
    }
  }

  lemma GroundedIsKept(w: World, u: int)
    requires WorldInv(w) && PricesCurrent(w) && u in w.clean && u in w.users && Grounded(w, u)
    ensures Kept(w, u)
  {
    GroundedCovers(w, u);
  }

  /** Prediction soundness: from a cleanly seeded user with nothing in flight and current prices, in any
      run that keeps the closes and sends the user's MARKET orders only while the shadow is clean and
      predicts that they fill, the target fills every one of them it processes: whatever the order it
      processes them in, whichever others are shed, however the answers come back, and after any of
      them is lost, the shadow read again or its generation closed. */
  lemma PredictedFillsFill(w: World, acts: seq<Act>, u: int, n: nat)
    requires WorldInv(w) && PricesCurrent(w) && u in w.clean && u in w.users && Grounded(w, u)
    requires KeepingRun(w, acts, u) && n < |acts| && acts[n].Process? && Can(Acts(w, acts[..n]), acts[n])
    requires Waits(Acts(w, acts[..n]).flights[acts[n].k], u)
    ensures var before, after := Acts(w, acts[..n]), Acts(w, acts[..n + 1]);
            && |after.rows| == |before.rows| + 1 && after.rows[|before.rows|].status == Filled
            && acts[n].k < |after.flights|
            && (before.flights[acts[n].k].stage.Sent? ==>
                  var f := after.flights[acts[n].k];
                  f.stage.Heard? && f.stage.exec.Some? && f.stage.exec.value.status == Filled)
  {
    GroundedIsKept(w, u);
    KeepingUpTo(w, acts, u, n);
    KeepingRunKeeps(w, acts[..n], u);
    assert acts[..n + 1][..n] == acts[..n];
    KeptFills(Acts(w, acts[..n]), u, acts[n].k, acts[n].id, acts[n].key);
  }

  lemma KeptFills(w: World, u: int, k: nat, id: int, key: Key)
    requires Kept(w, u) && Can(w, Process(k, id, key)) && Waits(w.flights[k], u)
    ensures var after := After(w, Process(k, id, key));
            && |after.rows| == |w.rows| + 1 && after.rows[|w.rows|].status == Filled && k < |after.flights|
            && (w.flights[k].stage.Sent? ==>
                  var f := after.flights[k];
                  f.stage.Heard? && f.stage.exec.Some? && f.stage.exec.value.status == Filled)
  {
    KeptIsPromised(w, u);
    PromisedFills(w, k, id, key);
  }
}
