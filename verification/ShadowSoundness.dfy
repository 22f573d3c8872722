/** What the shadow's numbers and predictions are worth. */
module ShadowSoundness {
  import opened OrderRules
  import opened SeqSum
  import opened Ledger
  import opened Placement
  import opened Protocol
  import opened Portfolio
  import opened ShadowLedger
  import opened ShadowWorld

  lemma Reached(w: World, acts: seq<Act>)
    requires Fresh(w)
    ensures WorldInv(Acts(w, acts))
  {
    ActsKeep(w, acts);
  }

  /* ---- Bookkeeping ---- */

  /** Over any run, a user's outstanding count and holds are the sums over its live reservations,
      and nothing outstanding means no reservation is live. */
  lemma BooksBalance(w: World, acts: seq<Act>, u: int)
    requires Fresh(w) && u in Acts(w, acts).shadow.users
    ensures var w' := Acts(w, acts);
            && Booked(w'.flights, w'.shadow.users[u], u, w'.shadow.current)
            && w'.shadow.users[u].outstanding >= 0
            && (w'.shadow.users[u].outstanding == 0 <==>
                  forall k :: 0 <= k < |w'.flights| ==> !Live(w'.flights[k], u, w'.shadow.current))
  {
    Reached(w, acts);
    var w' := Acts(w, acts);
    NoneLiveIffNoneOutstanding(w'.flights, u, w'.shadow.current);
  }

  lemma NoneLiveIffNoneOutstanding(flights: seq<Flight>, u: int, generation: int)
    ensures Sum(flights, CountOf(u, generation)) >= 0
    ensures Sum(flights, CountOf(u, generation)) == 0 <==>
            forall k :: 0 <= k < |flights| ==> !Live(flights[k], u, generation)
  {
    SumAtLeast(flights, CountOf(u, generation));
    if forall k :: 0 <= k < |flights| ==> !Live(flights[k], u, generation) {
      SumZero(flights, CountOf(u, generation));
    } else {
      var k :| 0 <= k < |flights| && Live(flights[k], u, generation);
      assert CountOf(u, generation)(flights[k]) == 1;
    }
  }

  /** With nothing outstanding nothing is held. */
  lemma NothingHeld(w: World, u: int)
    requires WorldInv(w) && u in w.shadow.users && w.shadow.users[u].outstanding == 0
    ensures w.shadow.users[u].heldCash == 0
    ensures forall i :: Get(w.shadow.users[u].heldShares, i) == 0
  {
    NoneLiveIffNoneOutstanding(w.flights, u, w.shadow.current);
    SumZero(w.flights, HeldCashOf(u, w.shadow.current));
    forall i ensures Sum(w.flights, HeldSharesOf(u, w.shadow.current, i)) == 0 {
      SumZero(w.flights, HeldSharesOf(u, w.shadow.current, i));
    }
  }

  /** A predicted rejection means the order is short of the user's whole balance. */
  lemma RejectedMeansShort(w: World, acts: seq<Act>, order: SimOrder)
    requires Fresh(w) && Expect(Acts(w, acts).shadow, order).ExpectRejected?
    ensures var sh := Acts(w, acts).shadow;
            var user := sh.users[order.userId];
            if order.side.Buy? then user.cash < sh.prices[order.instrumentId] * order.size
            else Get(user.shares, order.instrumentId) < order.size
  {
    Reached(w, acts);
    NothingHeld(Acts(w, acts), order.userId);
  }

  /* ---- Agreement ---- */

  /** Whenever a cleanly seeded user has nothing outstanding, the shadow's cash and shares are the
      database folds, whatever order the answers came back in and however the closes moved. */
  lemma ShadowAgrees(w: World, acts: seq<Act>, u: int)
    requires Fresh(w) && u in Acts(w, acts).clean
    requires u in Acts(w, acts).shadow.users && Acts(w, acts).shadow.users[u].outstanding == 0
    ensures var w' := Acts(w, acts);
            && w'.shadow.users[u].cash == AvailableCash(w'.rows, u)
            && forall i :: Listed(w'.quotes, i) ==> Get(w'.shadow.users[u].shares, i) == HeldShares(w'.rows, u, i)
  {
    Reached(w, acts);
    QuietAgrees(Acts(w, acts), u);
  }

  lemma QuietAgrees(w: World, u: int)
    requires WorldInv(w) && u in w.clean && u in w.shadow.users && w.shadow.users[u].outstanding == 0
    ensures w.shadow.users[u].cash == AvailableCash(w.rows, u)
    ensures forall i :: Listed(w.quotes, i) ==> Get(w.shadow.users[u].shares, i) == HeldShares(w.rows, u, i)
  {
    assert Agrees(w, u);
    NoneLiveIffNoneOutstanding(w.flights, u, w.shadow.current);
    SumZero(w.flights, DueCash(u));
    ViewsAreFolds(w.rows, u, 0);
    forall i | Listed(w.quotes, i) ensures Get(w.shadow.users[u].shares, i) == HeldShares(w.rows, u, i) {
      SumZero(w.flights, DueShares(u, i));
      ViewsAreFolds(w.rows, u, i);
    }
  }

  /* ---- Prediction ---- */

  predicate AtClose(quotes: map<int, Quote>, instrument: int, price: int) {
    var quote := QuoteOf(quotes, instrument);
    quote.Quote? && !quote.moneda && quote.close.Some? && quote.close.value == price
  }

  predicate PriceHeard(f: Flight) {
    f.stage.Heard? && f.stage.exec.Some? && f.res.order.otype.Market?
  }

  /** Every learned price, and every one about to be learned, is the instrument's close. */
  predicate PricesCurrent(w: World) {
    && (forall i :: i in w.shadow.prices ==> AtClose(w.quotes, i, w.shadow.prices[i]))
    && (forall k :: 0 <= k < |w.flights| && PriceHeard(w.flights[k]) ==>
          AtClose(w.quotes, w.flights[k].res.order.instrumentId, w.flights[k].stage.exec.value.price))
  }

  /** Sending to an instrument whose price is known and current, from a user with nothing
      outstanding: the prediction is exactly the decision the target would take now. */
  lemma AloneTheShadowIsExact(w: World, order: SimOrder, id: int, key: Key)
    requires WorldInv(w) && order.userId in w.clean && order.userId in w.shadow.users
    requires w.shadow.users[order.userId].outstanding == 0
    requires order.userId in w.users && ByKey(w.rows, order.userId, key).None?
    requires order.otype.Market? && WellFormed(ToRequest(order, key))
    requires order.instrumentId in w.shadow.prices && PricesCurrent(w)
    ensures var a := TargetAnswer(w, order, id, key);
            && a.Created?
            && (Expect(w.shadow, order).ExpectFilled? <==> a.row.status == Filled)
            && (Expect(w.shadow, order).ExpectRejected? <==> a.row.status == Rejected)
  {
    assert Agrees(w, order.userId);
    QuietAgrees(w, order.userId);
    NothingHeld(w, order.userId);
    assert AtClose(w.quotes, order.instrumentId, w.shadow.prices[order.instrumentId]);
  }

  predicate Mine(f: Flight, u: int) { InFlight(f) && f.res.order.userId == u }

  /** An order in flight that the shadow has accounted for in full: a LIMIT order moves nothing;
      a MARKET order is predicted to fill and holds what it will consume at the close. */
  predicate Backed(quotes: map<int, Quote>, f: Flight) {
    var r := f.res;
    if r.order.otype.Limit? then r.heldCash == 0 && r.heldShares == 0 && !FillHeard(f, r.order.userId)
    else
      && r.expectation.ExpectFilled? && r.order.size >= 1
      && (if r.order.side.Buy? then
            r.heldShares == 0 && r.heldCash == CloseOf(quotes, r.order.instrumentId) * r.order.size
            && AtClose(quotes, r.order.instrumentId, CloseOf(quotes, r.order.instrumentId))
          else r.heldCash == 0 && r.heldShares == r.order.size
               && AtClose(quotes, r.order.instrumentId, CloseOf(quotes, r.order.instrumentId)))
      && (f.stage.Heard? && f.stage.exec.Some? ==> f.stage.exec.value.price == CloseOf(quotes, r.order.instrumentId))
  }

  predicate MarketMine(f: Flight, u: int, side: Side) {
    Mine(f, u) && f.res.order.otype.Market? && f.res.order.side == side
  }

  /** What is left after every hold is not negative wherever something is held. */
  ghost predicate Covers(w: World, u: int) {
    && u in w.shadow.users
    && (forall k :: 0 <= k < |w.flights| && Mine(w.flights[k], u) ==> Backed(w.quotes, w.flights[k]))
    && ((exists k :: 0 <= k < |w.flights| && MarketMine(w.flights[k], u, Buy)) ==>
          w.shadow.users[u].cash - w.shadow.users[u].heldCash >= 0)
    && (forall k :: 0 <= k < |w.flights| && MarketMine(w.flights[k], u, Sell) ==>
          var i := w.flights[k].res.order.instrumentId;
          Get(w.shadow.users[u].shares, i) - Get(w.shadow.users[u].heldShares, i) >= 0)
  }

  /** What an order took from the database it had held in the shadow. */
  lemma BackedNetsOut(w: World, j: nat, u: int, i: int)
    requires j < |w.flights| && Agrees(w, u) && Covers(w, u)
    ensures DueCash(u)(w.flights[j]) + HeldCashOf(u, w.shadow.current)(w.flights[j]) >= 0
    ensures DueShares(u, i)(w.flights[j]) + HeldSharesOf(u, w.shadow.current, i)(w.flights[j]) >= 0
  {
    var f := w.flights[j];
    if Mine(f, u) {
      assert Backed(w.quotes, f);
      if f.res.order.otype.Market? {
        assert CloseOf(w.quotes, f.res.order.instrumentId) * f.res.order.size >= 0;
      }
    }
  }

  /* ---- The acts a cover survives ---- */

  /** An act that keeps a clean shadow of u's clean, and its word good: closes stand, nothing of u's is
      lost or re-read, and every MARKET order of u's is sent with a predicted fill. */
  predicate Benign(w: World, act: Act, u: int) {
    match act
    case Send(order) => order.userId == u && order.otype.Market? ==> Expect(w.shadow, order).ExpectFilled?
    case Vanish(k) => k < |w.flights| ==> w.flights[k].res.order.userId != u
    case SeedUser(_, user, _) => user != u
    case NewGeneration(_) => false
    case MoveClose(_, _) => false
    case ProcessAt(_, _, _, _) => false
    case _ => true
  }

  lemma PricesStayCurrent(w: World, act: Act)
    requires WorldInv(w) && PricesCurrent(w) && !act.MoveClose? && !act.ProcessAt?
    ensures PricesCurrent(After(w, act))
  {
    if act.Process? && Can(w, act) {
      var order := w.flights[act.k].res.order;
      var a := TargetAnswer(w, order, act.id, act.key);
      if a.Created? && order.otype.Market? {
        assert AtClose(w.quotes, order.instrumentId, a.row.price);
      }
    }
  }

  /** A flight of u's that changes no more than its stage, to one that is still backed. */
  lemma StageKeepsCovers(w: World, w': World, k: nat, u: int)
    requires Covers(w, u) && k < |w.flights| && w'.quotes == w.quotes && w'.shadow.users == w.shadow.users
    requires |w'.flights| == |w.flights| && w'.flights == SetStage(w, k, w'.flights[k].stage)
    requires Mine(w'.flights[k], u) ==> Mine(w.flights[k], u) && Backed(w.quotes, w'.flights[k])
    ensures Covers(w', u)
  {
    forall j | 0 <= j < |w'.flights| && Mine(w'.flights[j], u) ensures Mine(w.flights[j], u) {}
    if j :| 0 <= j < |w'.flights| && MarketMine(w'.flights[j], u, Buy) {
      assert MarketMine(w.flights[j], u, Buy);
    }
    forall j | 0 <= j < |w'.flights| && MarketMine(w'.flights[j], u, Sell) ensures MarketMine(w.flights[j], u, Sell) {}
  }

  /** What sending does to what its user has unheld. */
  lemma SendKeepsSlack(w: World, order: SimOrder, u: int)
    requires u in w.shadow.users
    ensures var before, after := w.shadow.users[u], Reserve(w.shadow, order).users[u];
            var predicted := order.userId == u && Expect(w.shadow, order).ExpectFilled?;
            && after.cash == before.cash && after.shares == before.shares
            && (if predicted && order.side.Buy? then after.cash - after.heldCash >= 0
                else after.heldCash == before.heldCash)
            && (forall i :: if predicted && order.side.Sell? && i == order.instrumentId
                            then Get(after.shares, i) - Get(after.heldShares, i) >= 0
                            else Get(after.heldShares, i) == Get(before.heldShares, i))
  {
  }

  lemma NewFlightIsBacked(w: World, order: SimOrder)
    requires PricesCurrent(w) && WellFormed(ToRequest(order, ""))
    requires order.otype.Market? ==> Expect(w.shadow, order).ExpectFilled?
    ensures Backed(w.quotes, Flight(ReservationFor(w.shadow, order), Sent))
  {
    if order.otype.Market? {
      assert AtClose(w.quotes, order.instrumentId, w.shadow.prices[order.instrumentId]);
    }
  }

  lemma SendKeepsCovers(w: World, order: SimOrder, u: int)
    requires PricesCurrent(w) && Covers(w, u)
    requires Can(w, Send(order)) && Benign(w, Send(order), u)
    ensures Covers(After(w, Send(order)), u)
  {
    var w' := After(w, Send(order));
    var n := |w.flights|;
    SendKeepsSlack(w, order, u);
    assert forall j :: 0 <= j < n ==> w'.flights[j] == w.flights[j];
    forall j | 0 <= j < |w'.flights| && Mine(w'.flights[j], u) ensures Backed(w'.quotes, w'.flights[j]) {
      if j == n {
        NewFlightIsBacked(w, order);
      }
    }
    if j :| 0 <= j < |w'.flights| && MarketMine(w'.flights[j], u, Buy) {
      assert j < n ==> MarketMine(w.flights[j], u, Buy);
    }
    forall j | 0 <= j < |w'.flights| && MarketMine(w'.flights[j], u, Sell)
      ensures var i := w'.flights[j].res.order.instrumentId;
              Get(w'.shadow.users[u].shares, i) - Get(w'.shadow.users[u].heldShares, i) >= 0
    {
      assert j < n ==> MarketMine(w.flights[j], u, Sell);
    }
  }

  lemma ProcessKeepsCovers(w: World, k: nat, id: int, key: Key, u: int)
    requires WorldInv(w) && Covers(w, u) && Can(w, Process(k, id, key))
    ensures Covers(After(w, Process(k, id, key)), u)
  {
    var w' := After(w, Process(k, id, key));
    var order := w.flights[k].res.order;
    if Mine(w'.flights[k], u) {
      assert Mine(w.flights[k], u) && Backed(w.quotes, w.flights[k]);
      HeardAtClose(w, k, id, key);
    }
    StageKeepsCovers(w, w', k, u);
  }

  /** A MARKET answer reports the close; a LIMIT order is never filled. */
  lemma HeardAtClose(w: World, k: nat, id: int, key: Key)
    requires Can(w, Process(k, id, key)) && WellFormed(ToRequest(w.flights[k].res.order, ""))
    ensures var order := w.flights[k].res.order;
            var a := TargetAnswer(w, order, id, key);
            a.Created? ==> if order.otype.Market? then a.row.price == CloseOf(w.quotes, order.instrumentId)
                           else a.row.status != Filled
    ensures !TargetAnswer(w, w.flights[k].res.order, id, key).Replayed?
  {
  }

  lemma DeliverKeepsCovers(w: World, k: nat, u: int)
    requires WorldInv(w) && u in w.clean && Covers(w, u) && Can(w, Deliver(k))
    ensures Covers(After(w, Deliver(k)), u)
  {
    var w' := After(w, Deliver(k));
    var f := w.flights[k];
    assert Agrees(w, u);
    forall j | 0 <= j < |w'.flights| && Mine(w'.flights[j], u) ensures j != k && Mine(w.flights[j], u) {}
    if Mine(f, u) {
      assert Backed(w.quotes, f);
      LandingKeepsSlack(w, k, u);
    } else {
      assert w'.shadow.users[u] == w.shadow.users[u];
    }
    if j :| 0 <= j < |w'.flights| && MarketMine(w'.flights[j], u, Buy) {
      assert MarketMine(w.flights[j], u, Buy);
    }
    forall j | 0 <= j < |w'.flights| && MarketMine(w'.flights[j], u, Sell)
      ensures var i := w'.flights[j].res.order.instrumentId;
              Get(w'.shadow.users[u].shares, i) - Get(w'.shadow.users[u].heldShares, i) >= 0
    {
      assert MarketMine(w.flights[j], u, Sell);
    }
  }

  /** Settling a backed order leaves at least as much unheld as before. */
  lemma LandingKeepsSlack(w: World, k: nat, u: int)
    requires Can(w, Deliver(k)) && Mine(w.flights[k], u) && Backed(w.quotes, w.flights[k]) && Agrees(w, u)
    requires WellFormed(ToRequest(w.flights[k].res.order, ""))
    ensures var before, after := w.shadow.users[u], After(w, Deliver(k)).shadow.users[u];
            && after.cash - after.heldCash >= before.cash - before.heldCash
            && forall i :: Get(after.shares, i) - Get(after.heldShares, i)
                        >= Get(before.shares, i) - Get(before.heldShares, i)
  {
    var order := w.flights[k].res.order;
    assert CloseOf(w.quotes, order.instrumentId) * order.size >= 0;
  }

  lemma RefuseKeepsCovers(w: World, k: nat, u: int)
    requires Covers(w, u) && Can(w, Refuse(k))
    ensures Covers(After(w, Refuse(k)), u)
  {
    if Mine(After(w, Refuse(k)).flights[k], u) {
      assert Backed(w.quotes, w.flights[k]);
    }
    StageKeepsCovers(w, After(w, Refuse(k)), k, u);
  }

  lemma BenignStaysClean(w: World, act: Act, u: int)
    requires u in w.clean && Benign(w, act, u)
    ensures u in After(w, act).clean && After(w, act).users == w.users
  {
  }

  lemma BenignKeepsCovers(w: World, act: Act, u: int)
    requires WorldInv(w) && PricesCurrent(w) && u in w.clean && Covers(w, u) && Benign(w, act, u)
    ensures Covers(After(w, act), u)
  {
    if Can(w, act) {
      match act
      case Send(order) => SendKeepsCovers(w, order, u);
      case Process(k, id, key) => ProcessKeepsCovers(w, k, id, key, u);
      case Refuse(k) => RefuseKeepsCovers(w, k, u);
      case Deliver(k) => DeliverKeepsCovers(w, k, u);
      case Vanish(k) => OthersKeepCovers(w, act, u);
      case SeedUser(_, _, _) => OthersKeepCovers(w, act, u);
      case CancelOrder(_) => OthersKeepCovers(w, act, u);
    }
  }

  lemma OthersKeepCovers(w: World, act: Act, u: int)
    requires Covers(w, u) && Benign(w, act, u) && Can(w, act) && (act.Vanish? || act.SeedUser? || act.CancelOrder?)
    ensures Covers(After(w, act), u)
  {
    var w' := After(w, act);
    assert forall j :: 0 <= j < |w'.flights| && Mine(w'.flights[j], u) ==> w'.flights[j] == w.flights[j];
    if j :| 0 <= j < |w'.flights| && MarketMine(w'.flights[j], u, Buy) {
      assert MarketMine(w.flights[j], u, Buy);
    }
  }

  lemma GroundedCovers(w: World, u: int)
    requires Agrees(w, u) && Grounded(w, u)
    ensures Covers(w, u)
  {
  }

  lemma BenignStep(w: World, act: Act, u: int)
    requires WorldInv(w) && PricesCurrent(w) && u in w.clean && Covers(w, u) && Benign(w, act, u)
    ensures var w' := After(w, act);
            WorldInv(w') && PricesCurrent(w') && u in w'.clean && Covers(w', u) && w'.users == w.users
  {
    AfterKeeps(w, act);
    PricesStayCurrent(w, act);
    BenignKeepsCovers(w, act, u);
    BenignStaysClean(w, act, u);
  }
}
