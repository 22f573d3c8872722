/** How much the shadow foresees: an order it covers is one no run refuses, and, once it has heard what was
    answered, one that no run refuses is an order it covers. */
module ShadowForesight {
  import opened Options
  import opened OrderRules
  import opened SeqSum
  import opened Ledger
  import opened Placement
  import opened Portfolio
  import opened ShadowLedger
  import opened ShadowWorld
  import opened ShadowSoundness
  import opened ShadowPromises
  import opened ShadowRefusals

  /* ---- The orders that compete with one ---- */

  /** Order j is the user's, waits at the target, and takes what an order to this side of i takes. */
  predicate Rival(v: World, u: int, side: TradeSide, i: int, j: nat) {
    j < |v.flights| && WaitsTo(v.flights[j], u, side) && (side.Sell? ==> v.flights[j].res.order.instrumentId == i)
  }

  /** Those among the first m, in the order they were sent. */
  function Rivals(v: World, u: int, side: TradeSide, i: int, m: nat): (p: seq<nat>)
    ensures forall j: nat :: j in p <==> j < m && Rival(v, u, side, i, j)
    ensures NoRepeats(p)
  {
    if m == 0 then []
    else
      var last: nat := m - 1;
      var before := Rivals(v, u, side, i, last);
      if Rival(v, u, side, i, last) then before + [last] else before
  }

  /** What a rival takes is what it moves; any other order takes nothing. */
  lemma BuyerTakes(v: World, u: int, i: int, j: nat)
    requires j < |v.flights|
    ensures CostOf(v.quotes, u)(v.flights[j]) == if Rival(v, u, Buy, i, j) then -CashMoveAt(v)(j) else 0
  {
  }

  lemma SellerTakes(v: World, u: int, i: int, j: nat)
    requires j < |v.flights|
    ensures SoldOf(u, i)(v.flights[j]) == if Rival(v, u, Sell, i, j) then -ShareMoveAt(v, i)(j) else 0
  {
  }

  /** What they leave is the balance without what they take. */
  lemma {:induction false} BuyersLeave(v: World, u: int, i: int, m: nat)
    requires m <= |v.flights|
    ensures CashAfter(v, u, Rivals(v, u, Buy, i, m)) == CashFold(v.rows, u) - Sum(v.flights[..m], CostOf(v.quotes, u))
  {
    if m > 0 {
      var last: nat := m - 1;
      BuyersLeave(v, u, i, last);
      assert v.flights[..m] == v.flights[..last] + [v.flights[last]];
      SumAppend(v.flights[..last], v.flights[last], CostOf(v.quotes, u));
      SumAppend<nat>(Rivals(v, u, Buy, i, last), last, CashMoveAt(v));
      BuyerTakes(v, u, i, last);
    }
  }

  lemma {:induction false} SellersLeave(v: World, u: int, i: int, m: nat)
    requires m <= |v.flights|
    ensures SharesAfter(v, u, Rivals(v, u, Sell, i, m), i)
         == SharesFold(v.rows, u, i) - Sum(v.flights[..m], SoldOf(u, i))
  {
    if m > 0 {
      var last: nat := m - 1;
      SellersLeave(v, u, i, last);
      assert v.flights[..m] == v.flights[..last] + [v.flights[last]];
      SumAppend(v.flights[..last], v.flights[last], SoldOf(u, i));
      SumAppend<nat>(Rivals(v, u, Sell, i, last), last, ShareMoveAt(v, i));
      SellerTakes(v, u, i, last);
    }
  }

  /** Where the balance covers them all they can fill one after the other. */
  lemma {:induction false} BuyersFill(v: World, u: int, i: int, m: nat)
    requires m <= |v.flights| && forall j :: 0 <= j < m ==> CostOf(v.quotes, u)(v.flights[j]) >= 0
    requires forall j: nat :: j < m && Rival(v, u, Buy, i, j) ==> Fillable(v, j, u)
    requires Sum(v.flights[..m], CostOf(v.quotes, u)) <= CashFold(v.rows, u)
    ensures FillInTurn(v, u, Rivals(v, u, Buy, i, m))
  {
    if m > 0 {
      var last: nat := m - 1;
      assert v.flights[..m] == v.flights[..last] + [v.flights[last]];
      SumAppend(v.flights[..last], v.flights[last], CostOf(v.quotes, u));
      BuyersFill(v, u, i, last);
      if Rival(v, u, Buy, i, last) {
        BuyersLeave(v, u, i, last);
        BuyerTakes(v, u, i, last);
        assert PaysFor(v, u, Rivals(v, u, Buy, i, last), last);
        FillOneMore(v, u, Rivals(v, u, Buy, i, last), last);
      }
    }
  }

  lemma {:induction false} SellersFill(v: World, u: int, i: int, m: nat)
    requires m <= |v.flights| && forall j :: 0 <= j < m ==> SoldOf(u, i)(v.flights[j]) >= 0
    requires forall j: nat :: j < m && Rival(v, u, Sell, i, j) ==> Fillable(v, j, u)
    requires Sum(v.flights[..m], SoldOf(u, i)) <= SharesFold(v.rows, u, i)
    ensures FillInTurn(v, u, Rivals(v, u, Sell, i, m))
  {
    if m > 0 {
      var last: nat := m - 1;
      assert v.flights[..m] == v.flights[..last] + [v.flights[last]];
      SumAppend(v.flights[..last], v.flights[last], SoldOf(u, i));
      SellersFill(v, u, i, last);
      if Rival(v, u, Sell, i, last) {
        SellersLeave(v, u, i, last);
        SellerTakes(v, u, i, last);
        assert PaysFor(v, u, Rivals(v, u, Sell, i, last), last);
        FillOneMore(v, u, Rivals(v, u, Sell, i, last), last);
      }
    }
  }

  /* ---- What the database has to spare ---- */

  /** Of the balance an order of this side of i is paid from, what its rivals in flight leave. */
  function Spare(w: World, u: int, side: TradeSide, i: int): int {
    if side.Buy? then CashFold(w.rows, u) - Sum(w.flights, CostOf(w.quotes, u))
    else SharesFold(w.rows, u, i) - Sum(w.flights, SoldOf(u, i))
  }

  /** What a MARKET order takes of it at the close. */
  function Needs(w: World, order: SimOrder): int {
    if order.side.Buy? then CloseOf(w.quotes, order.instrumentId) * order.size else order.size
  }

  /** The order has just been sent, behind those in flight. */
  predicate JustSent(w: World, v: World, order: SimOrder) {
    && v.rows == w.rows && v.users == w.users && v.quotes == w.quotes && |v.flights| == |w.flights| + 1
    && v.flights == w.flights + [v.flights[|w.flights|]]
    && v.flights[|w.flights|].stage.Sent? && v.flights[|w.flights|].res.order == order
  }

  lemma SpareTaken(w: World, v: World, order: SimOrder, i: int)
    requires JustSent(w, v, order) && order.otype.Market?
    ensures var u := order.userId;
            && Sum(v.flights, CostOf(v.quotes, u))
               == Sum(w.flights, CostOf(w.quotes, u)) + (if order.side.Buy? then Needs(w, order) else 0)
            && Sum(v.flights, SoldOf(u, i))
               == Sum(w.flights, SoldOf(u, i))
                  + (if order.side.Sell? && order.instrumentId == i then Needs(w, order) else 0)
  {
    var u := order.userId;
    SumAppend(w.flights, v.flights[|w.flights|], CostOf(w.quotes, u));
    SumAppend(w.flights, v.flights[|w.flights|], SoldOf(u, i));
  }

  /** With enough to spare the database covers the newcomer with all the rest. */
  lemma SpareCovers(w: World, v: World, order: SimOrder)
    requires JustSent(w, v, order) && order.otype.Market? && Promised(w, order.userId)
    requires AtClose(w.quotes, order.instrumentId, CloseOf(w.quotes, order.instrumentId))
    requires Spare(w, order.userId, order.side, order.instrumentId) >= Needs(w, order)
    ensures Promised(v, order.userId)
  {
    var (u, n) := (order.userId, |w.flights|);
    assert forall k :: 0 <= k < n ==> v.flights[k] == w.flights[k];
    SpareTaken(w, v, order, order.instrumentId);
    forall k | 0 <= k < |v.flights| && Waits(v.flights[k], u)
      ensures var i := v.flights[k].res.order.instrumentId; AtClose(v.quotes, i, CloseOf(v.quotes, i))
    {
      assert k < n ==> Waits(w.flights[k], u);
    }
    forall k | 0 <= k < |v.flights| && WaitsTo(v.flights[k], u, Buy)
      ensures CashFold(v.rows, u) >= Sum(v.flights, CostOf(v.quotes, u))
    {
      assert k < n ==> WaitsTo(w.flights[k], u, Buy);
    }
    forall k | 0 <= k < |v.flights| && WaitsTo(v.flights[k], u, Sell)
      ensures var i := v.flights[k].res.order.instrumentId; SharesFold(v.rows, u, i) >= Sum(v.flights, SoldOf(u, i))
    {
      assert k < n ==> WaitsTo(w.flights[k], u, Sell);
      SpareTaken(w, v, order, v.flights[k].res.order.instrumentId);
    }
  }

  /* ---- Covered orders are never refused ---- */

  lemma UndisturbedKeeps(w: World, act: Act, u: int)
    requires WorldInv(w) && Promised(w, u) && u in w.users && Undisturbed(act, u)
    ensures var w' := After(w, act); WorldInv(w') && Promised(w', u) && u in w'.users
  {
    AfterKeeps(w, act);
    ActKeepsPromise(w, act, u);
    UsersStand(w, act);
  }

  lemma {:induction false} PromiseHolds(v: World, u: int, acts: seq<Act>)
    requires WorldInv(v) && Promised(v, u) && u in v.users && UndisturbedRun(acts, u)
    ensures var w := Acts(v, acts); WorldInv(w) && Promised(w, u) && u in w.users && Grown(v, w, u)
  {
    if acts != [] {
      var n := |acts| - 1;
      PromiseHolds(v, u, acts[..n]);
      UndisturbedKeeps(Acts(v, acts[..n]), acts[n], u);
      NextGrown(v, Acts(v, acts[..n]), acts[n], u);
    }
  }

  lemma {:induction false} PromisedIsNeverRefused(v: World, u: int, k: nat, acts: seq<Act>)
    requires WorldInv(v) && Promised(v, u) && u in v.users && UndisturbedRun(acts, u)
    requires k < |v.flights| && v.flights[k].stage.Sent? && Waits(v.flights[k], u)
    ensures !HeardRefused(Acts(v, acts), k)
  {
    if acts != [] {
      var n := |acts| - 1;
      var before := Acts(v, acts[..n]);
      PromisedIsNeverRefused(v, u, k, acts[..n]);
      PromiseHolds(v, u, acts[..n]);
      if HeardRefused(After(before, acts[n]), k) {
        HeardByProcess(before, acts[n], k, Rejected);
        PromisedFills(before, k, acts[n].id, acts[n].key);
        assert false;
      }
    }
  }

  /* ---- And short ones can be ---- */

  /** The rivals of the newcomer can all fill first, and leave it what is spare. */
  lemma RivalsGoFirst(w: World, v: World, order: SimOrder)
    requires WorldInv(w) && Promised(w, order.userId) && JustSent(w, v, order)
    ensures var (u, n) := (order.userId, |w.flights|);
            var p := Rivals(v, u, order.side, order.instrumentId, n);
            && FillInTurn(v, u, p) && n !in p
            && (PaysFor(v, u, p, n) <==> Spare(w, u, order.side, order.instrumentId) >= Needs(w, order))
  {
    var (u, i, n) := (order.userId, order.instrumentId, |w.flights|);
    var p := Rivals(v, u, order.side, i, n);
    assert v.flights[..n] == w.flights;
    forall j: nat | j < n && Rival(v, u, order.side, i, j) ensures Fillable(v, j, u) {
      assert v.flights[j] == w.flights[j] && Waits(w.flights[j], u);
    }
    WaitingCosts(w, u);
    if p != [] {
      assert p[0] in p && WaitsTo(w.flights[p[0]], u, order.side);
    }
    if order.side.Buy? {
      if p != [] {
        BuyersFill(v, u, i, n);
      }
      BuyersLeave(v, u, i, n);
    } else {
      if p != [] {
        SellersFill(v, u, i, n);
      }
      SellersLeave(v, u, i, n);
    }
  }

  /** Some run refuses the newcomer exactly when the database has not enough to spare. */
  lemma RefusableIffShort(w: World, v: World, order: SimOrder)
    requires WorldInv(w) && WorldInv(v) && Promised(w, order.userId) && order.userId in w.users
    requires JustSent(w, v, order) && order.otype.Market?
    requires AtClose(w.quotes, order.instrumentId, CloseOf(w.quotes, order.instrumentId))
    ensures var u := order.userId;
            (exists acts :: UndisturbedRun(acts, u) && HeardRefused(Acts(v, acts), |w.flights|)) <==>
            Spare(w, u, order.side, order.instrumentId) < Needs(w, order)
  {
    var (u, n) := (order.userId, |w.flights|);
    assert Fillable(v, n, u) && Waits(v.flights[n], u);
    if Spare(w, u, order.side, order.instrumentId) >= Needs(w, order) {
      SpareCovers(w, v, order);
      forall acts | UndisturbedRun(acts, u) ensures !HeardRefused(Acts(v, acts), n) {
        PromisedIsNeverRefused(v, u, n, acts);
      }
    } else {
      RivalsGoFirst(w, v, order);
      RefusedInSomeRunIff(v, u, n);
    }
  }

  /* ---- What the shadow sees of it ---- */

  /** What an answer on its way will add to what the shadow counts as unheld: of a fill, what it moves and
      no longer holds; of a refusal, what it no longer holds. */
  function News(w: World, u: int, side: TradeSide, i: int): Flight -> int {
    (f: Flight) =>
      if !f.stage.Heard? then 0
      else if side.Buy? then DueCash(u)(f) + HeldCashOf(u, w.shadow.current)(f)
      else DueShares(u, i)(f) + HeldSharesOf(u, w.shadow.current, i)(f)
  }

  /** What the shadow counts as unheld. */
  function Unheld(w: World, u: int, side: TradeSide, i: int): int
    requires u in w.shadow.users
  {
    var user := w.shadow.users[u];
    if side.Buy? then user.cash - user.heldCash else Get(user.shares, i) - Get(user.heldShares, i)
  }

  lemma OneFlightAddsUp(w: World, u: int, side: TradeSide, i: int, k: nat)
    requires Agrees(w, u) && Covers(w, u) && k < |w.flights|
    ensures var f := w.flights[k];
            && News(w, u, side, i)(f) >= 0
            && (side.Buy? ==> DueCash(u)(f) + HeldCashOf(u, w.shadow.current)(f)
                              == CostOf(w.quotes, u)(f) + News(w, u, side, i)(f))
            && (side.Sell? ==> DueShares(u, i)(f) + HeldSharesOf(u, w.shadow.current, i)(f)
                               == SoldOf(u, i)(f) + News(w, u, side, i)(f))
  {
    var f := w.flights[k];
    BackedNetsOut(w, k, u, i);
    if f.res.order.userId == u && !f.stage.Closed? {
      assert Mine(f, u) && Backed(w.quotes, f);
    }
  }

  /** What is spare at the database is what the shadow counts as unheld, and what it is yet to hear. */
  lemma SpareIsUnheld(w: World, u: int, side: TradeSide, i: int)
    requires WorldInv(w) && u in w.clean && u in w.shadow.users && Covers(w, u) && (side.Sell? ==> Listed(w.quotes, i))
    ensures Spare(w, u, side, i) == Unheld(w, u, side, i) + Sum(w.flights, News(w, u, side, i))
    ensures Sum(w.flights, News(w, u, side, i)) >= 0
  {
    assert Agrees(w, u) && Booked(w.flights, w.shadow.users[u], u, w.shadow.current);
    var (news, generation) := (News(w, u, side, i), w.shadow.current);
    forall k | 0 <= k < |w.flights| ensures news(w.flights[k]) >= 0 {
      OneFlightAddsUp(w, u, side, i, k);
    }
    SumAtLeast(w.flights, news);
    if side.Buy? {
      CashAddsUp(w, u, i);
    } else {
      SharesAddUp(w, u, i);
    }
  }

  lemma CashAddsUp(w: World, u: int, i: int)
    requires Agrees(w, u) && Covers(w, u)
    ensures Sum(w.flights, DueCash(u)) + Sum(w.flights, HeldCashOf(u, w.shadow.current))
         == Sum(w.flights, CostOf(w.quotes, u)) + Sum(w.flights, News(w, u, Buy, i))
  {
    var both := (f: Flight) => DueCash(u)(f) + HeldCashOf(u, w.shadow.current)(f);
    forall k | 0 <= k < |w.flights|
      ensures both(w.flights[k]) == CostOf(w.quotes, u)(w.flights[k]) + News(w, u, Buy, i)(w.flights[k])
    {
      OneFlightAddsUp(w, u, Buy, i, k);
    }
    SumPlus(w.flights, DueCash(u), HeldCashOf(u, w.shadow.current), both);
    SumPlus(w.flights, CostOf(w.quotes, u), News(w, u, Buy, i), both);
  }

  lemma SharesAddUp(w: World, u: int, i: int)
    requires Agrees(w, u) && Covers(w, u)
    ensures Sum(w.flights, DueShares(u, i)) + Sum(w.flights, HeldSharesOf(u, w.shadow.current, i))
         == Sum(w.flights, SoldOf(u, i)) + Sum(w.flights, News(w, u, Sell, i))
  {
    var both := (f: Flight) => DueShares(u, i)(f) + HeldSharesOf(u, w.shadow.current, i)(f);
    forall k | 0 <= k < |w.flights|
      ensures both(w.flights[k]) == SoldOf(u, i)(w.flights[k]) + News(w, u, Sell, i)(w.flights[k])
    {
      OneFlightAddsUp(w, u, Sell, i, k);
    }
    SumPlus(w.flights, DueShares(u, i), HeldSharesOf(u, w.shadow.current, i), both);
    SumPlus(w.flights, SoldOf(u, i), News(w, u, Sell, i), both);
  }

  /** A trusted user whose orders in flight were all predicted to fill, and a MARKET order of a learned price:
      some run refuses it exactly when it needs more than the shadow counts as unheld and is yet to hear of.
      So a predicted fill is never refused; and one never refused is a predicted fill, unless the difference
      is in an answer that is on its way. */
  lemma ForeseenIffNeverRefused(w: World, order: SimOrder)
    requires var u := order.userId; WorldInv(w) && PricesCurrent(w) && u in w.clean && u in w.users && Covers(w, u)
    requires order.otype.Market? && WellFormed(ToRequest(order, "")) && order.instrumentId in w.shadow.prices
    ensures var (u, user) := (order.userId, w.shadow.users[order.userId]);
            var v := After(w, Send(order));
            var refusable := exists acts :: UndisturbedRun(acts, u) && HeardRefused(Acts(v, acts), |w.flights|);
            var unheld := Unheld(w, u, order.side, order.instrumentId);
            var news := Sum(w.flights, News(w, u, order.side, order.instrumentId));
            && (refusable <==> unheld + news < Needs(w, order)) && news >= 0
            && (v.flights[|w.flights|].res.expectation.ExpectFilled? ==> !refusable)
            && ((v.flights[|w.flights|].res.expectation.ExpectFilled? <==> !refusable) <==>
                !(unheld < Needs(w, order) <= unheld + news))
            && ((forall k :: 0 <= k < |w.flights| && w.flights[k].res.order.userId == u ==>
                   !w.flights[k].stage.Heard?) ==>
                 (v.flights[|w.flights|].res.expectation.ExpectFilled? <==> !refusable))
  {
    var (u, v) := (order.userId, After(w, Send(order)));
    var (side, i) := (order.side, order.instrumentId);
    assert AtClose(w.quotes, i, w.shadow.prices[i]) && Agrees(w, u);
    CoversPromise(w, u);
    AfterKeeps(w, Send(order));
    RefusableIffShort(w, v, order);
    SpareIsUnheld(w, u, side, i);
    ExpectedIffUnheld(w, order);
    if forall k :: 0 <= k < |w.flights| && w.flights[k].res.order.userId == u ==> !w.flights[k].stage.Heard? {
      SumZero(w.flights, News(w, u, side, i));
    }
  }

  /** Of a user it trusts and a price it knows, the shadow predicts a fill exactly of what it counts as unheld. */
  lemma ExpectedIffUnheld(w: World, order: SimOrder)
    requires Agrees(w, order.userId) && order.otype.Market? && order.instrumentId in w.shadow.prices
    requires AtClose(w.quotes, order.instrumentId, w.shadow.prices[order.instrumentId])
    ensures Expect(w.shadow, order).ExpectFilled? <==>
            Unheld(w, order.userId, order.side, order.instrumentId) >= Needs(w, order)
  {
  }

  /** Over runs: from a cleanly seeded user at rest, while the user's MARKET orders are sent only when they are
      predicted to fill, no answer of theirs is lost and the closes stand, the next one is predicted to fill
      exactly when no run refuses it, wherever nothing answered is still to be heard. */
  lemma ForeseenOverRuns(w: World, acts: seq<Act>, order: SimOrder)
    requires var u := order.userId;
             WorldInv(w) && PricesCurrent(w) && u in w.clean && u in w.users && Grounded(w, u)
    requires KeepingRun(w, acts, order.userId) && order.userId in Acts(w, acts).clean
    requires order.otype.Market? && WellFormed(ToRequest(order, ""))
    requires order.instrumentId in Acts(w, acts).shadow.prices
    requires forall k :: 0 <= k < |Acts(w, acts).flights| && Acts(w, acts).flights[k].res.order.userId == order.userId
               ==> !Acts(w, acts).flights[k].stage.Heard?
    ensures var now := Acts(w, acts);
            var v := After(now, Send(order));
            v.flights[|now.flights|].res.expectation.ExpectFilled? <==>
            !exists more :: UndisturbedRun(more, order.userId) && HeardRefused(Acts(v, more), |now.flights|)
  {
    GroundedIsKept(w, order.userId);
    KeepingRunKeeps(w, acts, order.userId);
    ForeseenIffNeverRefused(Acts(w, acts), order);
  }

  /** A first buy sent from rest, and refused without the answer having come back. */
  function RefusedUnheard(w: World, first: SimOrder): World { After(After(w, Send(first)), Refuse(|w.flights|)) }

  predicate SentFromRest(w: World, first: SimOrder) {
    && first.side.Buy? && first.otype.Market? && WellFormed(ToRequest(first, ""))
    && Expect(w.shadow, first).ExpectFilled?
  }

  lemma StillHeld(w: World, first: SimOrder)
    requires var u := first.userId; WorldInv(w) && PricesCurrent(w) && u in w.clean && Grounded(w, u)
    requires SentFromRest(w, first)
    ensures var (u, now) := (first.userId, RefusedUnheard(w, first));
            && u in w.shadow.users && u in now.shadow.users && now.shadow.prices == w.shadow.prices
            && now.rows == w.rows && now.users == w.users && now.quotes == w.quotes
            && now.flights == w.flights + [Flight(ReservationFor(w.shadow, first), Heard(None))]
            && w.shadow.users[u].outstanding == 0 && w.shadow.users[u].heldCash == 0
            && now.shadow.users[u] == w.shadow.users[u].(outstanding := 1, heldCash := Needs(w, first))
  {
    assert Agrees(w, first.userId);
    NoneLiveIffNoneOutstanding(w.flights, first.userId, w.shadow.current);
    NothingHeld(w, first.userId);
    assert AtClose(w.quotes, first.instrumentId, w.shadow.prices[first.instrumentId]);
    var f := Flight(ReservationFor(w.shadow, first), Sent);
    assert (w.flights + [f])[|w.flights| := Flight(f.res, Heard(None))] == w.flights + [Flight(f.res, Heard(None))];
  }

  lemma StillCovered(w: World, first: SimOrder)
    requires var u := first.userId; WorldInv(w) && PricesCurrent(w) && u in w.clean && u in w.users && Grounded(w, u)
    requires SentFromRest(w, first)
    ensures var (u, now) := (first.userId, RefusedUnheard(w, first));
            WorldInv(now) && PricesCurrent(now) && Covers(now, u) && u in now.clean && Agrees(now, u)
  {
    GroundedCovers(w, first.userId);
    BenignStep(w, Send(first), first.userId);
    BenignStep(After(w, Send(first)), Refuse(|w.flights|), first.userId);
  }

  lemma StillSpare(w: World, first: SimOrder, i: int)
    requires var u := first.userId; WorldInv(w) && PricesCurrent(w) && u in w.clean && u in w.users && Grounded(w, u)
    requires SentFromRest(w, first)
    ensures Spare(RefusedUnheard(w, first), first.userId, Buy, i) == w.shadow.users[first.userId].cash
  {
    var (u, now) := (first.userId, RefusedUnheard(w, first));
    StillHeld(w, first);
    SumZero(now.flights, CostOf(now.quotes, u));
    QuietAgrees(w, u);
    ViewsAreFolds(w.rows, u, 0);
  }

  /** The exception is real: with a refusal on its way, an order that no run refuses is not foreseen. */
  lemma ARefusalOnItsWay(w: World, first: SimOrder, order: SimOrder)
    requires var u := order.userId;
             WorldInv(w) && PricesCurrent(w) && u in w.clean && u in w.users && Grounded(w, u)
    requires first.userId == order.userId && SentFromRest(w, first) && SentFromRest(w, order)
    requires var u := order.userId;
             u in w.shadow.users && w.shadow.users[u].cash < Needs(w, first) + Needs(w, order)
    ensures var now := RefusedUnheard(w, first);
            var v := After(now, Send(order));
            && |v.flights| == |now.flights| + 1 && v.flights[|now.flights|].res.expectation.Unknown?
            && !exists more :: UndisturbedRun(more, order.userId) && HeardRefused(Acts(v, more), |now.flights|)
  {
    var (u, now) := (order.userId, RefusedUnheard(w, first));
    StillHeld(w, first);
    StillCovered(w, first);
    StillSpare(w, first, order.instrumentId);
    assert AtClose(now.quotes, order.instrumentId, now.shadow.prices[order.instrumentId]);
    ExpectedIffUnheld(w, order);
    ExpectedIffUnheld(now, order);
    CoversPromise(now, u);
    AfterKeeps(now, Send(order));
    RefusableIffShort(now, After(now, Send(order)), order);
  }
}
