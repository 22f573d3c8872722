/** When an order in flight can be refused: over every run the target can make of what is in
    flight, exactly when some of the user's other orders can fill first and leave too little. */
module ShadowRefusals {
  import opened OrderRules
  import opened SeqSum
  import opened Ledger
  import opened Placement
  import opened Protocol
  import opened Portfolio
  import opened ShadowLedger
  import opened ShadowWorld
  import opened ShadowSoundness

  /** A MARKET order of the user's that the target may still come to, of an instrument it trades. */
  predicate Fillable(v: World, j: nat, u: int) {
    Pending(v, j) &&
    var order := v.flights[j].res.order;
    && order.userId == u && order.otype.Market?
    && AtClose(v.quotes, order.instrumentId, CloseOf(v.quotes, order.instrumentId))
  }

  /* ---- The arithmetic: orders filled one after the other ---- */

  function CashMoveAt(v: World): nat -> int {
    (j: nat) =>
      if j < |v.flights|
      then CashMove(v.flights[j].res.order, CloseOf(v.quotes, v.flights[j].res.order.instrumentId)) else 0
  }

  function ShareMoveAt(v: World, i: int): nat -> int {
    (j: nat) =>
      if j < |v.flights| && v.flights[j].res.order.instrumentId == i then ShareMove(v.flights[j].res.order) else 0
  }

  function CashAfter(v: World, u: int, p: seq<nat>): int { CashFold(v.rows, u) + Sum(p, CashMoveAt(v)) }

  function SharesAfter(v: World, u: int, p: seq<nat>, i: int): int {
    SharesFold(v.rows, u, i) + Sum(p, ShareMoveAt(v, i))
  }

  /** What the orders of `p` leave, once filled, covers order `j`. */
  predicate PaysFor(v: World, u: int, p: seq<nat>, j: nat)
    requires j < |v.flights|
  {
    var order := v.flights[j].res.order;
    if order.side.Buy? then CashAfter(v, u, p) >= CloseOf(v.quotes, order.instrumentId) * order.size
    else SharesAfter(v, u, p, order.instrumentId) >= order.size
  }

  predicate NoRepeats(p: seq<nat>) { forall m, n :: 0 <= m < n < |p| ==> p[m] != p[n] }

  /** Each of these orders is covered by what those before it leave. */
  predicate FillInTurn(v: World, u: int, p: seq<nat>) {
    NoRepeats(p) && forall n :: 0 <= n < |p| ==> Fillable(v, p[n], u) && PaysFor(v, u, p[..n], p[n])
  }

  /** Some of the user's other orders can fill one after the other and leave too little for `k`. */
  ghost predicate Exhaustible(v: World, u: int, k: nat)
    requires k < |v.flights|
  {
    exists p :: FillInTurn(v, u, p) && k !in p && !PaysFor(v, u, p, k)
  }

  lemma FillOneMore(v: World, u: int, p: seq<nat>, j: nat)
    requires FillInTurn(v, u, p) && j !in p && Fillable(v, j, u) && PaysFor(v, u, p, j)
    ensures FillInTurn(v, u, p + [j])
    ensures CashAfter(v, u, p + [j]) == CashAfter(v, u, p) + CashMoveAt(v)(j)
    ensures forall i :: SharesAfter(v, u, p + [j], i) == SharesAfter(v, u, p, i) + ShareMoveAt(v, i)(j)
  {
    var p' := p + [j];
    SumAppend(p, j, CashMoveAt(v));
    forall i ensures SharesAfter(v, u, p', i) == SharesAfter(v, u, p, i) + ShareMoveAt(v, i)(j) {
      SumAppend(p, j, ShareMoveAt(v, i));
    }
    assert p'[..|p|] == p;
    forall n | 0 <= n < |p'| ensures Fillable(v, p'[n], u) && PaysFor(v, u, p'[..n], p'[n]) {
      if n < |p| {
        assert p'[..n] == p[..n];
      }
    }
  }

  /* ---- The runs ---- */

  /** Anything the target, the network and the other clients can do: the closes stand, and the user
      sends nothing more. */
  predicate Undisturbed(act: Act, u: int) {
    !act.MoveClose? && !act.ProcessAt? && (act.Send? ==> act.order.userId != u)
  }

  predicate UndisturbedRun(acts: seq<Act>, u: int) { forall n :: 0 <= n < |acts| ==> Undisturbed(acts[n], u) }

  /** What such a run leaves of the flights it started with. */
  predicate Grown(v: World, w: World, u: int) {
    && w.users == v.users && w.quotes == v.quotes && |w.flights| >= |v.flights|
    && (forall j :: 0 <= j < |v.flights| ==> w.flights[j].res == v.flights[j].res && (Pending(w, j) ==> Pending(v, j)))
    && (forall j :: |v.flights| <= j < |w.flights| ==> w.flights[j].res.order.userId != u)
  }

  lemma NextGrown(v: World, w: World, act: Act, u: int)
    requires Grown(v, w, u) && Undisturbed(act, u)
    ensures Grown(v, After(w, act), u)
  {
  }

  /** The user's folds are what the orders of `p` leave, and those orders are over. */
  ghost predicate FilledSoFar(v: World, w: World, u: int, p: seq<nat>) {
    && FillInTurn(v, u, p) && (forall j :: j in p ==> !Pending(w, j))
    && CashFold(w.rows, u) == CashAfter(v, u, p)
    && (forall i :: SharesFold(w.rows, u, i) == SharesAfter(v, u, p, i))
  }

  /** The target's answer to a MARKET order it trades, of a user it knows, under a free key. */
  lemma MarketAnswer(w: World, order: SimOrder, id: int, key: Key)
    requires order.userId in w.users && order.otype.Market? && ByKey(w.rows, order.userId, key).None?
    requires AtClose(w.quotes, order.instrumentId, CloseOf(w.quotes, order.instrumentId))
    ensures var a, close := TargetAnswer(w, order, id, key), CloseOf(w.quotes, order.instrumentId);
            && a.Created? && a.row.price == close && (a.row.status.Filled? || a.row.status.Rejected?)
            && (a.row.status.Filled? <==>
                  if order.side.Buy? then CashFold(w.rows, order.userId) >= close * order.size
                  else SharesFold(w.rows, order.userId, order.instrumentId) >= order.size)
  {
    ViewsAreFolds(w.rows, order.userId, order.instrumentId);
  }

  /** No other order is ever filled. */
  lemma OtherAnswer(w: World, order: SimOrder, id: int, key: Key)
    requires ByKey(w.rows, order.userId, key).None?
    requires order.otype.Limit? || !AtClose(w.quotes, order.instrumentId, CloseOf(w.quotes, order.instrumentId))
    ensures var a := TargetAnswer(w, order, id, key); !a.Replayed? && (a.Created? ==> !a.row.status.Filled?)
  {
  }

  lemma ProcessFills(v: World, w: World, u: int, p: seq<nat>, k: nat, id: int, key: Key) returns (p': seq<nat>)
    requires u in v.users && Grown(v, w, u) && FilledSoFar(v, w, u, p) && Can(w, Process(k, id, key))
    ensures FilledSoFar(v, After(w, Process(k, id, key)), u, p')
    ensures k < |v.flights| && Fillable(v, k, u) ==>
              p' == (if PaysFor(v, u, p, k) then p + [k] else p)
              && var a := TargetAnswer(w, w.flights[k].res.order, id, key);
                 a.Created? && (a.row.status.Filled? || a.row.status.Rejected?)
                 && (a.row.status.Filled? <==> PaysFor(v, u, p, k))
  {
    if k < |v.flights| && Fillable(v, k, u) {
      p' := FillableLands(v, w, u, p, k, id, key);
    } else {
      p' := p;
      OtherLands(v, w, u, p, k, id, key);
    }
  }

  lemma FillableLands(v: World, w: World, u: int, p: seq<nat>, k: nat, id: int, key: Key) returns (p': seq<nat>)
    requires u in v.users && Grown(v, w, u) && FilledSoFar(v, w, u, p) && Can(w, Process(k, id, key))
    requires k < |v.flights| && Fillable(v, k, u)
    ensures FilledSoFar(v, After(w, Process(k, id, key)), u, p')
    ensures p' == if PaysFor(v, u, p, k) then p + [k] else p
    ensures var a := TargetAnswer(w, w.flights[k].res.order, id, key);
            && a.Created? && (a.row.status.Filled? || a.row.status.Rejected?)
            && (a.row.status.Filled? <==> PaysFor(v, u, p, k))
  {
    MarketAnswer(w, w.flights[k].res.order, id, key);
    LandingMoves(w, k, id, key, u);
    p' := p;
    if PaysFor(v, u, p, k) {
      FillOneMore(v, u, p, k);
      p' := p + [k];
    }
  }

  /** An order that is not the user's, or that can never fill, moves nothing of the user's. */
  lemma OtherLands(v: World, w: World, u: int, p: seq<nat>, k: nat, id: int, key: Key)
    requires Grown(v, w, u) && FilledSoFar(v, w, u, p) && Can(w, Process(k, id, key))
    requires k < |v.flights| ==> !Fillable(v, k, u)
    ensures FilledSoFar(v, After(w, Process(k, id, key)), u, p)
  {
    var order := w.flights[k].res.order;
    LandingMoves(w, k, id, key, u);
    if order.userId == u {
      OtherAnswer(w, order, id, key);
    }
  }

  lemma LandingMoves(w: World, k: nat, id: int, key: Key, u: int)
    requires Can(w, Process(k, id, key))
    ensures var heard := HeardOf(w, k, id, key, QuoteOf(w.quotes, w.flights[k].res.order.instrumentId));
            var rows' := After(w, Process(k, id, key)).rows;
            && CashFold(rows', u) == CashFold(w.rows, u) + DueCash(u)(heard)
            && forall i :: SharesFold(rows', u, i) == SharesFold(w.rows, u, i) + DueShares(u, i)(heard)
  {
    var quote := QuoteOf(w.quotes, w.flights[k].res.order.instrumentId);
    var heard := HeardOf(w, k, id, key, quote);
    AnswerIsTheMove(w, heard, id, key, quote, u, 0);
    forall i
      ensures SharesFold(After(w, Process(k, id, key)).rows, u, i)
           == SharesFold(w.rows, u, i) + DueShares(u, i)(heard)
    {
      AnswerIsTheMove(w, heard, id, key, quote, u, i);
    }
  }

  /** Whatever else happens moves nothing of the user's. */
  lemma OthersMoveNone(w: World, act: Act, u: int)
    requires Can(w, act) && !act.Process? && !act.ProcessAt?
    ensures CashFold(After(w, act).rows, u) == CashFold(w.rows, u)
    ensures forall i :: SharesFold(After(w, act).rows, u, i) == SharesFold(w.rows, u, i)
  {
    if act.CancelOrder? && Cancel(w.rows, act.id).0.CancelOk? {
      var at := FindId(w.rows, act.id).value;
      var row := Cancel(w.rows, act.id).0.row;
      SumUpdate(w.rows, at, row, CashOf(u));
      forall i ensures SharesFold(w.rows[at := row], u, i) == SharesFold(w.rows, u, i) {
        SumUpdate(w.rows, at, row, SharesOf(u, i));
      }
    }
  }

  lemma NextFills(v: World, w: World, u: int, p: seq<nat>, act: Act) returns (p': seq<nat>)
    requires u in v.users && Grown(v, w, u) && FilledSoFar(v, w, u, p) && Undisturbed(act, u)
    ensures FilledSoFar(v, After(w, act), u, p')
  {
    p' := p;
    if Can(w, act) {
      if act.Process? {
        p' := ProcessFills(v, w, u, p, act.k, act.id, act.key);
      } else {
        OthersMoveNone(w, act, u);
        NextGrown(v, w, act, u);
        forall j | j in p ensures !Pending(After(w, act), j) {
          OverStaysOver(w, act, j);
        }
      }
    }
  }

  lemma OverStaysOver(w: World, act: Act, j: nat)
    requires j < |w.flights| && !Pending(w, j)
    ensures !Pending(After(w, act), j)
  {
  }

  lemma {:induction false} RunFills(v: World, u: int, acts: seq<Act>) returns (p: seq<nat>)
    requires u in v.users && UndisturbedRun(acts, u)
    ensures Grown(v, Acts(v, acts), u) && FilledSoFar(v, Acts(v, acts), u, p)
  {
    if acts == [] {
      p := [];
    } else {
      var n := |acts| - 1;
      p := RunFills(v, u, acts[..n]);
      NextGrown(v, Acts(v, acts[..n]), acts[n], u);
      p := NextFills(v, Acts(v, acts[..n]), u, p, acts[n]);
    }
  }

  predicate HeardAs(w: World, k: nat, status: Status) {
    k < |w.flights| && w.flights[k].stage.Heard? && w.flights[k].stage.exec.Some?
    && w.flights[k].stage.exec.value.status == status
  }

  predicate HeardRefused(w: World, k: nat) { HeardAs(w, k, Rejected) }

  predicate HeardFilled(w: World, k: nat) { HeardAs(w, k, Filled) }

  /** What is heard of an order is what the act that processed it answered. */
  lemma HeardByProcess(w: World, act: Act, k: nat, status: Status)
    requires !act.ProcessAt? && k < |w.flights| && !HeardAs(w, k, status) && HeardAs(After(w, act), k, status)
    ensures act.Process? && act.k == k && Can(w, act)
    ensures TargetAnswer(w, w.flights[k].res.order, act.id, act.key).Created?
            && TargetAnswer(w, w.flights[k].res.order, act.id, act.key).row.status == status
  {
    if act.Process? && Can(w, act) && act.k == k {
      OtherAnswerIsNotReplayed(w, k, act.id, act.key);
    }
  }

  lemma OtherAnswerIsNotReplayed(w: World, k: nat, id: int, key: Key)
    requires Can(w, Process(k, id, key))
    ensures !TargetAnswer(w, w.flights[k].res.order, id, key).Replayed?
  {
  }

  /** Behind an answer stand the orders that filled before it. */
  lemma {:induction false} HeardComesAfter(v: World, u: int, k: nat, acts: seq<Act>, status: Status)
    returns (p: seq<nat>)
    requires u in v.users && Fillable(v, k, u) && v.flights[k].stage.Sent? && UndisturbedRun(acts, u)
    requires HeardAs(Acts(v, acts), k, status)
    ensures FillInTurn(v, u, p) && k !in p && status == if PaysFor(v, u, p, k) then Filled else Rejected
  {
    var n := |acts| - 1;
    var before := Acts(v, acts[..n]);
    if HeardAs(before, k, status) {
      p := HeardComesAfter(v, u, k, acts[..n], status);
    } else {
      p := RunFills(v, u, acts[..n]);
      HeardByProcess(before, acts[n], k, status);
      var p' := ProcessFills(v, before, u, p, k, acts[n].id, acts[n].key);
    }
  }

  /* ---- The run that answers so ---- */

  function LongestKey(rows: seq<Row>): nat {
    if rows == [] then 0
    else
      var rest, last := LongestKey(rows[..|rows| - 1]), rows[|rows| - 1];
      if last.key.Some? && |last.key.value| > rest then |last.key.value| else rest
  }

  lemma {:induction false} LongerKeyIsFree(rows: seq<Row>, u: int, key: Key)
    requires |key| > LongestKey(rows)
    ensures ByKey(rows, u, key).None?
  {
    if rows != [] {
      LongerKeyIsFree(rows[..|rows| - 1], u, key);
    }
  }

  function FreshKey(rows: seq<Row>): Key { seq(LongestKey(rows) + 1, _ => 'k') }

  lemma ActsNext(w: World, acts: seq<Act>, act: Act)
    ensures Acts(w, acts + [act]) == After(Acts(w, acts), act)
  {
    assert (acts + [act])[..|acts|] == acts;
  }

  lemma TurnPrefix(v: World, u: int, p: seq<nat>)
    requires FillInTurn(v, u, p) && p != []
    ensures var n := |p| - 1;
            FillInTurn(v, u, p[..n]) && p[n] !in p[..n] && Fillable(v, p[n], u) && PaysFor(v, u, p[..n], p[n])
  {
    var n := |p| - 1;
    assert forall m :: 0 <= m < n ==> p[..n][..m] == p[..m];
  }

  /** Orders that fill in turn can be processed in turn, and nothing else need happen. */
  lemma {:induction false} FillingRun(v: World, u: int, p: seq<nat>) returns (acts: seq<Act>)
    requires u in v.users && FillInTurn(v, u, p)
    ensures UndisturbedRun(acts, u) && Grown(v, Acts(v, acts), u) && FilledSoFar(v, Acts(v, acts), u, p)
    ensures forall j :: 0 <= j < |v.flights| && j !in p ==> Acts(v, acts).flights[j] == v.flights[j]
  {
    if p == [] {
      acts := [];
    } else {
      var n := |p| - 1;
      TurnPrefix(v, u, p);
      acts := FillingRun(v, u, p[..n]);
      FillingNext(v, Acts(v, acts), u, p[..n], p[n]);
      assert p[..n] + [p[n]] == p;
      var act := Process(p[n], 0, FreshKey(Acts(v, acts).rows));
      ActsNext(v, acts, act);
      acts := acts + [act];
    }
  }

  lemma FillingNext(v: World, w: World, u: int, p: seq<nat>, k: nat)
    requires u in v.users && Grown(v, w, u) && FilledSoFar(v, w, u, p) && k !in p && Fillable(v, k, u)
             && PaysFor(v, u, p, k)
    requires w.flights[k] == v.flights[k]
    ensures var w' := After(w, Process(k, 0, FreshKey(w.rows)));
            && Grown(v, w', u) && FilledSoFar(v, w', u, p + [k])
            && forall j :: 0 <= j < |v.flights| && j != k ==> w'.flights[j] == w.flights[j]
  {
    LongerKeyIsFree(w.rows, u, FreshKey(w.rows));
    NextGrown(v, w, Process(k, 0, FreshKey(w.rows)), u);
    var p' := ProcessFills(v, w, u, p, k, 0, FreshKey(w.rows));
  }

  /** After any orders that can fill in turn, the next one processed is answered by what they leave. */
  lemma AnsweredAfter(v: World, u: int, p: seq<nat>, k: nat) returns (acts: seq<Act>)
    requires u in v.users && Fillable(v, k, u) && v.flights[k].stage.Sent? && FillInTurn(v, u, p) && k !in p
    ensures UndisturbedRun(acts, u)
    ensures HeardAs(Acts(v, acts), k, if PaysFor(v, u, p, k) then Filled else Rejected)
  {
    acts := FillingRun(v, u, p);
    AnsweredNext(v, Acts(v, acts), u, p, k);
    var act := Process(k, 0, FreshKey(Acts(v, acts).rows));
    ActsNext(v, acts, act);
    acts := acts + [act];
  }

  lemma AnsweredNext(v: World, w: World, u: int, p: seq<nat>, k: nat)
    requires u in v.users && Grown(v, w, u) && FilledSoFar(v, w, u, p) && k !in p && Fillable(v, k, u)
    requires w.flights[k] == v.flights[k] && v.flights[k].stage.Sent?
    ensures HeardAs(After(w, Process(k, 0, FreshKey(w.rows))), k, if PaysFor(v, u, p, k) then Filled else Rejected)
  {
    LongerKeyIsFree(w.rows, u, FreshKey(w.rows));
    var p' := ProcessFills(v, w, u, p, k, 0, FreshKey(w.rows));
  }

  /** The exact condition, for any orders in flight, bought or sold, whatever was predicted of each:
      the target refuses order `k` in some run exactly when some of the user's other orders in
      flight can fill one after the other and leave too little for it. */
  lemma RefusedInSomeRunIff(v: World, u: int, k: nat)
    requires u in v.users && Fillable(v, k, u) && v.flights[k].stage.Sent?
    ensures (exists acts :: UndisturbedRun(acts, u) && HeardRefused(Acts(v, acts), k)) <==> Exhaustible(v, u, k)
  {
    if acts :| UndisturbedRun(acts, u) && HeardRefused(Acts(v, acts), k) {
      var p := HeardComesAfter(v, u, k, acts, Rejected);
    }
    if p :| FillInTurn(v, u, p) && k !in p && !PaysFor(v, u, p, k) {
      var acts := AnsweredAfter(v, u, p, k);
    }
  }

  /** Some of the user's other orders can fill one after the other and leave enough for `k`. */
  ghost predicate Fundable(v: World, u: int, k: nat)
    requires k < |v.flights|
  {
    exists p :: FillInTurn(v, u, p) && k !in p && PaysFor(v, u, p, k)
  }

  /** And the target fills it in some run exactly when some can fill and leave enough: so an order
      predicted to be refused is not sure of it either. */
  lemma FilledInSomeRunIff(v: World, u: int, k: nat)
    requires u in v.users && Fillable(v, k, u) && v.flights[k].stage.Sent?
    ensures (exists acts :: UndisturbedRun(acts, u) && HeardFilled(Acts(v, acts), k)) <==> Fundable(v, u, k)
  {
    if acts :| UndisturbedRun(acts, u) && HeardFilled(Acts(v, acts), k) {
      var p := HeardComesAfter(v, u, k, acts, Filled);
    }
    if p :| FillInTurn(v, u, p) && k !in p && PaysFor(v, u, p, k) {
      var acts := AnsweredAfter(v, u, p, k);
    }
  }

  /* ---- Where the user only buys ---- */

  function Cost(v: World, j: nat): int
    requires j < |v.flights|
  {
    CloseOf(v.quotes, v.flights[j].res.order.instrumentId) * v.flights[j].res.order.size
  }

  function CostAt(v: World): nat -> int { (j: nat) => if j < |v.flights| then Cost(v, j) else 0 }

  function TotalCost(v: World, s: seq<nat>): int { Sum(s, CostAt(v)) }

  /** A sub-collection of the user's orders in flight. */
  predicate Among(v: World, u: int, s: seq<nat>) {
    NoRepeats(s) && forall n :: 0 <= n < |s| ==> Fillable(v, s[n], u)
  }

  /** Everything of the user's that can fill is a buy of at least one share. */
  predicate OnlyBuys(v: World, u: int) {
    forall j :: 0 <= j < |v.flights| && Fillable(v, j, u) ==>
      v.flights[j].res.order.side.Buy? && v.flights[j].res.order.size >= 1
  }

  lemma {:induction false} BuysCost(v: World, u: int, s: seq<nat>)
    requires OnlyBuys(v, u) && Among(v, u, s)
    ensures CashAfter(v, u, s) == CashFold(v.rows, u) - TotalCost(v, s)
    ensures TotalCost(v, s) >= 0
    ensures forall n :: 0 <= n <= |s| ==> TotalCost(v, s[..n]) <= TotalCost(v, s)
  {
    if s == [] {
      assert s[..0] == s;
    } else {
      var n := |s| - 1;
      BuysCost(v, u, s[..n]);
      CostIsTheMove(v, u, s[n]);
      assert s[..|s|] == s;
      forall m | 0 <= m <= n ensures TotalCost(v, s[..m]) <= TotalCost(v, s) {
        assert s[..n][..m] == s[..m];
      }
    }
  }

  lemma CostIsTheMove(v: World, u: int, j: nat)
    requires OnlyBuys(v, u) && Fillable(v, j, u)
    ensures CashMoveAt(v)(j) == -CostAt(v)(j) && CostAt(v)(j) >= 0
  {
    assert CloseOf(v.quotes, v.flights[j].res.order.instrumentId) * v.flights[j].res.order.size >= 0;
  }

  /** Some sub-collection of the user's other orders is one the cash pays for, and not with this one. */
  ghost predicate Outspent(v: World, u: int, k: nat, cash: int)
    requires k < |v.flights|
  {
    exists s :: Among(v, u, s) && k !in s && TotalCost(v, s) <= cash < TotalCost(v, s) + Cost(v, k)
  }

  /** For buys the order of filling does not matter: only what a sub-collection costs in all. */
  lemma ExhaustibleIffSomeCost(v: World, u: int, k: nat)
    requires OnlyBuys(v, u) && Fillable(v, k, u) && CashFold(v.rows, u) >= 0
    ensures Exhaustible(v, u, k) <==>
            Outspent(v, u, k, CashFold(v.rows, u))
  {
    if p :| FillInTurn(v, u, p) && k !in p && !PaysFor(v, u, p, k) {
      BuysCost(v, u, p);
      FilledWithin(v, u, p);
      assert Among(v, u, p);
    }
    if s :| Among(v, u, s) && k !in s && TotalCost(v, s) <= CashFold(v.rows, u) < TotalCost(v, s) + Cost(v, k) {
      BuysCost(v, u, s);
      AffordableFills(v, u, s);
      assert FillInTurn(v, u, s) && !PaysFor(v, u, s, k);
    }
  }

  lemma BuyRefusedInSomeRunIff(v: World, u: int, k: nat)
    requires u in v.users && Fillable(v, k, u) && v.flights[k].stage.Sent? && OnlyBuys(v, u) && CashFold(v.rows, u) >= 0
    ensures (exists acts :: UndisturbedRun(acts, u) && HeardRefused(Acts(v, acts), k)) <==>
            Outspent(v, u, k, CashFold(v.rows, u))
  {
    RefusedInSomeRunIff(v, u, k);
    ExhaustibleIffSomeCost(v, u, k);
  }

  lemma FilledWithin(v: World, u: int, p: seq<nat>)
    requires OnlyBuys(v, u) && FillInTurn(v, u, p) && CashFold(v.rows, u) >= 0
    ensures TotalCost(v, p) <= CashFold(v.rows, u)
  {
    if p != [] {
      var n := |p| - 1;
      assert Among(v, u, p[..n]);
      BuysCost(v, u, p[..n]);
      assert PaysFor(v, u, p[..n], p[n]);
    }
  }

  lemma AffordableFills(v: World, u: int, s: seq<nat>)
    requires OnlyBuys(v, u) && Among(v, u, s) && TotalCost(v, s) <= CashFold(v.rows, u)
    ensures FillInTurn(v, u, s)
  {
    forall n | 0 <= n < |s| ensures PaysFor(v, u, s[..n], s[n]) {
      assert Among(v, u, s[..n]) && Among(v, u, s[..n + 1]);
      BuysCost(v, u, s);
      BuysCost(v, u, s[..n]);
      assert s[..n + 1][..n] == s[..n];
      assert TotalCost(v, s[..n + 1]) == TotalCost(v, s[..n]) + Cost(v, s[n]);
    }
  }
}
