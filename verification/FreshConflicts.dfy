/** A cancel of an id nobody was given yet: it can still be answered that the order is NEW, if the id
    is handed out between its UPDATE and its re-read. When that is possible, told by the ledger. */
module FreshConflicts {
  import opened Options
  import opened OrderRules
  import opened SeqSum
  import opened Ledger
  import opened Placement
  import opened Protocol
  import opened ProtocolInvariant
  import opened Serializability
  import opened Conflicts

  /* ---- A placement run to its insert ---- */

  /** The call has run up to this phase while nothing else has. */
  predicate RunTo(s: State, s': State, req: Request, phase: Phase) {
    s' == s.(txs := s.txs + [Tx(req, phase)],
             lock := if phase.Queued? then s.lock else s.lock[req.userId := |s.txs|],
             nextId := if phase.Inserted? then s.nextId + 1 else s.nextId)
  }

  lemma RunsOn(s: State, s': State, req: Request, phase: Phase)
    requires RunTo(s, s', req, phase) && !phase.Done? && !phase.Inserted? && (phase.Queued? ==> req.userId !in s.lock)
    requires var next := NextPhase(s, Tx(req, phase)); !next.Done? && !next.Queued? && !next.Found? && !phase.Refused?
    ensures RunTo(s, Next(s', Advance(|s.txs|)), req, NextPhase(s, Tx(req, phase)))
  {
    var t, next := |s.txs|, NextPhase(s, Tx(req, phase));
    assert NextPhase(s', Tx(req, phase)) == next;
    assert EventOf(s', t, Tx(req, phase)) == [] && s'.log + [] == s.log;
    assert s'.txs[t := Tx(req, next)] == s.txs + [Tx(req, next)];
  }

  /** An order that would be stored if it were placed now. */
  predicate Placeable(s: State, req: Request) {
    && WellFormed(req) && req.userId in s.users && req.userId !in s.lock
    && Place(s.rows, true, QuoteOf(s.quotes, req.instrumentId), req, s.nextId).Created?
  }

  function CloseFor(s: State, req: Request): int
    requires Placeable(s, req)
  {
    QuoteOf(s.quotes, req.instrumentId).close.value
  }

  function RowFor(s: State, req: Request): Row
    requires Placeable(s, req)
  {
    Place(s.rows, true, QuoteOf(s.quotes, req.instrumentId), req, s.nextId).row
  }

  /** The call after i of its statements. */
  function Stage(s: State, req: Request, i: nat): Phase
    requires Placeable(s, req) && i <= 7
  {
    var (close, cash) := (CloseFor(s, req), AvailableCash(s.rows, req.userId));
    var size := SizeOf(req, close).size;
    match i
    case 0 => Queued
    case 1 => Locked
    case 2 => Missed
    case 3 => KnownUser
    case 4 => Sizing(close, size)
    case 5 => CashRead(close, size, cash)
    case 6 => Ready(close, size, cash, HeldShares(s.rows, req.userId, req.instrumentId))
    case 7 => Inserted(QuoteOf(s.quotes, req.instrumentId), RowFor(s, req))
  }

  /** What the placement of such an order reads and writes. */
  lemma PlaceableReads(s: State, req: Request)
    requires Placeable(s, req)
    ensures ByKey(s.rows, req.userId, req.key).None?
    ensures Tradable(req, QuoteOf(s.quotes, req.instrumentId)).0 == Some(CloseFor(s, req))
    ensures QuoteOf(s.quotes, req.instrumentId) == Quote(false, Some(CloseFor(s, req)))
    ensures SizeOf(req, CloseFor(s, req)).Sized?
    ensures RowFor(s, req) == NewRow(req, CloseFor(s, req), SizeOf(req, CloseFor(s, req)).size,
                                     AvailableCash(s.rows, req.userId),
                                     HeldShares(s.rows, req.userId, req.instrumentId), s.nextId)
  {
  }

  lemma StageNext(s: State, req: Request, i: nat)
    requires Placeable(s, req) && i < 7
    ensures NextPhase(s, Tx(req, Stage(s, req, i))) == Stage(s, req, i + 1)
  {
    if i == 3 {
      KnownUserSizes(s, req);
    } else if i == 6 {
      ReadyWrites(s, req);
    } else if i == 1 {
      LockedMisses(s, req);
    }
  }

  lemma LockedMisses(s: State, req: Request)
    requires Placeable(s, req)
    ensures NextPhase(s, Tx(req, Locked)) == Missed
  {
  }

  lemma ReadyWrites(s: State, req: Request)
    requires Placeable(s, req)
    ensures NextPhase(s, Tx(req, Stage(s, req, 6))) == Stage(s, req, 7)
  {
    PlaceableReads(s, req);
  }

  lemma KnownUserSizes(s: State, req: Request)
    requires Placeable(s, req)
    ensures NextPhase(s, Tx(req, KnownUser)) == Sizing(CloseFor(s, req), SizeOf(req, CloseFor(s, req)).size)
  {
    PlaceableReads(s, req);
  }

  lemma Writes(s: State, req: Request) returns (steps: seq<Step>)
    requires Placeable(s, req)
    ensures RunTo(s, Run(s, steps), req, Inserted(QuoteOf(s.quotes, req.instrumentId), RowFor(s, req)))
  {
    steps := [Begin(req)];
    RunPush(s, [], Begin(req));
    for i := 0 to 7
      invariant RunTo(s, Run(s, steps), req, Stage(s, req, i))
    {
      StageNext(s, req, i);
      RunsOn(s, Run(s, steps), req, Stage(s, req, i));
      RunPush(s, steps, Advance(|s.txs|));
      steps := steps + [Advance(|s.txs|)];
    }
  }

  /* ---- Ids used up ---- */

  /** The state again, with one id spent on an order given up on. */
  predicate Spent(s: State, s': State) {
    && s'.users == s.users && s'.quotes == s.quotes && s'.rows == s.rows && s'.lock == s.lock
    && s'.cancels == s.cancels && s'.nextId >= s.nextId
  }

  lemma SpendsOne(s: State, req: Request) returns (steps: seq<Step>)
    requires Placeable(s, req)
    ensures Spent(s, Run(s, steps)) && Run(s, steps).nextId == s.nextId + 1
  {
    steps := Writes(s, req);
    var written := Run(s, steps);
    RunPush(s, steps, GiveUp(|s.txs|));
    assert s.lock[req.userId := |s.txs|] - {req.userId} == s.lock;
    steps := steps + [GiveUp(|s.txs|)];
  }

  lemma StillPlaced(s: State, s': State, req: Request)
    requires Placeable(s, req) && Spent(s, s')
    ensures Placeable(s', req)
  {
  }

  /** Orders given up on after their insert take the sequence up to any id. */
  lemma {:induction false} SpendsUpTo(s: State, req: Request, id: int) returns (steps: seq<Step>)
    requires Placeable(s, req) && s.nextId <= id
    ensures Spent(s, Run(s, steps)) && Run(s, steps).nextId == id
    decreases id - s.nextId
  {
    if s.nextId == id {
      steps := [];
    } else {
      var first := SpendsOne(s, req);
      StillPlaced(s, Run(s, first), req);
      var more := SpendsUpTo(Run(s, first), req, id);
      RunConcat(s, first, more);
      steps := first + more;
    }
  }

  /** An order left to commit. */
  lemma Lands(s: State, req: Request) returns (steps: seq<Step>)
    requires Placeable(s, req)
    ensures var s' := Run(s, steps);
            && s'.users == s.users && s'.quotes == s.quotes && s'.lock == s.lock && s'.cancels == s.cancels
            && s'.rows == s.rows + [RowFor(s, req)] && s'.nextId == s.nextId + 1
  {
    steps := Writes(s, req);
    RunPush(s, steps, Advance(|s.txs|));
    assert s.lock[req.userId := |s.txs|] - {req.userId} == s.lock;
    steps := steps + [Advance(|s.txs|)];
  }

  /* ---- Who can rest an order ---- */

  /** The instrument can be traded, at some close. */
  predicate Listed(s: State, i: int) { i in s.quotes && s.quotes[i].Quote? && !s.quotes[i].moneda }

  /** The shares of an instrument that the order a user has written, and not committed, is going to bring. */
  function Coming(s: State, u: int, i: int): int {
    if u !in s.lock || s.lock[u] >= |s.txs| then 0 else Bringing(s.txs[s.lock[u]].phase, i)
  }

  function Bringing(phase: Phase, i: int): int {
    if phase.Inserted? && phase.row.instrumentId == i && phase.row.side.Buy? && phase.row.status.Filled?
    then phase.row.size else 0
  }

  predicate Means(rows: seq<Row>, u: int, i: int) { CashFold(rows, u) >= 1 || SharesFold(rows, u, i) >= 1 }

  /** A user can rest an order of this id: with a centavo or a share, or, with neither and no debt, out of
      shares bought at a close of zero by the order being written and by those that take the ids before. */
  predicate MayRest(s: State, id: int, u: int, i: int) {
    && u in s.users && Listed(s, i)
    && (Means(s.rows, u, i) ||
        (CashFold(s.rows, u) == 0 && SharesFold(s.rows, u, i) + Coming(s, u, i) + MAX_INT4 * (id - s.nextId) >= 1))
  }

  /* ---- Someone who can, does ---- */

  /** A key no row carries: longer than all of them. */
  function UnusedKey(rows: seq<Row>): (key: Key)
    ensures forall row :: row in rows && row.key.Some? ==> |row.key.value| < |key|
  {
    if rows == [] then "k" else
    var (key, last) := (UnusedKey(rows[..|rows| - 1]), rows[|rows| - 1]);
    if last.key.Some? && |last.key.value| >= |key| then last.key.value + "k" else key
  }

  lemma UnusedKeyIsFree(rows: seq<Row>, u: int)
    ensures ByKey(rows, u, UnusedKey(rows)).None?
  {
  }

  /** The user's lock is free, and the instrument costs nothing. */
  predicate AtHand(s: State, u: int, i: int) {
    u in s.users && u !in s.lock && QuoteOf(s.quotes, i) == Quote(false, Some(0))
  }

  /** One share at a centavo. */
  function SmallOrder(s: State, u: int, i: int): Request {
    Request(u, i, if CashFold(s.rows, u) >= 1 then Buy else Sell, Limit, Some(1), None, Some(1), UnusedKey(s.rows))
  }

  lemma SmallOrderRests(s: State, u: int, i: int)
    requires AtHand(s, u, i) && Means(s.rows, u, i)
    ensures Placeable(s, SmallOrder(s, u, i)) && RowFor(s, SmallOrder(s, u, i)).status == New
  {
    UnusedKeyIsFree(s.rows, u);
    ViewsAreFolds(s.rows, u, i);
  }

  /** As many shares as a column can hold, for nothing. */
  function FreeShares(s: State, u: int, i: int): Request {
    Request(u, i, Buy, Market, Some(MAX_INT4), None, None, UnusedKey(s.rows))
  }

  lemma FoldsAppend(rows: seq<Row>, row: Row, u: int, i: int)
    ensures CashFold(rows + [row], u) == CashFold(rows, u) + CashOf(u)(row)
    ensures SharesFold(rows + [row], u, i) == SharesFold(rows, u, i) + SharesOf(u, i)(row)
  {
    SumAppend(rows, row, CashOf(u));
    SumAppend(rows, row, SharesOf(u, i));
  }

  lemma FreeSharesFill(s: State, u: int, i: int)
    requires AtHand(s, u, i) && CashFold(s.rows, u) == 0
    ensures Placeable(s, FreeShares(s, u, i))
    ensures var row := RowFor(s, FreeShares(s, u, i));
            row == Row(s.nextId, u, i, Buy, MAX_INT4, 0, Market, Filled, row.key)
  {
    UnusedKeyIsFree(s.rows, u);
    ViewsAreFolds(s.rows, u, i);
  }

  lemma FreeSharesLand(s: State, u: int, i: int) returns (steps: seq<Step>)
    requires AtHand(s, u, i) && CashFold(s.rows, u) == 0
    ensures var s' := Run(s, steps);
            && AtHand(s', u, i) && s'.cancels == s.cancels && s'.nextId == s.nextId + 1
            && CashFold(s'.rows, u) == 0 && SharesFold(s'.rows, u, i) == SharesFold(s.rows, u, i) + MAX_INT4
  {
    FreeSharesFill(s, u, i);
    FoldsAppend(s.rows, RowFor(s, FreeShares(s, u, i)), u, i);
    steps := Lands(s, FreeShares(s, u, i));
  }

  /** What the user has, and what it can still get for nothing before the id is reached, is enough. */
  predicate CanGather(s: State, id: int, u: int, i: int) {
    Means(s.rows, u, i) ||
    (CashFold(s.rows, u) == 0 && SharesFold(s.rows, u, i) + MAX_INT4 * (id - s.nextId) >= 1)
  }

  /** Before its id is reached the user has the means. */
  lemma {:induction false} Gathers(s: State, id: int, u: int, i: int) returns (steps: seq<Step>)
    requires AtHand(s, u, i) && s.nextId <= id && CanGather(s, id, u, i)
    ensures var s' := Run(s, steps);
            AtHand(s', u, i) && Means(s'.rows, u, i) && s'.cancels == s.cancels && s'.nextId <= id
    decreases id - s.nextId
  {
    if Means(s.rows, u, i) {
      steps := [];
    } else {
      var first := FreeSharesLand(s, u, i);
      var more := Gathers(Run(s, first), id, u, i);
      RunConcat(s, first, more);
      steps := first + more;
    }
  }

  /** A row that is written was decided on the folds that stand. */
  lemma WrittenIsCovered(seed: seq<Row>, s: State, t: nat)
    requires Inv(seed, s) && t < |s.txs| && s.txs[t].phase.Inserted?
    ensures var (req, row) := (s.txs[t].req, s.txs[t].phase.row);
            && row.userId == req.userId && row.instrumentId == req.instrumentId
            && row.side == req.side && row.price >= 0 && 1 <= row.size <= MAX_INT4
            && row.status != Cancelled && (row.status == New ==> row.price >= 1)
            && (row.status.Rejected? <==> if row.side.Buy? then CashFold(s.rows, row.userId) < row.price * row.size
                                          else SharesFold(s.rows, row.userId, row.instrumentId) < row.size)
  {
    var tx := s.txs[t];
    assert TxOk(s.rows, s.nextId, s.log, t, tx);
    AcceptedIsCovered(s.rows, true, tx.phase.quote, tx.req, tx.phase.row.id);
    NeverCancelled(s.rows, tx.phase.quote, tx.req, tx.phase.row.id);
  }

  lemma NeverCancelled(rows: seq<Row>, quote: Quote, req: Request, id: int)
    ensures var a := Place(rows, true, quote, req, id); a.Created? ==> a.row.status != Cancelled
  {
  }

  /** Shares coming to a user without a centavo come for nothing. */
  lemma CommitBrings(seed: seq<Row>, s: State, u: int, i: int)
    requires Inv(seed, s) && CashFold(s.rows, u) == 0 && Coming(s, u, i) != 0
    ensures var s' := Next(s, Advance(s.lock[u]));
            && s'.users == s.users && s'.quotes == s.quotes && s'.cancels == s.cancels && s'.nextId == s.nextId
            && u !in s'.lock && CashFold(s'.rows, u) == 0
            && SharesFold(s'.rows, u, i) == SharesFold(s.rows, u, i) + Coming(s, u, i)
  {
    var t := s.lock[u];
    var row := s.txs[t].phase.row;
    WrittenIsCovered(seed, s, t);
    CommitAppends(s, t);
    FreeFill(row);
    FoldsAppend(s.rows, row, u, i);
  }

  lemma FreeFill(row: Row)
    requires row.side.Buy? && row.status.Filled? && row.price >= 0 && row.size >= 1 && row.price * row.size <= 0
    ensures CashDelta(row) == 0
  {
    assert row.price * row.size >= 0;
  }

  /** Whoever holds the user's lock ends, with the shares it brings or without. */
  lemma LockFrees(seed: seq<Row>, s: State, id: int, u: int, i: int) returns (step: Step)
    requires Inv(seed, s) && MayRest(s, id, u, i) && QuoteOf(s.quotes, i) == Quote(false, Some(0)) && u in s.lock
    ensures var s' := Next(s, step);
            AtHand(s', u, i) && s'.cancels == s.cancels && s'.nextId == s.nextId && CanGather(s', id, u, i)
  {
    var t := s.lock[u];
    if Means(s.rows, u, i) || Coming(s, u, i) == 0 {
      step := GiveUp(t);
    } else {
      step := Advance(t);
      CommitBrings(seed, s, u, i);
    }
  }

  lemma CloseDropsToZero(s: State, id: int, u: int, i: int)
    requires MayRest(s, id, u, i)
    ensures var s' := Next(s, MarketMove(i, 0));
            && s' == s.(quotes := s'.quotes) && QuoteOf(s'.quotes, i) == Quote(false, Some(0)) && MayRest(s', id, u, i)
  {
  }

  lemma Frees(seed: seq<Row>, s: State, id: int, u: int, i: int) returns (steps: seq<Step>)
    requires Inv(seed, s) && MayRest(s, id, u, i)
    ensures var s' := Run(s, steps);
            AtHand(s', u, i) && s'.cancels == s.cancels && s'.nextId == s.nextId && CanGather(s', id, u, i)
  {
    var drop := MarketMove(i, 0);
    steps := [] + [drop];
    RunPush(s, [], drop);
    CloseDropsToZero(s, id, u, i);
    if u in s.lock {
      NextKeepsInv(seed, s, drop);
      var step := LockFrees(seed, Next(s, drop), id, u, i);
      RunPush(s, steps, step);
      steps := steps + [step];
    }
  }

  /** The call is open, its UPDATE found no row, and a NEW order of its id is written. */
  ghost predicate OpenArrival(s: State, c: nat, id: int) {
    c < |s.cancels| && s.cancels[c] == Missing(id, false) && Arriving(s.txs, id)
  }

  lemma OpenArrivalIsTold(s: State, c: nat, id: int) returns (more: seq<Step>)
    requires OpenArrival(s, c, id)
    ensures var end := Run(s, more);
            c < |end.cancels| && end.cancels[c].CancelDone? && end.cancels[c].answer == Conflict(New)
  {
    var t: nat :| t < |s.txs| && s.txs[t].phase.Inserted? && s.txs[t].phase.row.id == id
                  && s.txs[t].phase.row.status == New;
    more := [Advance(t)] + [CancelReread(c)];
    RunPush(s, [], Advance(t));
    RunPush(s, [Advance(t)], CancelReread(c));
    assert [] + [Advance(t)] == [Advance(t)];
    CommitAppends(s, t);
    LateRereadHits(Next(s, Advance(t)), s.txs[t].phase.row, c);
  }

  /** Someone at hand with the means uses up the ids before, writes an order under the next, and the
      cancel that missed it is told. */
  lemma ArrivesAndIsTold(s: State, c: nat, id: int, u: int, i: int) returns (steps: seq<Step>)
    requires AtHand(s, u, i) && Means(s.rows, u, i) && s.nextId <= id
    requires c < |s.cancels| && s.cancels[c] == Missing(id, false)
    ensures var end := Run(s, steps);
            c < |end.cancels| && end.cancels[c].CancelDone? && end.cancels[c].answer == Conflict(New)
  {
    var req := SmallOrder(s, u, i);
    SmallOrderRests(s, u, i);
    var spent := SpendsUpTo(s, req, id);
    var ready := Run(s, spent);
    StillPlaced(s, ready, req);
    var written := Writes(ready, req);
    var arrived := Run(ready, written);
    assert arrived.txs[|arrived.txs| - 1].phase.Inserted?;
    var told := OpenArrivalIsTold(arrived, c, id);
    RunConcat(s, spent, written);
    RunConcat(s, spent + written, told);
    steps := spent + written + told;
  }

  lemma MayRestIsTold(seed: seq<Row>, s: State, c: nat, id: int, u: int, i: int) returns (steps: seq<Step>)
    requires Inv(seed, s) && MayRest(s, id, u, i) && s.nextId <= id
    requires c < |s.cancels| && s.cancels[c] == Missing(id, false)
    ensures var end := Run(s, steps);
            c < |end.cancels| && end.cancels[c].CancelDone? && end.cancels[c].answer == Conflict(New)
  {
    var free := Frees(seed, s, id, u, i);
    var gathered := Gathers(Run(s, free), id, u, i);
    RunConcat(s, free, gathered);
    var told := ArrivesAndIsTold(Run(s, free + gathered), c, id, u, i);
    RunConcat(s, free + gathered, told);
    steps := free + gathered + told;
  }

  /* ---- Where nobody can, nobody ever will ---- */

  /** A transaction past its look-ups found its user, and an instrument that can be traded. */
  predicate LookedUp(s: State, tx: Tx) {
    && (tx.phase.KnownUser? || Priced(tx.phase) ==> tx.req.userId in s.users)
    && (Priced(tx.phase) ==> Listed(s, tx.req.instrumentId))
  }

  predicate Priced(phase: Phase) { phase.Sizing? || phase.CashRead? || phase.Ready? || phase.Inserted? }

  predicate AllLookedUp(s: State) { forall t :: 0 <= t < |s.txs| ==> LookedUp(s, s.txs[t]) }

  lemma NextKeepsLookedUp(s: State, step: Step)
    requires AllLookedUp(s)
    ensures AllLookedUp(Next(s, step)) && Next(s, step).users == s.users
    ensures forall i :: Listed(Next(s, step), i) <==> Listed(s, i)
  {
  }

  lemma {:induction false} RunKeepsLookedUp(s: State, steps: seq<Step>)
    requires AllLookedUp(s)
    ensures AllLookedUp(Run(s, steps))
  {
    if steps != [] {
      RunKeepsLookedUp(s, steps[..|steps| - 1]);
      NextKeepsLookedUp(Run(s, steps[..|steps| - 1]), steps[|steps| - 1]);
    }
  }

  ghost predicate Barred(s: State, id: int) { forall u, i :: !MayRest(s, id, u, i) }

  /** What a user nobody let trade has written is a rejection, or shares for nothing. */
  lemma BarredWrites(seed: seq<Row>, s: State, id: int, t: nat)
    requires Inv(seed, s) && AllLookedUp(s) && Barred(s, id) && t < |s.txs| && s.txs[t].phase.Inserted?
    ensures var row := s.txs[t].phase.row;
            && row.userId == s.txs[t].req.userId
            && (row.status.Rejected? ||
                (row.side.Buy? && row.status.Filled? && row.price * row.size == 0 && CashFold(s.rows, row.userId) == 0))
  {
    var row := s.txs[t].phase.row;
    WrittenIsCovered(seed, s, t);
    assert LookedUp(s, s.txs[t]) && !MayRest(s, id, row.userId, row.instrumentId);
    MeanslessRow(row, CashFold(s.rows, row.userId), SharesFold(s.rows, row.userId, row.instrumentId));
  }

  lemma MeanslessRow(row: Row, cash: int, shares: int)
    requires row.side.Buy? || row.side.Sell?
    requires row.size >= 1 && row.price >= 0 && row.status != Cancelled && (row.status == New ==> row.price >= 1)
    requires row.status.Rejected? <==> if row.side.Buy? then cash < row.price * row.size else shares < row.size
    requires cash <= 0 && shares <= 0
    ensures row.status.Rejected? ||
            (row.side.Buy? && row.status.Filled? && row.price * row.size == 0 && cash == 0)
  {
    CostsSomething(row.price, row.size);
  }

  lemma CostsSomething(price: int, size: int)
    requires size >= 1 && price >= 0
    ensures price * size >= 0 && (price >= 1 ==> price * size >= 1)
  {
  }

  /** A statement that neither writes nor commits brings nobody anything. */
  lemma ReadBrings(seed: seq<Row>, s: State, t: nat, u: int, i: int)
    requires Inv(seed, s) && Enabled(s, Advance(t))
    requires !s.txs[t].phase.Inserted? && !NextPhase(s, s.txs[t]).Inserted?
    ensures var s' := Next(s, Advance(t));
            s'.rows == s.rows && s'.nextId == s.nextId && Coming(s', u, i) == Coming(s, u, i)
  {
    assert TxOk(s.rows, s.nextId, s.log, t, s.txs[t]);
  }

  /** An order written brings what a column can hold at the most, and takes an id. */
  lemma WriteBrings(seed: seq<Row>, s: State, t: nat, u: int, i: int)
    requires Inv(seed, s) && Enabled(s, Advance(t)) && NextPhase(s, s.txs[t]).Inserted?
    ensures var s' := Next(s, Advance(t));
            s'.rows == s.rows && s'.nextId == s.nextId + 1 && Coming(s', u, i) <= Coming(s, u, i) + MAX_INT4
  {
    var s' := Next(s, Advance(t));
    NextKeepsInv(seed, s, Advance(t));
    WrittenIsCovered(seed, s', t);
  }

  /** The user's order is committed, and no longer coming. */
  lemma CommitEnds(seed: seq<Row>, s: State, t: nat, u: int, i: int)
    requires Inv(seed, s) && Enabled(s, Advance(t)) && s.txs[t].phase.Inserted?
    ensures var (s', tx) := (Next(s, Advance(t)), s.txs[t]);
            && s'.rows == s.rows + [tx.phase.row] && s'.nextId == s.nextId
            && (tx.req.userId == u ==> Coming(s', u, i) == 0 && Coming(s, u, i) == Bringing(tx.phase, i))
            && (tx.req.userId != u ==> Coming(s', u, i) == Coming(s, u, i))
  {
  }

  /** An order committed brings what it was going to. */
  lemma CommitKeepsBarred(seed: seq<Row>, s: State, t: nat, id: int, u: int, i: int)
    requires Inv(seed, s) && AllLookedUp(s) && Barred(s, id) && Enabled(s, Advance(t)) && s.txs[t].phase.Inserted?
    requires s.nextId <= id
    ensures !MayRest(Next(s, Advance(t)), id, u, i)
  {
    var phase := s.txs[t].phase;
    assert !MayRest(s, id, u, i);
    BarredWrites(seed, s, id, t);
    CommitEnds(seed, s, t, u, i);
    FoldsAppend(s.rows, phase.row, u, i);
    BarredMove(phase, u, i);
  }

  lemma BarredMove(phase: Phase, u: int, i: int)
    requires phase.Inserted?
    requires var row := phase.row;
             row.status.Rejected? || (row.side.Buy? && row.status.Filled? && row.price * row.size == 0)
    ensures CashOf(u)(phase.row) == 0
    ensures SharesOf(u, i)(phase.row) == if phase.row.userId == u then Bringing(phase, i) else 0
  {
  }

  lemma AdvanceKeepsBarred(seed: seq<Row>, s: State, t: nat, id: int, u: int, i: int)
    requires Inv(seed, s) && AllLookedUp(s) && Barred(s, id) && Enabled(s, Advance(t)) && s.nextId <= id
    ensures !MayRest(Next(s, Advance(t)), id, u, i)
  {
    assert !MayRest(s, id, u, i);
    if s.txs[t].phase.Inserted? {
      CommitKeepsBarred(seed, s, t, id, u, i);
    } else if NextPhase(s, s.txs[t]).Inserted? {
      WriteBrings(seed, s, t, u, i);
    } else {
      ReadBrings(seed, s, t, u, i);
    }
  }

  lemma GiveUpBrings(seed: seq<Row>, s: State, t: nat, u: int, i: int)
    requires Inv(seed, s) && Enabled(s, GiveUp(t))
    ensures Coming(Next(s, GiveUp(t)), u, i) <= Coming(s, u, i)
  {
    if u in s.lock && s.txs[s.lock[u]].phase.Inserted? {
      WrittenIsCovered(seed, s, s.lock[u]);
    }
  }

  lemma CancelMovesNothing(s: State, id: int, u: int, i: int)
    ensures var s' := Next(s, CancelUpdate(id));
            && CashFold(s'.rows, u) == CashFold(s.rows, u) && SharesFold(s'.rows, u, i) == SharesFold(s.rows, u, i)
            && Coming(s', u, i) == Coming(s, u, i) && s'.nextId == s.nextId
  {
    if Cancel(s.rows, id).0.CancelOk? {
      var (at, row) := (FindId(s.rows, id).value, Cancel(s.rows, id).0.row);
      SumUpdate(s.rows, at, row, CashOf(u));
      SumUpdate(s.rows, at, row, SharesOf(u, i));
    }
  }

  /** No step gives anybody the means. */
  lemma NextKeepsBarred(seed: seq<Row>, s: State, step: Step, id: int)
    requires Inv(seed, s) && AllLookedUp(s) && Barred(s, id) && s.nextId <= id
    ensures Barred(Next(s, step), id)
  {
    NextKeepsLookedUp(s, step);
    forall u, i ensures !MayRest(Next(s, step), id, u, i) {
      assert !MayRest(s, id, u, i);
      if Enabled(s, step) {
        match step
        case Advance(t) => AdvanceKeepsBarred(seed, s, t, id, u, i);
        case GiveUp(t) => GiveUpBrings(seed, s, t, u, i);
        case CancelUpdate(cancelled) => CancelMovesNothing(s, cancelled, u, i);
        case _ =>
      }
    }
  }

  /** So the id goes by without a NEW order, and the cancel is told something else. */
  ghost predicate Shut(s: State, id: int) {
    NeverNew(s, id) || (s.nextId <= id && Barred(s, id) && AllLookedUp(s))
  }

  lemma NextKeepsShut(seed: seq<Row>, s: State, step: Step, id: int)
    requires Inv(seed, s) && Shut(s, id)
    ensures Shut(Next(s, step), id)
  {
    if NeverNew(s, id) {
      NextKeepsNeverNew(seed, s, step, id);
    } else {
      var s' := Next(s, step);
      NextKeepsBarred(seed, s, step, id);
      NextKeepsLookedUp(s, step);
      if s'.nextId > id {
        IdGoesBy(seed, s, step, id);
      }
    }
  }

  lemma IdGoesBy(seed: seq<Row>, s: State, step: Step, id: int)
    requires Inv(seed, s) && AllLookedUp(s) && Barred(s, id) && s.nextId <= id < Next(s, step).nextId
    ensures NeverNew(Next(s, step), id)
  {
    var s' := Next(s, step);
    NextKeepsInv(seed, s, step);
    NextKeepsBarred(seed, s, step, id);
    NextKeepsLookedUp(s, step);
    forall t | 0 <= t < |s'.txs| && s'.txs[t].phase.Inserted? ensures s'.txs[t].phase.row.status != New {
      BarredWrites(seed, s', id, t);
    }
    assert s'.rows == s.rows;
  }

  lemma {:induction false} StaysShut(seed: seq<Row>, s: State, steps: seq<Step>, c: nat, id: int)
    requires Inv(seed, s) && Shut(s, id) && NotToldNew(s.cancels, c, id)
    ensures Inv(seed, Run(s, steps)) && Shut(Run(s, steps), id) && NotToldNew(Run(s, steps).cancels, c, id)
  {
    if steps != [] {
      var n := |steps| - 1;
      StaysShut(seed, s, steps[..n], c, id);
      NextKeepsInv(seed, Run(s, steps[..n]), steps[n]);
      NextKeepsShut(seed, Run(s, steps[..n]), steps[n], id);
      ShutIsNotTold(seed, Run(s, steps[..n]), steps[n], c, id);
    }
  }

  lemma ShutIsNotTold(seed: seq<Row>, s: State, step: Step, c: nat, id: int)
    requires Inv(seed, s) && Shut(s, id) && NotToldNew(s.cancels, c, id)
    ensures NotToldNew(Next(s, step).cancels, c, id)
  {
    if NeverNew(s, id) {
      NextKeepsNotTold(s, step, c, id);
    } else {
      RereadFindsNone(s, step, c, id);
    }
  }

  lemma RereadFindsNone(s: State, step: Step, c: nat, id: int)
    requires IdsInv(s) && s.nextId <= id && NotToldNew(s.cancels, c, id)
    ensures NotToldNew(Next(s, step).cancels, c, id)
  {
    if step == CancelReread(c) {
      assert FindId(s.rows, id).None?;
    }
  }

  /* ---- Told by the ledger ---- */

  lemma FreshUpdateMisses(s: State, id: int)
    requires IdsInv(s) && id >= s.nextId
    ensures Next(s, CancelUpdate(id)) == s.(cancels := s.cancels + [Missing(id, false)])
  {
  }

  /** For an id not handed out at the UPDATE: the cancel can be answered that the order is NEW exactly when
      some user of the table can rest an order of that id: with a centavo or a share of an instrument that
      trades, or without debt where the ids in between leave room to be given shares at a close of zero. */
  lemma FreshConflictOutlook(s: State, steps: seq<Step>, id: int)
    requires Seed(s) && id >= Run(s, steps).nextId
    ensures (exists more :: ToldNew(Run(s, steps), id, more)) <==> (exists u, i :: MayRest(Run(s, steps), id, u, i))
  {
    var s' := Run(s, steps);
    var (c, updated) := (|s'.cancels|, Next(s', CancelUpdate(id)));
    Reachable(s, steps);
    RunKeepsLookedUp(s, steps);
    FreshUpdateMisses(s', id);
    NextKeepsInv(s.rows, s', CancelUpdate(id));
    if u, i :| MayRest(s', id, u, i) {
      var more := MayRestIsTold(s.rows, updated, c, id, u, i);
      assert ToldNew(s', id, more);
    } else {
      forall u, i ensures !MayRest(updated, id, u, i) {
        assert !MayRest(s', id, u, i);
      }
      forall more ensures !ToldNew(s', id, more) {
        StaysShut(s.rows, updated, more, c, id);
      }
    }
  }
}
