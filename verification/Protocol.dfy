/** Any number of placements and cancels interleaving over one orders table.

    A placement is a transaction whose statements run one at a time under READ COMMITTED;
    a per-user lock, exclusive and held to commit or abort, is all that orders them. Each
    step below is one statement of one call. A step that is not enabled does nothing, so
    every sequence of steps is a run. */
module Protocol {
  import opened Options
  import opened OrderRules
  import opened Ledger
  import opened Placement

  /** How far one placement's transaction has got, with everything it has read so far. */
  datatype Phase =
    | Queued                                                  // waiting for the lock
    | Locked
    | Found(row: Row)                                         // the key names an order already
    | Missed                                                  // the key is free
    | KnownUser
    | Sizing(close: nat, size: int)
    | CashRead(close: nat, size: int, cash: int)
    | Ready(close: nat, size: int, cash: int, held: int)
    | Inserted(quote: Quote, row: Row)                        // written, not committed
    | Refused(known: bool, quote: Quote, answer: Answer)      // thrown, not rolled back yet
    | Done(answer: Answer)

  datatype Tx = Tx(req: Request, phase: Phase)

  /** A cancel is one UPDATE and, when that touched nothing, one read of the status. */
  datatype CancelCall =
    | Missing(id: int, seen: bool)                      // seen: the row was there for the UPDATE
    | CancelDone(id: int, seen: bool, answer: CancelAnswer)

  /** The serial history a run leaves behind, in the order its effects took place. */
  datatype Event =
    | PlaceEvent(t: nat, req: Request, known: bool, quote: Quote, id: int, answer: Answer)
    | CancelEvent(id: int, seen: bool, cancelled: CancelAnswer)

  datatype State = State(
    users: set<int>,
    quotes: map<int, Quote>,
    rows: seq<Row>,                 // committed rows, in commit order
    nextId: int,                    // the id sequence: never rolled back
    lock: map<int, nat>,            // user -> the transaction holding its lock
    txs: seq<Tx>,
    cancels: seq<CancelCall>,
    log: seq<Event>)

  datatype Step =
    | Begin(req: Request)
    | Advance(t: nat)               // the transaction's next statement
    | GiveUp(t: nat)                // timeout or crash, at any point before the commit
    | CancelUpdate(id: int)
    | CancelReread(c: nat)
    | MarketMove(instrument: int, close: nat)

  predicate InSection(phase: Phase) { !phase.Queued? && !phase.Done? }

  function QuoteOf(quotes: map<int, Quote>, instrument: int): Quote {
    if instrument in quotes then quotes[instrument] else NoInstrument
  }

  /** The next statement of a transaction: what it reads, and the phase that leaves it in. */
  function NextPhase(s: State, tx: Tx): Phase
    requires !tx.phase.Done?
  {
    var req := tx.req;
    match tx.phase
    case Queued => Locked
    case Locked =>
      (match ByKey(s.rows, req.userId, req.key)
       case Some(row) => Found(row)
       case None => Missed)
    case Found(row) => Done(Replayed(row))
    case Missed =>
      if req.userId in s.users then KnownUser else Refused(false, NoInstrument, UserNotFound)
    case KnownUser =>
      var quote := QuoteOf(s.quotes, req.instrumentId);
      var (close, refusal) := Tradable(req, quote);
      if close.None? then Refused(true, quote, refusal) else
      var sizing := SizeOf(req, close.value);
      if sizing.Sized? then Sizing(close.value, sizing.size) else Refused(true, quote, BadSize)
    case Sizing(close, size) => CashRead(close, size, AvailableCash(s.rows, req.userId))
    case CashRead(close, size, cash) =>
      Ready(close, size, cash, HeldShares(s.rows, req.userId, req.instrumentId))
    case Ready(close, size, cash, held) =>
      if ByKey(s.rows, req.userId, req.key).Some? then Refused(true, Quote(false, Some(close)), DuplicateKey)
      else Inserted(Quote(false, Some(close)), NewRow(req, close, size, cash, held, s.nextId))
    case Inserted(_, row) => Done(Created(row))
    case Refused(_, _, answer) => Done(answer)
  }

  /** What a transaction's step adds to the history, if it is where the call takes effect:
      a replay at its lookup, an order at its commit, a refusal at its rollback. */
  function EventOf(s: State, t: nat, tx: Tx): seq<Event>
    requires !tx.phase.Done?
  {
    match tx.phase
    case Locked =>
      (match ByKey(s.rows, tx.req.userId, tx.req.key)
       case Some(row) => [PlaceEvent(t, tx.req, false, NoInstrument, 0, Replayed(row))]
       case None => [])
    case Inserted(quote, row) => [PlaceEvent(t, tx.req, true, quote, row.id, Created(row))]
    case Refused(known, quote, answer) => [PlaceEvent(t, tx.req, known, quote, 0, answer)]
    case _ => []
  }

  predicate Enabled(s: State, step: Step) {
    match step
    case Begin(req) => WellFormed(req)
    case Advance(t) =>
      && t < |s.txs| && !s.txs[t].phase.Done?
      && (s.txs[t].phase.Queued? ==> s.txs[t].req.userId !in s.lock)
    case GiveUp(t) => t < |s.txs| && !s.txs[t].phase.Done?
    case CancelUpdate(_) => true
    case CancelReread(c) => c < |s.cancels| && s.cancels[c].Missing?
    case MarketMove(i, _) => i in s.quotes && s.quotes[i].Quote?
  }

  function Unlock(s: State, t: nat): map<int, nat>
    requires t < |s.txs|
  {
    if InSection(s.txs[t].phase) then s.lock - {s.txs[t].req.userId} else s.lock
  }

  function DoAdvance(s: State, t: nat): State
    requires Enabled(s, Advance(t))
  {
    var tx := s.txs[t];
    var phase := NextPhase(s, tx);
    s.(txs := s.txs[t := Tx(tx.req, phase)],
       lock := if phase.Locked? then s.lock[tx.req.userId := t]
               else if phase.Done? then Unlock(s, t) else s.lock,
       nextId := if phase.Inserted? then s.nextId + 1 else s.nextId,
       rows := if phase.Done? then Placed(s.rows, phase.answer) else s.rows,
       log := s.log + EventOf(s, t, tx))
  }

  function DoGiveUp(s: State, t: nat): State
    requires Enabled(s, GiveUp(t))
  {
    s.(txs := s.txs[t := Tx(s.txs[t].req, Done(Shed))], lock := Unlock(s, t))
  }

  function DoCancelUpdate(s: State, id: int): State {
    var (answer, rows) := Cancel(s.rows, id);
    if answer.CancelOk? then
      s.(rows := rows, cancels := s.cancels + [CancelDone(id, true, answer)],
         log := s.log + [CancelEvent(id, true, answer)])
    else s.(cancels := s.cancels + [Missing(id, FindId(s.rows, id).Some?)])
  }

  function DoCancelReread(s: State, c: nat): State
    requires Enabled(s, CancelReread(c))
  {
    var call := s.cancels[c];
    var answer := match FindId(s.rows, call.id)
                  case None => OrderNotFound
                  case Some(i) => Conflict(s.rows[i].status);
    s.(cancels := s.cancels[c := CancelDone(call.id, call.seen, answer)],
       log := s.log + [CancelEvent(call.id, call.seen, answer)])
  }

  function Next(s: State, step: Step): State {
    if !Enabled(s, step) then s else
    match step
    case Begin(req) => s.(txs := s.txs + [Tx(req, Queued)])
    case Advance(t) => DoAdvance(s, t)
    case GiveUp(t) => DoGiveUp(s, t)
    case CancelUpdate(id) => DoCancelUpdate(s, id)
    case CancelReread(c) => DoCancelReread(s, c)
    case MarketMove(i, close) => s.(quotes := s.quotes[i := s.quotes[i].(close := Some(close))])
  }

  function Run(s: State, steps: seq<Step>): State {
    if steps == [] then s else Next(Run(s, steps[..|steps| - 1]), steps[|steps| - 1])
  }

  /** A seeded table nothing has been sent to yet: distinct ids, increasing for each user,
      all handed out, and keys unique where a row carries one. */
  predicate Seed(s: State) {
    && s.lock == map[] && s.txs == [] && s.cancels == [] && s.log == []
    && IdsUnique(s.rows) && UserIdsIncrease(s.rows) && KeysUnique(s.rows)
    && (forall row :: row in s.rows ==> row.id < s.nextId)
  }

  /* ---- The serial reading of a history ---- */

  /** A 409 that names NEW: the re-read found a row the UPDATE had come too early for. */
  predicate StaleConflict(e: Event) {
    e.CancelEvent? && e.cancelled == Conflict(New)
  }

  /** The event's answer is the one its call gets when it runs alone against `rows`. */
  predicate Faithful(rows: seq<Row>, e: Event) {
    match e
    case PlaceEvent(_, req, known, quote, id, answer) =>
      WellFormed(req) && answer == Place(rows, known, quote, req, id)
    case CancelEvent(id, _, answer) => answer == Cancel(rows, id).0
  }

  function Effect(rows: seq<Row>, e: Event): seq<Row> {
    match e
    case PlaceEvent(_, _, _, _, _, answer) => Placed(rows, answer)
    case CancelEvent(id, _, answer) => if StaleConflict(e) then rows else Cancel(rows, id).1
  }

  /** The table a history leaves when its calls run one at a time. */
  function Replay(seed: seq<Row>, log: seq<Event>): seq<Row> {
    if log == [] then seed else Effect(Replay(seed, log[..|log| - 1]), log[|log| - 1])
  }

  /** Every call in the history got the answer it gets running alone, stale conflicts aside. */
  predicate Serial(seed: seq<Row>, log: seq<Event>) {
    forall k :: 0 <= k < |log| ==> (StaleConflict(log[k]) || Faithful(Replay(seed, log[..k]), log[k]))
  }
}
