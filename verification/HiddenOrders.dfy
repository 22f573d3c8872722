/** An order whose answer was hidden or never came, followed from the rows the gateway leaves to the
    verdict of the back office. */
module HiddenOrders {
  import opened Options
  import opened Ledger
  import opened Placement
  import opened Protocol
  import opened LogicalOrder
  import opened AttemptsStore
  import opened AnomaliesStore
  import opened Gateway
  import opened Backoffice
  import opened LostOrders

  /* ---- What the rows of a send say ---- */

  /** Which rows of a send owe an order: the first, when the call places one and nobody was told what became
      of it, hidden or silent; a retry's, when its own answer never came; a note of the harness, never. */
  lemma CandidatesOfATrace(call: Call, minted: Key, dice: Dice, first: Reply, second: Call, again: Reply, lost: nat)
    requires (first.Heard? ==> first.status != 0) && (again.Heard? ==> again.status != 0)
    requires second.placement == call.placement
    ensures var rows := Trace(call, minted, dice, first, second, again, lost);
            var owed := if call.placement.Some? then Some(LostPlacement(call.placement.value, minted)) else None;
            && rows != [] && !rows[0].note
            && LostCandidate(rows[0]) == (if first.Silence? || dice.drops then owed else None)
            && (forall i :: 1 <= i < |rows| && rows[i].note ==> !Owed(rows[i]))
            && (forall i :: 1 <= i < |rows| && !rows[i].note ==>
                  rows[i].chaos.retryOf == Some(lost)
                  && LostCandidate(rows[i]) == if again.Silence? then owed else None)
  {
  }

  /** What the first row says of its call: when it went out, how long its caller waited, held back included,
      and what the caller was told. */
  lemma FirstRowIsHonest(call: Call, minted: Key, dice: Dice, first: Reply, second: Call, again: Reply, lost: nat)
    requires first.Heard? ==> first.status != 0
    ensures var row := Trace(call, minted, dice, first, second, again, lost)[0];
            && row.at == call.at && row.latencyMs == call.latencyMs + dice.delayedMs
            && row.placement == call.placement && row.orderId.None?
            && (row.status == 0 <==> first.Silence? || (call.placement.Some? && dice.drops))
            && (row.status != 0 ==> row.status == first.status)
  {
  }

  /** A placement without an answer is sent again exactly when the dice say so, and the row of the retry has
      the status and the order it was answered with, when it was sent and how long it took. */
  lemma RetryRowIsHonest(call: Call, minted: Key, dice: Dice, first: Reply, second: Call, again: Reply, lost: nat)
    requires first.Heard? ==> first.status != 0
    ensures var rows := Trace(call, minted, dice, first, second, again, lost);
            var retried := call.placement.Some? && (first.Silence? || dice.drops) && dice.retries;
            && (!retried ==> forall i :: 1 <= i < |rows| ==> rows[i].note)
            && (retried ==>
                  && |rows| >= 3
                  && var row := rows[|rows| - 2];
                  && row.id == lost + |rows| - 2 && !row.note && row.chaos.retryOf == Some(lost)
                  && row.key == Some(minted) && row.at == second.at && row.latencyMs == second.latencyMs
                  && (again.Heard? ==> row.status == again.status && row.orderId == again.orderId)
                  && (again.Silence? ==> row.status == 0 && row.orderId.None?))
  {
  }

  /** An answer of the target's is a success exactly when it names an order; a refusal of any kind stored
      nothing, so only a call that never came back can have been processed unseen. */
  lemma OnlySilenceHidesAnOrder(rows: seq<Row>, answer: Answer)
    ensures 200 <= HttpStatus(answer) < 300 <==> OrderIdOf(answer).Some?
    ensures HttpStatus(answer) == 201 <==> answer.Created?
    ensures HttpStatus(answer) == 200 <==> answer.Replayed?
    ensures HttpStatus(answer) == 404 <==> answer == UserNotFound || answer == InstrumentNotFound
    ensures HttpStatus(answer) == 400 <==> answer == NotTradable || answer == NoMarketData || answer == BadSize
    ensures HttpStatus(answer) >= 500 <==> answer == DuplicateKey || answer == Shed
    ensures HttpStatus(answer) != 201 ==> Placed(rows, answer) == rows
  {
  }

  /* ---- From the gateway to what is pending ---- */

  /** A scan that comes to a row that owes an order makes it pending. */
  method ScanReaches(service: BackofficeService, now: int, ghost id: nat)
    requires service.Watching() && service.scanned < id <= |service.attempts.log| && service.attempts.Retained(id)
    requires var row := service.attempts.log[id - 1]; !row.note && LostCandidate(row).Some?
    requires forall k :: service.From() <= k < id ==>
               service.attempts.log[k].at + service.attempts.log[k].latencyMs + 250 <= now
    modifies service`scanned, service`simulatedOrders, service`pending, service`seen
    ensures service.Watching() && service.scanned >= id && id in service.pending
    ensures var row := service.attempts.log[id - 1];
            service.pending[id] == Candidate(row, LostCandidate(row).value)
  {
    ghost var log, seen0, scanned0 := service.attempts.log, service.seen, service.scanned;
    ghost var from, taken := service.Scan(now);
    assert id - 1 < from + |taken|;
    assert taken[id - 1 - from] == log[id - 1];
    LookedAtIsPending(service.seen, seen0, scanned0, taken, service.pending, service.settled, log[id - 1]);
  }

  /** A row looked at just now that owes an order is pending: it was not settled before it was looked at. */
  lemma LookedAtIsPending(seen: seq<Attempt>, seen0: seq<Attempt>, scanned0: nat, taken: seq<Attempt>,
                          pending: map<nat, Candidate>, settled: map<nat, Settled>, row: Attempt)
    requires Increasing(seen) && Accounted(seen, pending, settled) && row in seen && row.id > scanned0 && Owed(row)
    requires seen == seen0 + taken && forall i :: 0 <= i < |seen0| ==> seen0[i].id <= scanned0
    requires forall id :: id in settled ==> id <= scanned0
    ensures row.id in pending && pending[row.id] == Candidate(row, LostCandidate(row).value)
  {
    assert row.id in OwedIds(seen);
    assert Genuine(seen, pending[row.id], row.id);
  }

  /** A send, and a scan once its first row has settled: the order is pending, under its user and its key,
      exactly as the database will be asked for it, whenever its answer was hidden or never came. */
  method SendAndScan(gateway: GatewayService, service: BackofficeService, call: Call, minted: Key, dice: Dice,
                     first: Reply, second: Call, again: Reply, now: int)
    returns (id: nat)
    requires gateway.attempts == service.attempts && service.attempts.capacity == ATTEMPTS_CAPACITY
    requires service.Watching() && (first.Heard? ==> first.status != 0) && (again.Heard? ==> again.status != 0)
    requires second.placement == call.placement
    requires call.placement.Some? && (first.Silence? || dice.drops)
    requires forall k :: service.From() <= k < |service.attempts.log| ==>
               service.attempts.log[k].at + service.attempts.log[k].latencyMs + 250 <= now
    requires call.at + call.latencyMs + dice.delayedMs + 250 <= now
    modifies service`scanned, service`simulatedOrders, service`pending, service`seen, service.attempts
    ensures service.Watching() && id == |old(service.attempts.log)| + 1
    ensures service.attempts.log ==
            old(service.attempts.log) + Trace(call, minted, dice, first, second, again, id)
    ensures id in service.pending && service.pending[id].lost == LostPlacement(call.placement.value, minted)
    ensures service.pending[id].attempt.at == call.at && service.pending[id].attempt.id == id
  {
    ghost var log := service.attempts.log;
    var result := gateway.Send(call, minted, dice, first, second, again);
    id := result.attemptId;
    ghost var rows := Trace(call, minted, dice, first, second, again, id);
    FirstRowIsHonest(call, minted, dice, first, second, again, id);
    CandidatesOfATrace(call, minted, dice, first, second, again, id);
    Extends(log, rows);
    service.OthersRecord();
    ScanReaches(service, now, id);
  }

  lemma Extends(log: seq<Attempt>, rows: seq<Attempt>)
    ensures Grown(log, log + rows)
    ensures forall k :: 0 <= k < |log| ==> (log + rows)[k] == log[k]
    ensures rows != [] ==> (log + rows)[|log|] == rows[0]
  {
  }

  /* ---- From what is pending to the verdict ---- */

  lemma {:induction false} FindingsInclude(due: seq<nat>, n: nat, candidates: map<nat, Candidate>,
                                           db: (nat, LostPlacement) -> Lookup, acknowledged: set<int>, k: nat)
    requires k < n <= |due| && LookupOf(due, k, candidates, db).Matches?
    ensures LostOrder(due[k], VerdictOn(LookupOf(due, k, candidates, db).rows, acknowledged))
            in FindingsOf(due, n, candidates, db, acknowledged)
  {
    if k == n - 1 {
      var found := FindingsOn(due[k], LookupOf(due, k, candidates, db), acknowledged);
      assert found[0] in found;
    } else {
      FindingsInclude(due, n - 1, candidates, db, acknowledged, k);
    }
  }

  /** The database's answer for this order, whenever in the pass it is asked. */
  ghost predicate LooksUp(db: (nat, LostPlacement) -> Lookup, lost: LostPlacement, rows: seq<Row>) {
    && (forall k, other :: db(k, other).Matches?)
    && (forall k :: db(k, lost).rows == AsDbRows(MatchByKey(rows, lost.userId, lost.key)))
  }

  lemma PassReports(found: seq<Anomaly<Finding>>, n: nat, due: seq<nat>, books: Books, now: int,
                    db: (nat, LostPlacement) -> Lookup, acknowledged: set<int>, after: Books, error: Option<string>,
                    id: nat, rows: seq<Row>)
    requires Passed(found, n, due, books, now, db, acknowledged, after) && StoppedAt(n, due, books.pending, db, error)
    requires DueBy(books.pending, now, due) && id in due && LooksUp(db, books.pending[id].lost, rows)
    ensures var lost := books.pending[id].lost;
            LostOrder(id, VerdictOn(AsDbRows(MatchByKey(rows, lost.userId, lost.key)), acknowledged)) in Said(found)
    ensures id !in after.pending && id in after.settled
  {
    var k :| 0 <= k < |due| && due[k] == id;
    assert n == |due|;
    assert due[..n] == due;
    FindingsInclude(due, n, books.pending, db, acknowledged, k);
    SettlingMoves(books, due, n, now);
  }

  /** A pass at least sixteen seconds after the call settles the order, on what the database holds under its
      key and on what the retained rows were answered with. */
  method ReconcileReports(service: BackofficeService, now: int, db: (nat, LostPlacement) -> Lookup, ghost id: nat,
                          ghost rows: seq<Row>)
    returns (ghost found: seq<Anomaly<Finding>>, ghost acknowledged: set<int>)
    requires service.Valid() && service.attempts.Valid() && service.anomalies.Valid()
    requires id in service.pending && service.pending[id].attempt.at + 16_000 <= now
    requires LooksUp(db, service.pending[id].lost, rows)
    modifies service`pending, service`lastRunAt, service`lastError, service`settled, service.anomalies
    ensures service.Valid() && service.anomalies.Valid()
    ensures service.anomalies.kept == old(service.anomalies.kept) + found
    ensures Names(acknowledged, old(service.attempts.log), old(service.attempts.Oldest()))
    ensures var lost := old(service.pending)[id].lost;
            LostOrder(id, VerdictOn(AsDbRows(MatchByKey(rows, lost.userId, lost.key)), acknowledged)) in Said(found)
    ensures id !in service.pending && id in service.settled
  {
    ghost var books := Books(service.pending, service.settled);
    ghost var due, n;
    due, found, n, acknowledged := service.Reconcile(now, db);
    assert id in due;
    PassReports(found, n, due, books, now, db, acknowledged, Books(service.pending, service.settled),
                service.lastError, id, rows);
  }

  /** The verdict is Recovered exactly when the order is there and a retained row names it. */
  lemma AnsweredIsRecovered(s: State, steps: seq<Step>, t: nat, log: seq<Attempt>, oldest: nat, acknowledged: set<int>)
    requires Seed(s) && Names(acknowledged, log, oldest)
    requires var txs := Run(s, steps).txs; t < |txs| && txs[t].phase.Done? && Answered(txs[t].phase.answer)
    ensures var (s', req) := (Run(s, steps), Run(s, steps).txs[t].req);
            VerdictOn(AsDbRows(MatchByKey(s'.rows, req.userId, req.key)), acknowledged)
            == if IsAcknowledged(log, oldest, s'.txs[t].phase.answer.row.id) then Recovered else Unacknowledged
  {
    var (s', req) := (Run(s, steps), Run(s, steps).txs[t].req);
    AnsweredOrderIsFound(s, steps, t);
    VerdictOnOne(MatchByKey(s'.rows, req.userId, req.key), acknowledged);
  }

  /** Hidden, sent again, answered with the order, and settled: the retry's row names the order while the
      recorder holds it, and the order is reported as recovered, not as lost. */
  method AHiddenOrderIsRecovered(gateway: GatewayService, service: BackofficeService, call: Call, minted: Key,
                                 dice: Dice, first: Reply, second: Call, again: Reply, scanAt: int, now: int,
                                 db: (nat, LostPlacement) -> Lookup, ghost s: State, ghost steps: seq<Step>,
                                 ghost t: nat)
    returns (id: nat, ghost found: seq<Anomaly<Finding>>)
    requires gateway.attempts == service.attempts && service.attempts.capacity == ATTEMPTS_CAPACITY
    requires service.Watching() && service.anomalies.Valid()
    requires (first.Heard? ==> first.status != 0) && second.placement == call.placement
    requires call.placement.Some? && (first.Silence? || dice.drops) && dice.retries
    requires forall k :: service.From() <= k < |service.attempts.log| ==>
               service.attempts.log[k].at + service.attempts.log[k].latencyMs + 250 <= scanAt
    requires call.at + call.latencyMs + dice.delayedMs + 250 <= scanAt && call.at + 16_000 <= now
    requires Seed(s) && again.Heard? && again.status != 0 && Replies(again, Run(s, steps).txs, t)
    requires again.orderId.Some? && Run(s, steps).txs[t].req.key == minted
    requires Run(s, steps).txs[t].req.userId == call.placement.value
    requires LooksUp(db, LostPlacement(call.placement.value, minted), Run(s, steps).rows)
    modifies service`scanned, service`simulatedOrders, service`pending, service`seen, service`lastRunAt,
             service`lastError, service`settled, service.anomalies, service.attempts
    ensures LostOrder(id, Recovered) in Said(found) && id !in service.pending && id in service.settled
    ensures service.anomalies.kept == old(service.anomalies.kept) + found
  {
    id := SendAndScan(gateway, service, call, minted, dice, first, second, again, scanAt);
    ghost var log, oldest := service.attempts.log, service.attempts.Oldest();
    ghost var acknowledged;
    found, acknowledged := ReconcileReports(service, now, db, id, Run(s, steps).rows);
    RetryNames(log, oldest, call, minted, dice, first, second, again, id);
    AnsweredIsRecovered(s, steps, t, log, oldest, acknowledged);
  }

  /** The recorder that took the rows of the send holds the order its retry was answered with. */
  lemma RetryNames(log: seq<Attempt>, oldest: nat, call: Call, minted: Key, dice: Dice, first: Reply, second: Call,
                   again: Reply, id: nat)
    requires first.Heard? ==> first.status != 0
    requires call.placement.Some? && (first.Silence? || dice.drops) && dice.retries && again.Heard?
    requires var rows := Trace(call, minted, dice, first, second, again, id);
             |log| >= |rows| && log[|log| - |rows|..] == rows && oldest <= |log| - |rows|
    requires again.orderId.Some?
    ensures IsAcknowledged(log, oldest, again.orderId.value)
  {
    var rows := Trace(call, minted, dice, first, second, again, id);
    RetryRowIsHonest(call, minted, dice, first, second, again, id);
    assert log[|log| - 2] == rows[|rows| - 2];
  }
}
