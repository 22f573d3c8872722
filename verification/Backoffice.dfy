/** The back office: a cursor over the recorder, and the calls whose answer never came. */
module Backoffice {
  import opened Options
  import opened OrderRules
  import opened Ledger
  import opened AttemptsStore
  import opened AnomaliesStore

  const TARGET_CEILING_MS := 15_000
  const MATCH_SLACK_MS := 1_000
  const LATE_COMMIT_MS := TARGET_CEILING_MS + MATCH_SLACK_MS
  const SETTLE_MS := 250

  datatype LostPlacement = LostPlacement(userId: int, key: Key)
  datatype Candidate = Candidate(attempt: Attempt, lost: LostPlacement)

  /** A reconciled candidate, and when it was settled. */
  datatype Settled = Settled(candidate: Candidate, time: int)

  /** What one look-up by key comes back with, and the retry the candidate's row, one of the
      recorder's own that annotations reach, is linked to by then. */
  datatype Lookup = Matches(rows: seq<DbRow>, retriedBy: Option<nat>) | Unreadable(error: string)
  datatype DbRow = DbRow(id: int, status: Status)

  datatype Verdict = NeverProcessed | Recovered | Unacknowledged
  datatype Finding =
    | LostOrder(attemptId: nat, verdict: Verdict)
    | Duplicate(attemptId: nat, retriedBy: nat, rows: seq<DbRow>)

  /** Only a placement that never came back can have been processed unseen. */
  function LostCandidate(attempt: Attempt): Option<LostPlacement> {
    if attempt.status == 0 && attempt.placement.Some? && attempt.key.Some?
    then Some(LostPlacement(attempt.placement.value, attempt.key.value))
    else None
  }

  function ReconcilableAt(attempt: Attempt): int { attempt.at + LATE_COMMIT_MS }

  function LandedAt(attempt: Attempt): int { attempt.at + attempt.latencyMs }

  function VerdictOn(rows: seq<DbRow>, acknowledged: set<int>): Verdict {
    if rows == [] then NeverProcessed
    else if forall i :: 0 <= i < |rows| ==> rows[i].id in acknowledged then Recovered
    else Unacknowledged
  }

  ghost predicate SeenId(seen: seq<Attempt>, id: int) { exists i :: 0 <= i < |seen| && seen[i].id == id }

  predicate Increasing(seen: seq<Attempt>) { forall i, j :: 0 <= i < j < |seen| ==> seen[i].id < seen[j].id }

  /** A note of the harness is owed no order. */
  predicate Owed(attempt: Attempt) { !attempt.note && LostCandidate(attempt).Some? }

  predicate Expects(attempt: Attempt) { !attempt.note && attempt.expected.Some? }

  /** The rows looked at that are candidates, and those the engine had an expectation of. */
  ghost function OwedIds(seen: seq<Attempt>): set<nat> { set a | a in seen && Owed(a) :: a.id }

  ghost function ExpectingIds(seen: seq<Attempt>): set<nat> { set a | a in seen && Expects(a) :: a.id }

  lemma OneMore(seen: seq<Attempt>, attempt: Attempt)
    requires forall i :: 0 <= i < |seen| ==> seen[i].id < attempt.id
    ensures OwedIds(seen + [attempt]) == OwedIds(seen) + if Owed(attempt) then {attempt.id} else {}
    ensures ExpectingIds(seen + [attempt]) == ExpectingIds(seen) + if Expects(attempt) then {attempt.id} else {}
    ensures attempt.id !in OwedIds(seen) && attempt.id !in ExpectingIds(seen)
  {
    var seen' := seen + [attempt];
    assert seen'[|seen|] == attempt;
    assert forall a :: a in seen' <==> a in seen || a == attempt;
    assert forall a :: a in seen ==> a.id < attempt.id;
  }

  /** What the cursor has passed was looked at once, in id order. */
  ghost predicate CursorOk(seen: seq<Attempt>, scanned: nat, simulatedOrders: nat) {
    && Increasing(seen)
    && (forall i :: 0 <= i < |seen| ==> seen[i].id <= scanned)
    && simulatedOrders == |ExpectingIds(seen)|
  }

  /** The row a candidate was made from was looked at. */
  predicate Genuine(seen: seq<Attempt>, c: Candidate, id: nat) {
    c.attempt in seen && Owed(c.attempt) && c.attempt.id == id && LostCandidate(c.attempt) == Some(c.lost)
  }

  predicate SettledLate(seen: seq<Attempt>, s: Settled, id: nat) {
    Genuine(seen, s.candidate, id) && s.time >= ReconcilableAt(s.candidate.attempt)
  }

  /** Each lost candidate looked at is either pending or settled, and was not settled before its
      late-commit time. */
  ghost predicate Accounted(seen: seq<Attempt>, pending: map<nat, Candidate>, settled: map<nat, Settled>) {
    && OwedIds(seen) == pending.Keys + settled.Keys && pending.Keys !! settled.Keys
    && (forall id {:trigger Genuine(seen, pending[id], id)} :: id in pending ==> Genuine(seen, pending[id], id))
    && (forall id {:trigger SettledLate(seen, settled[id], id)} :: id in settled ==> SettledLate(seen, settled[id], id))
  }

  lemma NextInOrder(seen: seq<Attempt>, scanned: nat, attempt: Attempt)
    requires Increasing(seen) && scanned < attempt.id && forall i :: 0 <= i < |seen| ==> seen[i].id <= scanned
    ensures Increasing(seen + [attempt])
    ensures forall i :: 0 <= i < |seen + [attempt]| ==> (seen + [attempt])[i].id <= attempt.id
  {
  }

  lemma LookingKeepsCursor(seen: seq<Attempt>, scanned: nat, count: nat, attempt: Attempt)
    requires CursorOk(seen, scanned, count) && scanned < attempt.id
    ensures CursorOk(seen + [attempt], attempt.id, if Expects(attempt) then count + 1 else count)
  {
    OneMore(seen, attempt);
    NextInOrder(seen, scanned, attempt);
    assert Expects(attempt) ==> |ExpectingIds(seen) + {attempt.id}| == |ExpectingIds(seen)| + 1;
  }

  /** No row the ring still held was passed over. */
  lemma NonePassedOver(seen: seq<Attempt>, taken: seq<Attempt>, oldest: nat, scanned: nat, start: nat)
    requires start == if scanned < oldest then oldest else scanned
    requires forall id :: oldest < id <= scanned ==> SeenId(seen, id)
    requires forall k :: 0 <= k < |taken| ==> taken[k].id == start + k + 1
    ensures forall id :: oldest < id <= start + |taken| ==> SeenId(seen + taken, id)
  {
    var seen' := seen + taken;
    forall id | oldest < id <= start + |taken| ensures SeenId(seen', id) {
      if id <= scanned {
        assert SeenId(seen, id);
        var i :| 0 <= i < |seen| && seen[i].id == id;
        assert seen'[i].id == id;
      } else {
        assert seen'[|seen| + (id - start - 1)].id == id;
      }
    }
  }

  lemma LookingKeepsAccounts(seen: seq<Attempt>, pending: map<nat, Candidate>, settled: map<nat, Settled>,
                             attempt: Attempt)
    requires Accounted(seen, pending, settled)
    requires forall i :: 0 <= i < |seen| ==> seen[i].id < attempt.id
    ensures Accounted(seen + [attempt],
                      if Owed(attempt) then pending[attempt.id := Candidate(attempt, LostCandidate(attempt).value)]
                      else pending, settled)
  {
    OneMore(seen, attempt);
    var pending' :=
      if Owed(attempt) then pending[attempt.id := Candidate(attempt, LostCandidate(attempt).value)] else pending;
    forall id | id in pending' ensures Genuine(seen + [attempt], pending'[id], id) {
      assert id in pending ==> Genuine(seen, pending[id], id);
    }
    forall id | id in settled ensures SettledLate(seen + [attempt], settled[id], id) {
      assert SettledLate(seen, settled[id], id);
    }
    assert pending'.Keys == pending.Keys + if Owed(attempt) then {attempt.id} else {};
  }

  /** The candidates whose late-commit time has passed, in id order. */
  ghost predicate DueBy(pending: map<nat, Candidate>, now: int, due: seq<nat>) {
    && (forall id :: id in due <==> id in pending && ReconcilableAt(pending[id].attempt) <= now)
    && (forall i, j :: 0 <= i < j < |due| ==> due[i] < due[j])
  }

  lemma Least(ids: set<nat>) returns (least: nat)
    requires ids != {}
    ensures least in ids && forall id: nat :: id in ids ==> least <= id
  {
    var first: nat :| first in ids;
    least := first;
    if other: nat :| other in ids && other < first {
      assert other in ids - {first};
      least := Least(ids - {first});
      assert forall id: nat :: id in ids ==> id == first || id in ids - {first};
    }
  }

  /** What is pending and what is settled, and how settling candidates moves them across. */
  datatype Books = Books(pending: map<nat, Candidate>, settled: map<nat, Settled>)

  /** The first `n` of `ids` moved across, one after the other, at `now`. */
  ghost function Settling(books: Books, ids: seq<nat>, n: nat, now: int): Books
    requires n <= |ids|
  {
    if n == 0 then books
    else
      var before := Settling(books, ids, n - 1, now);
      var id := ids[n - 1];
      if id in before.pending then Books(before.pending - {id}, before.settled[id := Settled(before.pending[id], now)])
      else before
  }

  /** Exactly those candidates move across, each settled once, at `now`. */
  lemma {:induction false} SettlingMoves(books: Books, ids: seq<nat>, n: nat, now: int)
    requires n <= |ids| && forall i :: 0 <= i < |ids| ==> ids[i] in books.pending
    ensures var after := Settling(books, ids, n, now);
            forall id ::
              && (id in after.pending <==> id in books.pending && id !in ids[..n])
              && (id in after.pending ==> after.pending[id] == books.pending[id])
              && (id in ids[..n] ==> id in after.settled && after.settled[id] == Settled(books.pending[id], now))
              && (id !in ids[..n] && id in books.settled ==>
                    id in after.settled && after.settled[id] == books.settled[id])
              && (id !in ids[..n] && id !in books.settled ==> id !in after.settled)
  {
    if n > 0 {
      SettlingMoves(books, ids, n - 1, now);
      assert ids[..n] == ids[..n - 1] + [ids[n - 1]];
    }
  }

  /** One candidate settled after its late-commit time. */
  lemma SettlingOneKeeps(seen: seq<Attempt>, pending: map<nat, Candidate>, settled: map<nat, Settled>, id: nat,
                         now: int)
    requires Accounted(seen, pending, settled) && id in pending && now >= ReconcilableAt(pending[id].attempt)
    ensures Accounted(seen, pending - {id}, settled[id := Settled(pending[id], now)])
  {
    assert Genuine(seen, pending[id], id);
    assert (pending - {id}).Keys == pending.Keys - {id};
    assert settled[id := Settled(pending[id], now)].Keys == settled.Keys + {id};
  }

  lemma {:induction false} SettlingKeepsAccounts(seen: seq<Attempt>, books: Books, ids: seq<nat>, n: nat, now: int)
    requires n <= |ids| && Accounted(seen, books.pending, books.settled) && DueBy(books.pending, now, ids)
    ensures var after := Settling(books, ids, n, now);
            && Accounted(seen, after.pending, after.settled)
            && forall id :: id in after.pending ==> id in books.pending && after.pending[id] == books.pending[id]
  {
    if n > 0 {
      SettlingKeepsAccounts(seen, books, ids, n - 1, now);
      var before, id := Settling(books, ids, n - 1, now), ids[n - 1];
      if id in before.pending {
        assert id in ids;
        SettlingOneKeeps(seen, before.pending, before.settled, id, now);
      }
    }
  }

  /** A pass keeps every candidate accounted for. */
  lemma PassKeepsAccounts(seen: seq<Attempt>, found: seq<Anomaly<Finding>>, n: nat, due: seq<nat>, books: Books,
                          now: int, db: (nat, LostPlacement) -> Lookup, acknowledged: set<int>, after: Books)
    requires Accounted(seen, books.pending, books.settled) && DueBy(books.pending, now, due)
    requires Passed(found, n, due, books, now, db, acknowledged, after)
    ensures Accounted(seen, after.pending, after.settled)
  {
    SettlingKeepsAccounts(seen, books, due, n, now);
  }

  /** What a pass settles was sent at least sixteen seconds before. */
  lemma NoneSettledEarly(books: Books, ids: seq<nat>, n: nat, now: int)
    requires n <= |ids| && DueBy(books.pending, now, ids)
    ensures forall id :: id in books.pending && id !in Settling(books, ids, n, now).pending ==>
              books.pending[id].attempt.at + 16_000 <= now
  {
    SettlingMoves(books, ids, n, now);
  }

  /** Ids in order are not touched before their turn. */
  lemma {:induction false} NotYetSettled(books: Books, ids: seq<nat>, n: nat, k: nat, now: int)
    requires n <= k < |ids| && (forall i, j :: 0 <= i < j < |ids| ==> ids[i] < ids[j]) && ids[k] in books.pending
    ensures ids[k] in Settling(books, ids, n, now).pending
    ensures Settling(books, ids, n, now).pending[ids[k]] == books.pending[ids[k]]
  {
    if n > 0 {
      NotYetSettled(books, ids, n - 1, k, now);
    }
  }

  /** The order ids some retained call was answered with. */
  ghost predicate IsAcknowledged(log: seq<Attempt>, oldest: nat, orderId: int) {
    exists i :: oldest <= i < |log| && log[i].orderId == Some(orderId)
  }

  ghost predicate Names(ids: set<int>, log: seq<Attempt>, oldest: nat) {
    forall id :: id in ids <==> IsAcknowledged(log, oldest, id)
  }

  /** A candidate is reported once as lost, and once more where its retry was executed as well. */
  function FindingsOn(id: nat, lookup: Lookup, acknowledged: set<int>): (r: seq<Finding>)
    requires lookup.Matches?
    ensures 1 <= |r| <= 2 && r[0] == LostOrder(id, VerdictOn(lookup.rows, acknowledged))
    ensures |r| == 2 <==> lookup.retriedBy.Some? && |lookup.rows| >= 2
    ensures |r| == 2 ==> r[1] == Duplicate(id, lookup.retriedBy.value, lookup.rows)
    ensures r[0].LostOrder? && (r[0].verdict == NeverProcessed <==> lookup.rows == [])
    ensures r[0].LostOrder? && (r[0].verdict == Unacknowledged <==>
                                exists i :: 0 <= i < |lookup.rows| && lookup.rows[i].id !in acknowledged)
  {
    [LostOrder(id, VerdictOn(lookup.rows, acknowledged))]
    + if lookup.retriedBy.Some? && |lookup.rows| >= 2 then [Duplicate(id, lookup.retriedBy.value, lookup.rows)] else []
  }

  function LookupOf(due: seq<nat>, k: nat, candidates: map<nat, Candidate>,
                    db: (nat, LostPlacement) -> Lookup): Lookup
  {
    if k < |due| && due[k] in candidates then db(k, candidates[due[k]].lost) else Unreadable("")
  }

  /** What the first `n` settled candidates are reported as. */
  function FindingsOf(due: seq<nat>, n: nat, candidates: map<nat, Candidate>, db: (nat, LostPlacement) -> Lookup,
                      acknowledged: set<int>): seq<Finding>
  {
    if n == 0 then []
    else
      var lookup := LookupOf(due, n - 1, candidates, db);
      FindingsOf(due, n - 1, candidates, db, acknowledged)
      + if lookup.Matches? then FindingsOn(due[n - 1], lookup, acknowledged) else []
  }

  function Said(found: seq<Anomaly<Finding>>): seq<Finding> {
    seq(|found|, i requires 0 <= i < |found| => found[i].finding)
  }

  /** The first `n` were read and reported. */
  ghost predicate Reported(found: seq<Anomaly<Finding>>, n: nat, due: seq<nat>, candidates: map<nat, Candidate>,
                           db: (nat, LostPlacement) -> Lookup, acknowledged: set<int>)
  {
    && n <= |due| && (forall k :: 0 <= k < n ==> LookupOf(due, k, candidates, db).Matches?)
    && Said(found) == FindingsOf(due, n, candidates, db, acknowledged)
  }

  /** The pass stopped short where the database could not be read. */
  predicate StoppedAt(n: nat, due: seq<nat>, candidates: map<nat, Candidate>, db: (nat, LostPlacement) -> Lookup,
                      error: Option<string>)
  {
    if n == |due| then error.None? else error.Some? && LookupOf(due, n, candidates, db) == Unreadable(error.value)
  }

  /** Where the target keeps one row for a key, each candidate settled makes one finding. */
  lemma {:induction false} OneFindingEach(due: seq<nat>, n: nat, candidates: map<nat, Candidate>,
                                          db: (nat, LostPlacement) -> Lookup, acknowledged: set<int>)
    requires n <= |due| && forall k :: 0 <= k < n ==> LookupOf(due, k, candidates, db).Matches?
    ensures n <= |FindingsOf(due, n, candidates, db, acknowledged)| <= 2 * n
    ensures |FindingsOf(due, n, candidates, db, acknowledged)| == n <==>
            forall k :: 0 <= k < n ==>
              LookupOf(due, k, candidates, db).retriedBy.None? || |LookupOf(due, k, candidates, db).rows| <= 1
  {
    if n > 0 {
      OneFindingEach(due, n - 1, candidates, db, acknowledged);
    }
  }

  lemma Appended<T>(before: seq<T>, found: seq<T>, more: seq<T>)
    ensures before + found + more == before + (found + more)
  {
  }

  /** A pass that has settled and reported the first `n` candidates. */
  ghost predicate Passed(found: seq<Anomaly<Finding>>, n: nat, due: seq<nat>, books: Books, now: int,
                         db: (nat, LostPlacement) -> Lookup, acknowledged: set<int>, after: Books)
  {
    Reported(found, n, due, books.pending, db, acknowledged) && after == Settling(books, due, n, now)
  }

  lemma NothingPassed(due: seq<nat>, books: Books, now: int, db: (nat, LostPlacement) -> Lookup, acknowledged: set<int>)
    ensures Passed([], 0, due, books, now, db, acknowledged, books)
  {
  }

  lemma ReportedNext(found: seq<Anomaly<Finding>>, n: nat, due: seq<nat>, candidates: map<nat, Candidate>,
                     db: (nat, LostPlacement) -> Lookup, acknowledged: set<int>, more: seq<Anomaly<Finding>>)
    requires Reported(found, n, due, candidates, db, acknowledged) && n < |due|
    requires LookupOf(due, n, candidates, db).Matches?
    requires Said(more) == FindingsOn(due[n], LookupOf(due, n, candidates, db), acknowledged)
    ensures Reported(found + more, n + 1, due, candidates, db, acknowledged)
  {
    assert Said(found + more) == Said(found) + Said(more);
  }

  /** `taken` is the longest run of `rows` from a position on that landed by the limit. */
  ghost predicate SettledRun(rows: seq<Attempt>, from: nat, taken: seq<Attempt>, limit: int) {
    && from + |taken| <= |rows|
    && (forall k :: 0 <= k < |taken| ==> taken[k] == rows[from + k] && LandedAt(taken[k]) <= limit)
    && (from + |taken| < |rows| ==> LandedAt(rows[from + |taken|]) > limit)
  }

  /** The cursor has passed the first `start` rows and no other. */
  predicate Skipped(rows: seq<Attempt>, start: nat, scanned: nat) {
    && start <= |rows| && (forall k :: 0 <= k < start ==> rows[k].id <= scanned)
    && (start < |rows| ==> rows[start].id > scanned)
  }

  /** The rows of the log from `base` on. */
  predicate TailOf(rows: seq<Attempt>, log: seq<Attempt>, base: nat) {
    |log| == base + |rows| && forall k :: 0 <= k < |rows| ==> rows[k] == log[base + k]
  }

  lemma RowsInIdOrder(rows: seq<Attempt>, log: seq<Attempt>, base: nat)
    requires TailOf(rows, log, base) && forall k :: 0 <= k < |log| ==> log[k].id == k + 1
    ensures forall i, j :: 0 <= i < j < |rows| ==> rows[i].id < rows[j].id
  {
  }

  /** A scan that has come to row `i`: it skipped `start` rows and took the rest. */
  ghost predicate Taking(rows: seq<Attempt>, scanned0: nat, limit: int, i: nat, start: nat, taken: seq<Attempt>,
                         scanned: nat)
  {
    && start + |taken| == i <= |rows|
    && (forall k :: 0 <= k < |taken| ==> taken[k] == rows[start + k] && LandedAt(taken[k]) <= limit)
    && (forall k :: 0 <= k < start ==> rows[k].id <= scanned0)
    && (taken != [] ==> rows[start].id > scanned0)
    && scanned == if taken == [] then scanned0 else taken[|taken| - 1].id
  }

  lemma SkippingOne(rows: seq<Attempt>, scanned0: nat, limit: int, i: nat, start: nat, taken: seq<Attempt>,
                    scanned: nat)
    requires Taking(rows, scanned0, limit, i, start, taken, scanned) && i < |rows| && rows[i].id <= scanned
    requires forall j, k :: 0 <= j < k < |rows| ==> rows[j].id < rows[k].id
    ensures Taking(rows, scanned0, limit, i + 1, start + 1, taken, scanned)
  {
  }

  lemma TakingOne(rows: seq<Attempt>, scanned0: nat, limit: int, i: nat, start: nat, taken: seq<Attempt>, scanned: nat)
    requires Taking(rows, scanned0, limit, i, start, taken, scanned) && i < |rows|
    requires rows[i].id > scanned && LandedAt(rows[i]) <= limit
    ensures Taking(rows, scanned0, limit, i + 1, start, taken + [rows[i]], rows[i].id)
  {
  }

  lemma TakingEnds(rows: seq<Attempt>, scanned0: nat, limit: int, i: nat, start: nat, taken: seq<Attempt>, scanned: nat)
    requires Taking(rows, scanned0, limit, i, start, taken, scanned)
    requires i < |rows| ==> rows[i].id > scanned && LandedAt(rows[i]) > limit
    ensures SettledRun(rows, start, taken, limit) && Skipped(rows, start, scanned0)
    ensures scanned == if taken == [] then scanned0 else taken[|taken| - 1].id
  {
  }

  lemma TakenFromLog(rows: seq<Attempt>, log: seq<Attempt>, base: nat, before: nat, start: nat, taken: seq<Attempt>,
                     limit: int)
    requires TailOf(rows, log, base) && before <= |log| && forall k :: 0 <= k < |log| ==> log[k].id == k + 1
    requires Skipped(rows, start, before) && SettledRun(rows, start, taken, limit)
    ensures base + start == if before < base then base else before
    ensures SettledRun(log, base + start, taken, limit)
    ensures forall k :: 0 <= k < |taken| ==> taken[k].id == base + start + k + 1
  {
    if start > 0 {
      assert rows[start - 1].id <= before;
    }
  }

  /** What a scan of the retained rows means for the whole log. */
  lemma ScanIsWhole(log: seq<Attempt>, base: nat, before: nat, seen: seq<Attempt>, rows: seq<Attempt>, start: nat,
                    taken: seq<Attempt>, limit: int)
    requires TailOf(rows, log, base) && before <= |log| && forall k :: 0 <= k < |log| ==> log[k].id == k + 1
    requires Skipped(rows, start, before) && SettledRun(rows, start, taken, limit)
    requires forall id :: base < id <= before ==> SeenId(seen, id)
    ensures base + start == if before < base then base else before
    ensures SettledRun(log, base + start, taken, limit)
    ensures taken != [] ==> taken[|taken| - 1].id == base + start + |taken|
    ensures forall id :: base < id <= base + start + |taken| ==> SeenId(seen + taken, id)
  {
    TakenFromLog(rows, log, base, before, start, taken, limit);
    NonePassedOver(seen, taken, base, before, base + start);
  }

  class BackofficeService {
    const attempts: AttemptsStore
    const anomalies: AnomaliesStore<Finding>
    var scanned: nat
    var simulatedOrders: nat
    var pending: map<nat, Candidate>
    var lastRunAt: Option<int>
    var lastError: Option<string>
    ghost var seen: seq<Attempt>                // every row the scan has looked at, in order
    ghost var settled: map<nat, Settled>        // the candidates reconciled

    constructor (attempts: AttemptsStore, anomalies: AnomaliesStore<Finding>)
      ensures Valid() && this.attempts == attempts && this.anomalies == anomalies
      ensures scanned == 0 && seen == []
    {
      this.attempts, this.anomalies := attempts, anomalies;
      scanned, simulatedOrders, pending, lastRunAt, lastError := 0, 0, map[], None, None;
      seen, settled := [], map[];
    }

    ghost predicate Valid()
      reads this`seen, this`scanned, this`simulatedOrders, this`pending, this`settled
    {
      && CursorOk(seen, scanned, simulatedOrders)
      && Accounted(seen, pending, settled)
    }

    /** The cursor is over this recorder, which only ever grows, and has passed over no row the
        recorder still holds. */
    ghost predicate Watching()
      reads this, attempts
    {
      && Valid() && attempts.Valid() && scanned <= |attempts.log|
      && forall id :: attempts.Oldest() < id <= scanned ==> SeenId(seen, id)
    }

    /** Other clients of the recorder do not disturb the cursor. */
    twostate lemma OthersRecord()
      requires old(Watching()) && unchanged(this) && attempts.Valid() && Grown(old(attempts.log), attempts.log)
      ensures Watching()
    {
    }

    /** The first row the scan can still look at. */
    ghost function From(): nat
      requires attempts.Valid()
      reads this, attempts
    {
      if scanned < attempts.Oldest() then attempts.Oldest() else scanned
    }

    /** One row past the cursor; the cursor moves last. */
    method Look(attempt: Attempt)
      requires Valid() && scanned < attempt.id
      modifies this`scanned, this`simulatedOrders, this`pending, this`seen
      ensures Valid()
      ensures seen == old(seen) + [attempt] && scanned == attempt.id
    {
      ghost var seen' := seen + [attempt];
      LookingKeepsCursor(seen, scanned, simulatedOrders, attempt);
      LookingKeepsAccounts(seen, pending, settled, attempt);
      if !attempt.note {
        if attempt.expected.Some? {
          simulatedOrders := simulatedOrders + 1;
        }
        var lost := LostCandidate(attempt);
        if lost.Some? {
          pending := pending[attempt.id := Candidate(attempt, lost.value)];
        }
      }
      seen, scanned := seen', attempt.id;
    }

    /** What the ring holds, oldest first. */
    method OldestFirst() returns (rows: seq<Attempt>)
      requires attempts.Valid()
      ensures TailOf(rows, attempts.log, attempts.Oldest())
    {
      var newest := attempts.Recent(attempts.capacity);
      rows := [];
      for k := 0 to |newest|
        invariant |rows| == k && forall j :: 0 <= j < k ==> rows[j] == newest[|newest| - 1 - j]
      {
        rows := rows + [newest[|newest| - 1 - k]];
      }
    }

    /** Rows in id order: skips those the cursor has passed, then takes rows until one landed too
        recently. */
    method ScanRows(rows: seq<Attempt>, limit: int) returns (ghost start: nat, ghost taken: seq<Attempt>)
      requires Valid() && forall i, j :: 0 <= i < j < |rows| ==> rows[i].id < rows[j].id
      modifies this`scanned, this`simulatedOrders, this`pending, this`seen
      ensures Valid() && SettledRun(rows, start, taken, limit)
      ensures Skipped(rows, start, old(scanned))
      ensures seen == old(seen) + taken
      ensures scanned == if taken == [] then old(scanned) else taken[|taken| - 1].id
    {
      start, taken := 0, [];
      ghost var seen0, scanned0 := seen, scanned;
      for i := 0 to |rows|
        invariant Valid() && seen == seen0 + taken
        invariant Taking(rows, scanned0, limit, i, start, taken, scanned)
      {
        var attempt := rows[i];
        if attempt.id <= scanned {
          SkippingOne(rows, scanned0, limit, i, start, taken, scanned);
          start := start + 1;
          continue;
        }
        if LandedAt(attempt) > limit {
          TakingEnds(rows, scanned0, limit, i, start, taken, scanned);
          return;
        }
        TakingOne(rows, scanned0, limit, i, start, taken, scanned);
        ghost var taken' := taken + [attempt];
        Look(attempt);
        taken := taken';
      }
      TakingEnds(rows, scanned0, limit, |rows|, start, taken, scanned);
    }

    method ScanTail(limit: int) returns (ghost tail: seq<Attempt>, ghost start: nat, ghost taken: seq<Attempt>)
      requires Valid() && attempts.Valid()
      modifies this`scanned, this`simulatedOrders, this`pending, this`seen
      ensures Valid() && TailOf(tail, attempts.log, attempts.Oldest())
      ensures Skipped(tail, start, old(scanned)) && SettledRun(tail, start, taken, limit)
      ensures seen == old(seen) + taken
      ensures scanned == if taken == [] then old(scanned) else taken[|taken| - 1].id
    {
      var rows := OldestFirst();
      tail := rows;
      RowsInIdOrder(rows, attempts.log, attempts.Oldest());
      start, taken := ScanRows(rows, limit);
    }

    /** Looks at every retained row past the cursor up to the first whose answer landed less
        than the settling time ago, and at no other. */
    method Scan(now: int) returns (ghost from: nat, ghost taken: seq<Attempt>)
      requires Watching()
      modifies this`scanned, this`simulatedOrders, this`pending, this`seen
      ensures Watching()
      ensures from == old(From()) && SettledRun(attempts.log, from, taken, now - SETTLE_MS)
      ensures forall k :: 0 <= k < |taken| ==> taken[k].at + taken[k].latencyMs + 250 <= now
      ensures seen == old(seen) + taken
      ensures scanned == if taken == [] then old(scanned) else from + |taken|
    {
      ghost var log, base, before, seen0 := attempts.log, attempts.Oldest(), scanned, seen;
      ghost var rows, start;
      rows, start, taken := ScanTail(now - SETTLE_MS);
      from := base + start;
      ScanIsWhole(log, base, before, seen0, rows, start, taken, now - SETTLE_MS);
      WatchesOn();
    }

    lemma WatchesOn()
      requires Valid() && attempts.Valid() && scanned <= |attempts.log|
      requires forall id :: attempts.Oldest() < id <= scanned ==> SeenId(seen, id)
      ensures Watching()
    {
    }

    /** The orders the engine had an expectation of, each row of them looked at counted once. */
    lemma SimulatedAreCounted()
      requires Valid()
      ensures simulatedOrders == |set a | a in seen && !a.note && a.expected.Some? :: a.id|
    {
      assert ExpectingIds(seen) == set a | a in seen && !a.note && a.expected.Some? :: a.id;
    }

    method Due(now: int) returns (due: seq<nat>)
      ensures DueBy(pending, now, due)
    {
      var rest := set id | id in pending && ReconcilableAt(pending[id].attempt) <= now;
      due := [];
      while rest != {}
        invariant forall id :: id in due || id in rest <==> id in pending && ReconcilableAt(pending[id].attempt) <= now
        invariant forall i, j :: 0 <= i < j < |due| ==> due[i] < due[j]
        invariant forall i, id :: 0 <= i < |due| && id in rest ==> due[i] < id
        decreases |rest|
      {
        ghost var least := Least(rest);
        var id :| id in rest && forall other :: other in rest ==> id <= other;
        due, rest := due + [id], rest - {id};
      }
    }

    method Acknowledged() returns (ids: set<int>)
      requires attempts.Valid()
      ensures Names(ids, attempts.log, attempts.Oldest())
    {
      var rows := OldestFirst();
      ids := {};
      for k := 0 to |rows|
        invariant forall id :: id in ids <==> exists i :: 0 <= i < k && rows[i].orderId == Some(id)
      {
        if rows[k].orderId.Some? {
          ids := ids + {rows[k].orderId.value};
        }
      }
      ghost var log, base := attempts.log, attempts.Oldest();
      forall id ensures id in ids <==> IsAcknowledged(log, base, id) {
        if i :| base <= i < |log| && log[i].orderId == Some(id) {
          assert rows[i - base] == log[i];
        }
        if i :| 0 <= i < |rows| && rows[i].orderId == Some(id) {
          assert log[base + i] == rows[i];
        }
      }
    }

    /** The findings of one candidate, recorded. */
    method Report(id: nat, lookup: Lookup, acknowledged: set<int>) returns (found: seq<Anomaly<Finding>>)
      requires anomalies.Valid() && lookup.Matches?
      modifies anomalies
      ensures anomalies.Valid() && anomalies.kept == old(anomalies.kept) + found
      ensures Said(found) == FindingsOn(id, lookup, acknowledged)
    {
      var lost := anomalies.Record(LostOrder(id, VerdictOn(lookup.rows, acknowledged)));
      found := [lost];
      if lookup.retriedBy.Some? && |lookup.rows| >= 2 {
        var duplicate := anomalies.Record(Duplicate(id, lookup.retriedBy.value, lookup.rows));
        found := found + [duplicate];
      }
    }

    /** One candidate read: it is pending no longer, and is reported. */
    method SettleOne(id: nat, now: int, lookup: Lookup, acknowledged: set<int>) returns (found: seq<Anomaly<Finding>>)
      requires anomalies.Valid() && id in pending && lookup.Matches?
      modifies this`pending, this`settled, anomalies
      ensures anomalies.Valid() && anomalies.kept == old(anomalies.kept) + found
      ensures Said(found) == FindingsOn(id, lookup, acknowledged)
      ensures pending == old(pending) - {id} && settled == old(settled)[id := Settled(old(pending)[id], now)]
    {
      ghost var settled' := settled[id := Settled(pending[id], now)];
      pending, settled := pending - {id}, settled';
      found := Report(id, lookup, acknowledged);
    }

    /** The next candidate of a pass, if the database can be read for it. */
    method SettleNext(due: seq<nat>, n: nat, now: int, db: (nat, LostPlacement) -> Lookup, acknowledged: set<int>,
                      found: seq<Anomaly<Finding>>, ghost kept0: seq<Anomaly<Finding>>, ghost books: Books)
      returns (found': seq<Anomaly<Finding>>, error: Option<string>)
      requires anomalies.Valid() && n < |due| && DueBy(books.pending, now, due)
      requires anomalies.kept == kept0 + found
      requires Passed(found, n, due, books, now, db, acknowledged, Books(pending, settled))
      modifies this`pending, this`settled, anomalies
      ensures anomalies.Valid() && anomalies.kept == kept0 + found'
      ensures error.Some? ==> found' == found && Books(pending, settled) == old(Books(pending, settled))
                              && StoppedAt(n, due, books.pending, db, error)
      ensures error.None? ==> Passed(found', n + 1, due, books, now, db, acknowledged, Books(pending, settled))
    {
      var id := due[n];
      NotYetSettled(books, due, n, n, now);
      var lookup := db(n, pending[id].lost);
      if lookup.Unreadable? {
        return found, Some(lookup.error);
      }
      var more := SettleOne(id, now, lookup, acknowledged);
      found', error := found + more, None;
      ReportedNext(found, n, due, books.pending, db, acknowledged, more);
      Appended(kept0, found, more);
    }

    /** In id order, up to the first candidate the database cannot be read for. */
    method SettleAll(due: seq<nat>, now: int, db: (nat, LostPlacement) -> Lookup, acknowledged: set<int>)
      returns (found: seq<Anomaly<Finding>>, n: nat, error: Option<string>)
      requires anomalies.Valid() && DueBy(pending, now, due)
      modifies this`pending, this`settled, anomalies
      ensures anomalies.Valid() && anomalies.kept == old(anomalies.kept) + found
      ensures Passed(found, n, due, old(Books(pending, settled)), now, db, acknowledged, Books(pending, settled))
      ensures StoppedAt(n, due, old(pending), db, error)
    {
      ghost var books, kept0 := Books(pending, settled), anomalies.kept;
      found, n, error := [], 0, None;
      NothingPassed(due, books, now, db, acknowledged);
      while n < |due|
        invariant n <= |due| && anomalies.Valid() && anomalies.kept == kept0 + found && error.None?
        invariant Passed(found, n, due, books, now, db, acknowledged, Books(pending, settled))
      {
        found, error := SettleNext(due, n, now, db, acknowledged, found, kept0, books);
        if error.Some? {
          return;
        }
        n := n + 1;
      }
    }

    /** The pass over the due candidates, and the stamp it leaves. */
    method SettleAndStamp(due: seq<nat>, now: int, db: (nat, LostPlacement) -> Lookup, acknowledged: set<int>)
      returns (found: seq<Anomaly<Finding>>, n: nat)
      requires anomalies.Valid() && DueBy(pending, now, due)
      modifies this`pending, this`lastRunAt, this`lastError, this`settled, anomalies
      ensures anomalies.Valid() && anomalies.kept == old(anomalies.kept) + found
      ensures Passed(found, n, due, old(Books(pending, settled)), now, db, acknowledged, Books(pending, settled))
      ensures StoppedAt(n, due, old(pending), db, lastError)
      ensures lastRunAt == if n == |due| then Some(now) else old(lastRunAt)
    {
      var error;
      found, n, error := SettleAll(due, now, db, acknowledged);
      lastError := error;
      if error.None? {
        lastRunAt := Some(now);
      }
    }

    method SettleDue(due: seq<nat>, now: int, db: (nat, LostPlacement) -> Lookup, acknowledged: set<int>)
      returns (found: seq<Anomaly<Finding>>, n: nat)
      requires Valid() && anomalies.Valid() && DueBy(pending, now, due)
      modifies this`pending, this`lastRunAt, this`lastError, this`settled, anomalies
      ensures Valid() && anomalies.Valid() && anomalies.kept == old(anomalies.kept) + found
      ensures Passed(found, n, due, old(Books(pending, settled)), now, db, acknowledged, Books(pending, settled))
      ensures StoppedAt(n, due, old(pending), db, lastError)
      ensures lastRunAt == if n == |due| then Some(now) else old(lastRunAt)
      ensures forall id :: id in old(pending) && id !in pending ==> old(pending)[id].attempt.at + 16_000 <= now
    {
      ghost var books := Books(pending, settled);
      found, n := SettleAndStamp(due, now, db, acknowledged);
      NoneSettledEarly(books, due, n, now);
      PassKeepsAccounts(seen, found, n, due, books, now, db, acknowledged, Books(pending, settled));
    }

    /** Settles the due candidates, stopping at the first the database cannot be read for: that
        one and those behind it stay pending. With nothing due it asks the database nothing. */
    method Reconcile(now: int, db: (nat, LostPlacement) -> Lookup)
      returns (ghost due: seq<nat>, ghost found: seq<Anomaly<Finding>>, ghost n: nat, ghost acknowledged: set<int>)
      requires Valid() && attempts.Valid() && anomalies.Valid()
      modifies this`pending, this`lastRunAt, this`lastError, this`settled, anomalies
      ensures Valid() && anomalies.Valid() && DueBy(old(pending), now, due)
      ensures due != [] ==> Names(acknowledged, old(attempts.log), old(attempts.Oldest()))
      ensures anomalies.kept == old(anomalies.kept) + found
      ensures Passed(found, n, due, old(Books(pending, settled)), now, db, acknowledged, Books(pending, settled))
      ensures forall id :: id in old(pending) && id !in pending ==> old(pending)[id].attempt.at + 16_000 <= now
      ensures due == [] ==> lastRunAt == old(lastRunAt) && lastError == old(lastError)
      ensures due != [] ==> StoppedAt(n, due, old(pending), db, lastError)
                            && lastRunAt == if n == |due| then Some(now) else old(lastRunAt)
    {
      var ids := Due(now);
      due, found, n, acknowledged := ids, [], 0, {};
      if |ids| == 0 {
        return;
      }
      var named := Acknowledged();
      acknowledged := named;
      found, n := SettleDue(ids, now, db, named);
    }
  }
}
