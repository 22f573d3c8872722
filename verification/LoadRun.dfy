/** One load run: what it asks for, what it was answered, and what it folds out of the recorder. */
module LoadRun {
  import opened Options
  import opened OrderRules
  import opened SeqSum
  import opened ShadowLedger
  import opened AttemptsStore
  import opened Checkers
  import opened Profiles

  datatype Ask = AskPlace(order: SimOrder) | AskCancel(orderId: int)

  /* ---- What a fold takes out of the recorder ---- */

  /** A missing count is zero. */
  function CountIn<K>(counts: map<K, nat>, key: K): nat { if key in counts then counts[key] else 0 }

  function OneMore<K>(counts: map<K, nat>, key: K): map<K, nat> { counts[key := CountIn(counts, key) + 1] }

  function ByStatus(rows: seq<Attempt>): map<int, nat> {
    if rows == [] then map[] else OneMore(ByStatus(rows[..|rows| - 1]), rows[|rows| - 1].status)
  }

  /** Only an answered call has a latency. */
  function Latencies(rows: seq<Attempt>): seq<int> {
    if rows == [] then []
    else
      var last := rows[|rows| - 1];
      Latencies(rows[..|rows| - 1]) + if last.status != 0 then [last.latencyMs] else []
  }

  function Outcomes(rows: seq<Attempt>): map<Status, nat> {
    if rows == [] then map[]
    else
      var last := rows[|rows| - 1];
      var before := Outcomes(rows[..|rows| - 1]);
      if last.actual.Some? then OneMore(before, last.actual.value) else before
  }

  /** What a run has folded is counted once by each of its totals. */
  ghost predicate Counted(folded: seq<Attempt>, byStatus: map<int, nat>, latencies: seq<int>,
                          outcomes: map<Status, nat>)
  {
    byStatus == ByStatus(folded) && latencies == Latencies(folded) && outcomes == Outcomes(folded)
  }

  lemma CountedNext(folded: seq<Attempt>, byStatus: map<int, nat>, latencies: seq<int>, outcomes: map<Status, nat>,
                    row: Attempt)
    requires Counted(folded, byStatus, latencies, outcomes)
    ensures Counted(folded + [row], OneMore(byStatus, row.status),
                    if row.status != 0 then latencies + [row.latencyMs] else latencies,
                    if row.actual.Some? then OneMore(outcomes, row.actual.value) else outcomes)
  {
    assert (folded + [row])[..|folded|] == folded;
  }

  ghost function Total<K>(counts: map<K, nat>): nat {
    if counts.Keys == {} then 0 else var key :| key in counts; counts[key] + Total(counts - {key})
  }

  lemma {:induction false} TotalSplits<K>(counts: map<K, nat>, key: K)
    requires key in counts
    ensures Total(counts) == counts[key] + Total(counts - {key})
    decreases |counts|
  {
    var first :| first in counts && Total(counts) == counts[first] + Total(counts - {first});
    if first != key {
      var rest := counts - {first};
      TotalSplits(rest, key);
      assert counts - {key} - {first} == rest - {key};
      TotalSplits(counts - {key}, first);
    }
  }

  lemma TotalOneMore<K>(counts: map<K, nat>, key: K)
    ensures Total(OneMore(counts, key)) == Total(counts) + 1
  {
    var more := OneMore(counts, key);
    TotalSplits(more, key);
    if key in counts {
      TotalSplits(counts, key);
      assert more - {key} == counts - {key};
    } else {
      assert more - {key} == counts;
    }
  }

  /** The counts by status add up to the rows they were taken from. */
  lemma {:induction false} EveryRowIsCounted(rows: seq<Attempt>)
    ensures Total(ByStatus(rows)) == |rows|
  {
    if rows != [] {
      EveryRowIsCounted(rows[..|rows| - 1]);
      TotalOneMore(ByStatus(rows[..|rows| - 1]), rows[|rows| - 1].status);
    }
  }

  /** Each count by status is the number of rows with that status, and each by outcome of those with it. */
  lemma {:induction false} CountsAreExact(rows: seq<Attempt>, status: int, outcome: Status)
    ensures CountIn(ByStatus(rows), status) == |Where(rows, (row: Attempt) => row.status == status)|
    ensures CountIn(Outcomes(rows), outcome) == |Where(rows, (row: Attempt) => row.actual == Some(outcome))|
  {
    if rows != [] {
      var n := |rows| - 1;
      CountsAreExact(rows[..n], status, outcome);
      assert rows == rows[..n] + [rows[n]];
      WhereAppend(rows[..n], rows[n], (row: Attempt) => row.status == status);
      WhereAppend(rows[..n], rows[n], (row: Attempt) => row.actual == Some(outcome));
    }
  }

  /** The latencies are those of the rows that were answered, one for each. */
  lemma {:induction false} LatenciesAreOfAnswers(rows: seq<Attempt>)
    ensures |Latencies(rows)| + CountIn(ByStatus(rows), 0) == |rows|
    ensures forall k :: 0 <= k < |rows| && rows[k].status != 0 ==> rows[k].latencyMs in Latencies(rows)
  {
    if rows != [] {
      LatenciesAreOfAnswers(rows[..|rows| - 1]);
    }
  }

  ghost function SilentIds(rows: seq<Attempt>): set<nat> { set row | row in rows && row.status == 0 :: row.id }

  lemma SilentNext(rows: seq<Attempt>, row: Attempt)
    ensures SilentIds(rows + [row]) == SilentIds(rows) + if row.status == 0 then {row.id} else {}
  {
    assert (rows + [row])[|rows|] == row;
    assert forall r :: r in rows + [row] <==> r in rows || r == row;
  }

  lemma SilentFolds(silent: set<nat>, pending: set<nat>, folded: seq<Attempt>, row: Attempt)
    requires silent <= pending + SilentIds(folded) && (row.id in silent ==> row.status == 0)
    ensures silent <= pending - {row.id} + SilentIds(folded + [row])
  {
    SilentNext(folded, row);
  }

  /** One row more of those waited for. */
  lemma FoldedOne(folded: seq<Attempt>, byStatus: map<int, nat>, latencies: seq<int>, outcomes: map<Status, nat>,
                  pending: set<nat>, silent: set<nat>, row: Attempt)
    requires Counted(folded, byStatus, latencies, outcomes) && row.id in pending
    requires silent <= pending + SilentIds(folded) && (row.id in silent ==> row.status == 0)
    ensures Counted(folded + [row], OneMore(byStatus, row.status),
                    if row.status != 0 then latencies + [row.latencyMs] else latencies,
                    if row.actual.Some? then OneMore(outcomes, row.actual.value) else outcomes)
    ensures silent <= pending - {row.id} + SilentIds(folded + [row])
    ensures |folded + [row]| + |pending - {row.id}| == |folded| + |pending|
  {
    CountedNext(folded, byStatus, latencies, outcomes, row);
    SilentFolds(silent, pending, folded, row);
  }

  lemma {:induction false} SilentAreCounted(rows: seq<Attempt>)
    ensures |SilentIds(rows)| <= CountIn(ByStatus(rows), 0)
  {
    if rows != [] {
      var n := |rows| - 1;
      SilentAreCounted(rows[..n]);
      SilentNext(rows[..n], rows[n]);
      assert rows[..n] + [rows[n]] == rows;
    }
  }

  /* ---- The cancel dance ---- */

  /** The ids answered NEW, in the order they were answered. */
  function Rested(placements: seq<PlacedResponse>): seq<int> {
    if placements == [] then []
    else
      var last := placements[|placements| - 1];
      Rested(placements[..|placements| - 1]) + if last.status == New then [last.orderId] else []
  }

  /** Every id answered NEW was taken by one cancel or is resting still, first come first taken;
      and each cancelled id is one that was taken, by a cancel no longer in flight. */
  ghost predicate Danced(taken: seq<int>, resting: seq<int>, placements: seq<PlacedResponse>) {
    taken + resting == Rested(placements)
  }

  lemma DanceKeeps(taken: seq<int>, resting: seq<int>, placements: seq<PlacedResponse>, p: PlacedResponse)
    requires Danced(taken, resting, placements)
    ensures Danced(taken, if p.status == New then resting + [p.orderId] else resting, placements + [p])
  {
    assert (placements + [p])[..|placements|] == placements;
    assert taken + (resting + [p.orderId]) == taken + resting + [p.orderId];
  }

  ghost predicate CancelledAt(taken: seq<int>, tickets: set<nat>, cancelled: seq<int>, source: seq<nat>) {
    && |source| == |cancelled|
    && (forall p :: p in tickets ==> p < |taken|)
    && (forall k :: 0 <= k < |source| ==>
          source[k] < |taken| && source[k] !in tickets && cancelled[k] == taken[source[k]])
    && (forall i, j :: 0 <= i < j < |source| ==> source[i] != source[j])
  }

  /** A run whose answers each name an order of their own cancels none of them twice, and none
      that it still holds as resting. */
  lemma NoneCancelledTwice(taken: seq<int>, resting: seq<int>, placements: seq<PlacedResponse>,
                           tickets: set<nat>, cancelled: seq<int>, source: seq<nat>)
    requires Danced(taken, resting, placements) && CancelledAt(taken, tickets, cancelled, source)
    requires forall i, j :: 0 <= i < j < |placements| ==> placements[i].orderId != placements[j].orderId
    ensures forall i, j :: 0 <= i < j < |cancelled| ==> cancelled[i] != cancelled[j]
    ensures forall i, j :: 0 <= i < |cancelled| && 0 <= j < |resting| ==> cancelled[i] != resting[j]
  {
    var all := taken + resting;
    RestedOnce(placements);
    forall i, j | 0 <= i < j < |cancelled| ensures cancelled[i] != cancelled[j] {
      assert all[source[i]] == cancelled[i] && all[source[j]] == cancelled[j];
    }
    forall i, j | 0 <= i < |cancelled| && 0 <= j < |resting| ensures cancelled[i] != resting[j] {
      assert all[source[i]] == cancelled[i] && all[|taken| + j] == resting[j];
    }
  }

  /** The answer an id answered NEW came from. */
  lemma {:induction false} RestedFrom(placements: seq<PlacedResponse>, k: nat) returns (i: nat)
    requires k < |Rested(placements)|
    ensures i < |placements| && placements[i].orderId == Rested(placements)[k] && |Rested(placements[..i])| == k
  {
    var n := |placements| - 1;
    if k < |Rested(placements[..n])| {
      i := RestedFrom(placements[..n], k);
      assert placements[..n][..i] == placements[..i];
    } else {
      i := n;
    }
  }

  lemma RestedOnce(placements: seq<PlacedResponse>)
    requires forall i, j :: 0 <= i < j < |placements| ==> placements[i].orderId != placements[j].orderId
    ensures forall k, l :: 0 <= k < l < |Rested(placements)| ==> Rested(placements)[k] != Rested(placements)[l]
  {
    forall k, l | 0 <= k < l < |Rested(placements)| ensures Rested(placements)[k] != Rested(placements)[l] {
      var i := RestedFrom(placements, k);
      var j := RestedFrom(placements, l);
      assert i < j || j < i;
    }
  }

  /** A placement sent in the run's window whose answer never came. */
  predicate LostPlacementSince(row: Attempt, from: int) { row.status == 0 && row.placement.Some? && row.at >= from }

  function LostSince(rows: seq<Attempt>, from: int): nat {
    if rows == [] then 0 else (if LostPlacementSince(rows[0], from) then 1 else 0) + LostSince(rows[1..], from)
  }

  /** The placements sent at the start of the window or later that nobody answered, counted once each. */
  lemma {:induction false} LostAreExact(rows: seq<Attempt>, from: int)
    ensures LostSince(rows, from)
         == |Where(rows, (row: Attempt) => row.status == 0 && row.placement.Some? && from <= row.at)|
  {
    if rows != [] {
      LostAreExact(rows[1..], from);
      assert rows == [rows[0]] + rows[1..];
      WherePrepend(rows[0], rows[1..], (row: Attempt) => row.status == 0 && row.placement.Some? && from <= row.at);
    }
  }

  lemma {:induction false} SmallerSet(a: set<nat>, b: set<nat>, c: set<nat>)
    requires a <= b + c
    ensures |a| <= |b| + |c|
  {
    if a != {} {
      var x :| x in a;
      SmallerSet(a - {x}, b - {x}, c - {x});
    }
  }

  /** The first call of those waited for. */
  predicate First(pending: set<nat>, first: nat) {
    first in pending && forall id :: id in pending ==> first <= id
  }

  /** What a run waits for was recorded, and what went unanswered was recorded so. */
  ghost predicate Recorded(log: seq<Attempt>, pending: set<nat>, silent: set<nat>) {
    && (forall id :: id in pending ==> 1 <= id <= |log|)
    && (forall id :: id in silent ==> 1 <= id <= |log| && log[id - 1].status == 0)
  }

  lemma RecordedOne(log: seq<Attempt>, pending: set<nat>, silent: set<nat>, id: nat)
    requires Recorded(log, pending, silent) && 1 <= id <= |log|
    ensures Recorded(log, pending + {id}, if log[id - 1].status == 0 then silent + {id} else silent)
  {
  }

  lemma RecordedNext(log: seq<Attempt>, pending: set<nat>, silent: set<nat>, row: Attempt)
    requires Recorded(log, pending, silent) && row.id == |log| + 1
    ensures Recorded(log + [row], pending + {row.id}, if row.status == 0 then silent + {row.id} else silent)
    ensures row.id !in pending
  {
  }

  /** Whatever other clients record meanwhile. */
  lemma RecordedStays(log: seq<Attempt>, log': seq<Attempt>, pending: set<nat>, silent: set<nat>)
    requires Recorded(log, pending, silent) && Grown(log, log')
    ensures Recorded(log', pending, silent)
  {
  }

  class LoadRun {
    const attempts: AttemptsStore
    var sent: nat
    var pending: set<nat>
    var latencies: seq<int>
    var placements: seq<PlacedResponse>
    var resting: seq<int>
    var cancelled: seq<int>
    var requested: nat
    var conflicted: nat
    var byStatus: map<int, nat>
    var outcomes: map<Status, nat>
    ghost var folded: seq<Attempt>       // the run's own rows, as it counted them
    ghost var silent: set<nat>           // the run's own calls that were never answered
    ghost var begun: nat                 // steps fired
    ghost var asking: nat                // requests that were not answered yet
    ghost var taken: seq<int>            // the order ids cancels were asked for, in order
    ghost var tickets: set<nat>          // which of them were not answered yet
    ghost var source: seq<nat>               // which of them each cancelled id came from

    constructor (attempts: AttemptsStore)
      requires attempts.Valid()
      ensures Folding() && Hearing() && Dancing() && Stepping() && Watching()
      ensures this.attempts == attempts && begun == 0
    {
      this.attempts := attempts;
      sent, pending, latencies, placements, resting, cancelled := 0, {}, [], [], [], [];
      requested, conflicted, byStatus, outcomes := 0, 0, map[], map[];
      folded, silent, begun, asking, taken, tickets, source := [], {}, 0, 0, [], {}, [];
    }

    /** Every request is counted under one status or is pending. */
    ghost predicate Folding()
      reads this`folded, this`byStatus, this`latencies, this`outcomes, this`pending, this`sent
    {
      Counted(folded, byStatus, latencies, outcomes) && |folded| + |pending| == sent
    }

    /** What went unanswered is pending or was counted as unanswered. */
    ghost predicate Hearing()
      reads this`folded, this`pending, this`silent
    {
      silent <= pending + SilentIds(folded)
    }

    ghost predicate Dancing()
      reads this`resting, this`taken, this`placements, this`cancelled, this`tickets, this`source
    {
      Danced(taken, resting, placements) && CancelledAt(taken, tickets, cancelled, source)
    }

    /** Every step fired asked for one thing, which was answered or is in flight. */
    ghost predicate Stepping()
      reads this`sent, this`asking, this`begun
    {
      sent + asking == begun
    }

    /** What the run waits for was recorded; the recorder only ever grows. */
    ghost predicate Watching()
      reads this`pending, this`silent, attempts
    {
      attempts.Valid() && Recorded(attempts.log, pending, silent)
    }

    /** Other clients of the recorder do not disturb what the run waits for. */
    twostate lemma OthersRecord()
      requires old(Watching()) && unchanged(this) && attempts.Valid() && Grown(old(attempts.log), attempts.log)
      ensures Watching()
    {
      RecordedStays(old(attempts.log), attempts.log, pending, silent);
    }

    /** What a step asks for: a cancel with nothing resting places the order it would have taken. */
    method Fire(step: Plan) returns (ask: Ask, ghost ticket: nat)
      requires Dancing() && Stepping()
      modifies this`resting, this`begun, this`asking, this`taken, this`tickets
      ensures Dancing() && Stepping() && begun == old(begun) + 1 && asking == old(asking) + 1
      ensures ask.AskPlace? ==> resting == old(resting) && taken == old(taken) && tickets == old(tickets)
                                && (step.PlaceStep? ==> ask.order == step.order)
                                && (step.CancelStep? ==> resting == [] && ask.order == step.fallback)
      ensures ask.AskCancel? ==> step.CancelStep? && old(resting) == [ask.orderId] + resting
                                 && taken == old(taken) + [ask.orderId]
                                 && ticket == |old(taken)| && tickets == old(tickets) + {ticket}
    {
      begun, asking, ticket := begun + 1, asking + 1, |taken|;
      if step.CancelStep? && resting != [] {
        var orderId := resting[0];
        ghost var taken' := taken + [orderId];
        assert taken' + resting[1..] == taken + resting;
        resting, taken, tickets := resting[1..], taken', tickets + {ticket};
        ask := AskCancel(orderId);
      } else {
        ask := AskPlace(if step.CancelStep? then step.fallback else step.order);
      }
    }

    method Count(id: nat, ghost status: int)
      requires Folding() && Hearing() && Stepping() && asking > 0 && id !in pending
      modifies this`sent, this`pending, this`asking, this`silent
      ensures Folding() && Hearing() && Stepping()
      ensures sent == old(sent) + 1 && asking == old(asking) - 1 && pending == old(pending) + {id}
      ensures silent == if status == 0 then old(silent) + {id} else old(silent)
    {
      ghost var silent' := if status == 0 then silent + {id} else silent;
      sent, asking, pending, silent := sent + 1, asking - 1, pending + {id}, silent';
    }

    /** A request whose row the recorder holds already. */
    method CountRecorded(id: nat, ghost status: int)
      requires Folding() && Hearing() && Stepping() && Watching() && asking > 0 && id !in pending
      requires 1 <= id <= |attempts.log| && attempts.log[id - 1].status == status
      modifies this`sent, this`pending, this`asking, this`silent
      ensures Folding() && Hearing() && Stepping() && Watching()
      ensures asking == old(asking) - 1 && pending == old(pending) + {id}
    {
      RecordedOne(attempts.log, pending, silent, id);
      Count(id, status);
    }

    /** One call: the gateway records it, and the run counts it and waits for its row. */
    method Issued(attempt: Attempt)
      requires Folding() && Hearing() && Stepping() && Watching() && asking > 0
      modifies this`sent, this`pending, this`asking, this`silent, attempts
      ensures Folding() && Hearing() && Stepping() && Watching()
      ensures sent == old(sent) + 1 && asking == old(asking) - 1
      ensures attempts.log == old(attempts.log) + [attempt.(id := |attempts.log|)]
      ensures pending == old(pending) + {|attempts.log|}
      ensures silent == if attempt.status == 0 then old(silent) + {|attempts.log|} else old(silent)
    {
      RecordedNext(attempts.log, pending, silent, attempt.(id := |attempts.log| + 1));
      var id := attempts.Record(attempt);
      Count(id, attempt.status);
    }

    /** A placement's answer: an order answered NEW rests. */
    method PlaceAnswered(attempt: Attempt, placed: Option<PlacedResponse>)
      requires Folding() && Hearing() && Dancing() && Stepping() && Watching() && asking > 0
      modifies this`sent, this`pending, this`placements, this`resting, this`asking, this`silent, attempts
      ensures Folding() && Hearing() && Dancing() && Stepping() && Watching()
      ensures sent == old(sent) + 1 && asking == old(asking) - 1
      ensures attempts.log == old(attempts.log) + [attempt.(id := |attempts.log|)]
      ensures pending == old(pending) + {|attempts.log|}
      ensures silent == if attempt.status == 0 then old(silent) + {|attempts.log|} else old(silent)
      ensures placements == old(placements) + if placed.Some? then [placed.value] else []
      ensures resting ==
              old(resting) + if placed.Some? && placed.value.status == New then [placed.value.orderId] else []
    {
      Issued(attempt);
      if placed.Some? {
        Keep(placed.value);
      }
    }

    method Keep(placed: PlacedResponse)
      requires Dancing()
      modifies this`placements, this`resting
      ensures Dancing() && placements == old(placements) + [placed]
      ensures resting == old(resting) + if placed.status == New then [placed.orderId] else []
    {
      DanceKeeps(taken, resting, placements, placed);
      if placed.status == New {
        resting := resting + [placed.orderId];
      }
      placements := placements + [placed];
    }

    /** A cancel's answer. */
    method CancelAnswered(orderId: int, attempt: Attempt, ghost ticket: nat)
      requires Folding() && Hearing() && Dancing() && Stepping() && Watching() && asking > 0
      requires ticket in tickets && taken[ticket] == orderId
      modifies this`sent, this`pending, this`cancelled, this`requested, this`conflicted, this`asking, this`tickets,
               this`source, this`silent, attempts
      ensures Folding() && Hearing() && Dancing() && Stepping() && Watching()
      ensures sent == old(sent) + 1 && asking == old(asking) - 1 && tickets == old(tickets) - {ticket}
      ensures attempts.log == old(attempts.log) + [attempt.(id := |attempts.log|)]
      ensures pending == old(pending) + {|attempts.log|}
      ensures silent == if attempt.status == 0 then old(silent) + {|attempts.log|} else old(silent)
      ensures requested == old(requested) + 1
      ensures cancelled == old(cancelled) + if 200 <= attempt.status < 300 then [orderId] else []
      ensures conflicted == old(conflicted) + if attempt.status == 409 then 1 else 0
    {
      Issued(attempt);
      CancelDone(orderId, ticket, attempt.status);
    }

    method CancelDone(orderId: int, ghost ticket: nat, status: int)
      requires Dancing() && ticket in tickets && taken[ticket] == orderId
      modifies this`cancelled, this`requested, this`conflicted, this`tickets, this`source
      ensures Dancing() && tickets == old(tickets) - {ticket}
      ensures requested == old(requested) + 1
      ensures cancelled == old(cancelled) + if 200 <= status < 300 then [orderId] else []
      ensures conflicted == old(conflicted) + if status == 409 then 1 else 0
    {
      ghost var source' := source + [ticket];
      requested, tickets := requested + 1, tickets - {ticket};
      if 200 <= status < 300 {
        cancelled, source := cancelled + [orderId], source';
      } else if status == 409 {
        conflicted := conflicted + 1;
      }
    }

    /** A settled row of the run's own leaves what it waits for, and is counted. */
    method FoldRow(row: Attempt)
      requires Folding() && Hearing() && (row.id in silent ==> row.status == 0)
      modifies this`pending, this`byStatus, this`latencies, this`outcomes, this`folded
      ensures Folding() && Hearing()
      ensures pending == if row.id in old(pending) then old(pending) - {row.id} else old(pending)
      ensures folded == if row.id in old(pending) then old(folded) + [row] else old(folded)
    {
      if row.id !in pending {
        return;
      }
      FoldedOne(folded, byStatus, latencies, outcomes, pending, silent, row);
      ghost var folded' := folded + [row];
      var latencies' := if row.status != 0 then latencies + [row.latencyMs] else latencies;
      var outcomes' := if row.actual.Some? then OneMore(outcomes, row.actual.value) else outcomes;
      var byStatus', pending' := OneMore(byStatus, row.status), pending - {row.id};
      pending, folded, byStatus, latencies, outcomes := pending', folded', byStatus', latencies', outcomes';
    }

    method FoldRows(rows: seq<Attempt>, ghost newest: nat)
      requires Folding() && Hearing()
      requires forall k :: 0 <= k < |rows| ==>
               rows[k].id == newest - k && (rows[k].id in silent ==> rows[k].status == 0)
      requires forall id :: id in pending ==> id <= newest
      modifies this`pending, this`byStatus, this`latencies, this`outcomes, this`folded
      ensures Folding() && Hearing()
      ensures forall id :: id in pending <==> id in old(pending) && id <= newest - |rows|
    {
      for i := 0 to |rows|
        invariant Folding() && Hearing()
        invariant forall id :: id in pending <==> id in old(pending) && id <= newest - i
      {
        FoldRow(rows[i]);
      }
    }

    /** Takes every retained row of the run's own out of what it waits for, each once: all of them
        exactly when the rows recorded from the first one on, anybody's, still fit the ring. */
    method Fold()
      requires Folding() && Hearing() && Watching()
      modifies this`pending, this`byStatus, this`latencies, this`outcomes, this`folded
      ensures Folding() && Hearing() && Watching()
      ensures forall id :: id in pending <==> id in old(pending) && !attempts.Retained(id)
      ensures pending == {} <==> forall id :: id in old(pending) ==> attempts.Retained(id)
      ensures forall first :: First(old(pending), first) ==>
                (pending == {} <==> |attempts.log| - first + 1 <= attempts.capacity)
    {
      var rows := attempts.Recent(attempts.capacity);
      FoldRows(rows, |attempts.log|);
    }

    /** At any point of a run its requests are those counted under a status and those it waits for. */
    lemma SentIsAccountedFor()
      requires Folding()
      ensures Total(byStatus) + |pending| == sent
    {
      EveryRowIsCounted(folded);
    }

    /** The allowance for rows nothing can name. It is never short of the run's own calls that
        went unanswered, whatever the ring has dropped. */
    method Unanswered(from: int) returns (allowance: nat)
      requires Folding() && Hearing() && Watching()
      ensures allowance == LostSince(attempts.log[attempts.Oldest()..], from) + CountIn(byStatus, 0) + |pending|
      ensures |silent| <= allowance
    {
      var rows := attempts.Recent(attempts.capacity);
      var lost := 0;
      ghost var kept := attempts.log[attempts.Oldest()..];
      for i := 0 to |rows|
        invariant lost == LostSince(kept[|rows| - i..], from)
      {
        assert kept[|rows| - (i + 1)..] == [rows[i]] + kept[|rows| - i..];
        if LostPlacementSince(rows[i], from) {
          lost := lost + 1;
        }
      }
      assert kept[0..] == kept;
      allowance := lost + CountIn(byStatus, 0) + |pending|;
      SilentAreCounted(folded);
      SmallerSet(silent, pending, SilentIds(folded));
    }
  }
}
