/** What a load run collects for its check: when its own books are honest evidence of the target. */
module RunEvidence {
  import opened Options
  import opened Ledger
  import opened Protocol
  import opened LedgerSafety
  import opened AttemptsStore
  import opened Checkers
  import opened CheckersPass
  import opened LoadRun
  import opened Backoffice

  /** The orders the run can name: those its own calls were answered with, and those any retained call was. */
  ghost predicate Nameable(placements: seq<PlacedResponse>, kept: seq<Attempt>, id: int) {
    || (exists k :: 0 <= k < |placements| && placements[k].orderId == id)
    || (exists k :: 0 <= k < |kept| && kept[k].orderId == Some(id))
  }

  ghost function LostIds(kept: seq<Attempt>, from: int): set<nat> {
    set row | row in kept && LostPlacementSince(row, from) :: row.id
  }

  /** `rowOf[t]` is the recorder's row of call t. A call that stored an order is accounted for when the run
      can name the order, or the call is one of its own that went unanswered, or anybody's that did, in the
      run's window, and that the ring still holds. */
  ghost predicate AccountedFor(txs: seq<Tx>, rowOf: seq<nat>, placements: seq<PlacedResponse>, silent: set<nat>,
                               kept: seq<Attempt>, from: int, t: nat)
    requires |rowOf| == |txs|
  {
    forall id :: CreatedBy(txs, t, id) ==>
      Nameable(placements, kept, id) || rowOf[t] in silent || rowOf[t] in LostIds(kept, from)
  }

  /** Each call has a row of its own. */
  predicate OwnRows(rowOf: seq<nat>) { forall i, j :: 0 <= i < j < |rowOf| ==> rowOf[i] != rowOf[j] }

  /** The calls that stored an order the run cannot name. */
  ghost function Owed(txs: seq<Tx>, acknowledged: set<int>): set<nat> {
    set t | 0 <= t < |txs| && txs[t].phase.Done? && txs[t].phase.answer.Created?
            && txs[t].phase.answer.row.id !in acknowledged
  }

  ghost function Answering(txs: seq<Tx>, acknowledged: set<int>): set<nat> {
    set t | 0 <= t < |txs| && t !in Owed(txs, acknowledged)
  }

  ghost function RowsOf(calls: set<nat>, rowOf: seq<nat>): set<nat> {
    set t | t in calls && t < |rowOf| :: rowOf[t]
  }

  lemma {:induction false} AsManyRows(calls: set<nat>, rowOf: seq<nat>)
    requires OwnRows(rowOf) && forall t :: t in calls ==> t < |rowOf|
    ensures |RowsOf(calls, rowOf)| == |calls|
  {
    if calls == {} {
      assert RowsOf(calls, rowOf) == {};
    } else {
      var t :| t in calls;
      AsManyRows(calls - {t}, rowOf);
      assert RowsOf(calls, rowOf) == RowsOf(calls - {t}, rowOf) + {rowOf[t]};
      assert rowOf[t] !in RowsOf(calls - {t}, rowOf);
    }
  }

  lemma {:induction false} LostAreCounted(kept: seq<Attempt>, from: int)
    ensures |LostIds(kept, from)| <= LostSince(kept, from)
  {
    if kept == [] {
      assert LostIds(kept, from) == {};
    } else {
      LostAreCounted(kept[1..], from);
      var first := if LostPlacementSince(kept[0], from) then {kept[0].id} else {};
      assert forall row :: row in kept <==> row == kept[0] || row in kept[1..];
      assert LostIds(kept, from) == LostIds(kept[1..], from) + first;
    }
  }

  /** The calls nobody can name are no more than the run allows for. */
  lemma AllowanceCovers(txs: seq<Tx>, rowOf: seq<nat>, placements: seq<PlacedResponse>, acknowledged: set<int>,
                        silent: set<nat>, counted: nat, kept: seq<Attempt>, from: int)
    requires |rowOf| == |txs| && OwnRows(rowOf) && |silent| <= counted
    requires forall id :: Nameable(placements, kept, id) ==> id in acknowledged
    requires forall t :: 0 <= t < |txs| ==> AccountedFor(txs, rowOf, placements, silent, kept, from, t)
    ensures |Silent(txs, Answering(txs, acknowledged))| <= LostSince(kept, from) + counted
    ensures forall t, id :: t in Answering(txs, acknowledged) && CreatedBy(txs, t, id) ==> id in acknowledged
  {
    var owed := Owed(txs, acknowledged);
    assert Silent(txs, Answering(txs, acknowledged)) == owed;
    forall t | t in owed ensures rowOf[t] in silent + LostIds(kept, from) {
      assert AccountedFor(txs, rowOf, placements, silent, kept, from, t);
      assert CreatedBy(txs, t, txs[t].phase.answer.row.id);
    }
    AsManyRows(owed, rowOf);
    LostAreCounted(kept, from);
    SmallerSet(RowsOf(owed, rowOf), silent, LostIds(kept, from));
  }

  /** The orders the retained calls were answered with, and the run's own. */
  method Acknowledge(run: LoadRun) returns (ids: set<int>)
    requires run.attempts.Valid()
    ensures forall id :: id in ids <==> Nameable(run.placements, run.attempts.log[run.attempts.Oldest()..], id)
  {
    var rows := run.attempts.Recent(run.attempts.capacity);
    ghost var kept := run.attempts.log[run.attempts.Oldest()..];
    ids := {};
    for i := 0 to |rows|
      invariant forall id :: id in ids <==> exists k :: 0 <= k < i && rows[k].orderId == Some(id)
    {
      if rows[i].orderId.Some? {
        ids := ids + {rows[i].orderId.value};
      }
    }
    SameNames(rows, kept);
    ghost var recorded := ids;
    for i := 0 to |run.placements|
      invariant forall id :: id in ids <==>
                  id in recorded || exists k :: 0 <= k < i && run.placements[k].orderId == id
    {
      ids := ids + {run.placements[i].orderId};
    }
  }

  /** Read from either end the rows name the same orders. */
  lemma SameNames(rows: seq<Attempt>, kept: seq<Attempt>)
    requires |rows| == |kept| && forall i :: 0 <= i < |rows| ==> rows[i] == kept[|kept| - 1 - i]
    ensures forall id :: (exists k :: 0 <= k < |rows| && rows[k].orderId == Some(id))
                    <==> (exists k :: 0 <= k < |kept| && kept[k].orderId == Some(id))
  {
    forall id
      ensures (exists k :: 0 <= k < |rows| && rows[k].orderId == Some(id))
         <==> (exists k :: 0 <= k < |kept| && kept[k].orderId == Some(id))
    {
      if k :| 0 <= k < |kept| && kept[k].orderId == Some(id) {
        assert rows[|kept| - 1 - k] == kept[k];
      }
      if k :| 0 <= k < |rows| && rows[k].orderId == Some(id) {
        assert kept[|kept| - 1 - k] == rows[k];
      }
    }
  }

  /** What the run allows for: the lost placements the ring holds, and its own calls that went unanswered. */
  ghost function Allowance(run: LoadRun, from: int): nat
    requires run.Watching()
    reads run, run.attempts
  {
    LostSince(Kept(run), from) + CountIn(run.byStatus, 0) + |run.pending|
  }

  ghost function Kept(run: LoadRun): seq<Attempt>
    requires run.Watching()
    reads run, run.attempts
  {
    run.attempts.log[run.attempts.Oldest()..]
  }

  /** Every call of the target's that stored an order is accounted for. */
  ghost predicate AllAccountedFor(run: LoadRun, from: int, txs: seq<Tx>, rowOf: seq<nat>)
    requires run.Watching() && |rowOf| == |txs|
    reads run, run.attempts
  {
    forall t :: 0 <= t < |txs| ==>
      AccountedFor(txs, rowOf, run.placements, run.silent, Kept(run), from, t)
  }

  /** The run's own books at the end of it, as evidence: honest whenever the readings are and every call that
      stored an order is accounted for; which a call of another client is not once the ring has dropped it.
      The window opens sixteen seconds before the run: a call in flight when it starts can still store its order. */
  method Collect(run: LoadRun, startedAt: int, ledger: seq<Row>, mark: int, apiCash: map<int, CashReading>,
                 shadowCash: map<int, string>, ghost s: State, ghost steps: seq<Step>, ghost users: set<int>,
                 ghost rowOf: seq<nat>)
    returns (e: Evidence, ghost answered: set<nat>)
    requires run.Folding() && run.Hearing() && run.Watching()
    requires HonestReadings(s, steps, users, ledger, mark, apiCash, run.placements, run.cancelled)
    requires |rowOf| == |Run(s, steps).txs| && OwnRows(rowOf)
    ensures e == Evidence(ledger, mark, apiCash, shadowCash, run.placements, e.acknowledged,
                          Allowance(run, startedAt - 16_000), run.cancelled)
    ensures forall id :: id in e.acknowledged <==> Nameable(run.placements, Kept(run), id)
    ensures ReadHonestly(s, steps, users, e)
    ensures AllAccountedFor(run, startedAt - 16_000, Run(s, steps).txs, rowOf) ==>
              HonestEvidence(s, steps, users, answered, e)
  {
    var from := startedAt - LATE_COMMIT_MS;
    var acknowledged := Acknowledge(run);
    var allowance := run.Unanswered(from);
    ghost var txs := Run(s, steps).txs;
    answered := Answering(txs, acknowledged);
    e := Evidence(ledger, mark, apiCash, shadowCash, run.placements, acknowledged, allowance, run.cancelled);
    if AllAccountedFor(run, from, txs, rowOf) {
      SilentAreCounted(run.folded);
      SmallerSet(run.silent, run.pending, SilentIds(run.folded));
      AllowanceCovers(txs, rowOf, run.placements, acknowledged, run.silent,
                      CountIn(run.byStatus, 0) + |run.pending|, Kept(run), from);
    }
  }

  /** A row past the mark that the run cannot name is one too many once nothing went unanswered. */
  lemma {:induction false} UnnamedRowIsUnmatched(ledger: seq<Row>, mark: int, acknowledged: set<int>, n: nat)
    requires n < |ledger| && ledger[n].id > mark && ledger[n].id !in acknowledged
    ensures |Unmatched(ledger, mark, acknowledged)| >= 1
  {
    var last := |ledger| - 1;
    if n < last {
      UnnamedRowIsUnmatched(ledger[..last], mark, acknowledged, n);
    }
  }

  /** So once nothing went unanswered, an order the target stored for a call of another client, answered and
      dropped by the ring since, is reported, though the target did nothing wrong: the other checks pass, but
      for a shadow that is off. */
  method ADroppedCallIsReported(run: LoadRun, startedAt: int, ledger: seq<Row>, mark: int,
                                apiCash: map<int, CashReading>, shadowCash: map<int, string>, n: nat,
                                ghost s: State, ghost steps: seq<Step>, ghost users: set<int>, ghost rowOf: seq<nat>)
    returns (v: Verdicts)
    requires run.Folding() && run.Hearing() && run.Watching()
    requires Seed(s) && forall u :: u in users ==> Solvent(s.rows, u)
    requires HonestReadings(s, steps, users, ledger, mark, apiCash, run.placements, run.cancelled)
    requires |rowOf| == |Run(s, steps).txs| && OwnRows(rowOf)
    requires Allowance(run, startedAt - 16_000) == 0
    requires n < |ledger| && ledger[n].id > mark && !Nameable(run.placements, Kept(run), ledger[n].id)
    ensures !v.responseDbAgreement && v.noOverdraft && v.noOversell && v.cancelSafety
  {
    var e, _ := Collect(run, startedAt, ledger, mark, apiCash, shadowCash, s, steps, users, rowOf);
    UnnamedRowIsUnmatched(e.rows, e.mark, e.acknowledged, n);
    v := ReadingsPass(s, steps, users, e);
  }
}
