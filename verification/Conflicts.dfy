/** What a cancel answers. It takes no lock, and the status that explains a refusal is read after
    the UPDATE that was refused. */
module Conflicts {
  import opened Options
  import opened OrderRules
  import opened Ledger
  import opened SeqSum
  import opened Placement
  import opened Protocol
  import opened ProtocolInvariant
  import opened Serializability

  /** A 409 from a cancel whose UPDATE came after the row names a final status. */
  lemma ConflictIsFinalOnceSeen(s: State, steps: seq<Step>, c: nat)
    requires Seed(s) && c < |Run(s, steps).cancels|
    requires var call := Run(s, steps).cancels[c]; call.CancelDone? && call.seen
    ensures Run(s, steps).cancels[c].answer != Conflict(New)
  {
    Reachable(s, steps);
  }

  /** Whenever an uncommitted order is going to rest, a cancel whose UPDATE runs before its
      commit and whose re-read runs after it answers that the order is NEW and cannot be
      cancelled. */
  lemma StaleConflictHappens(seed: seq<Row>, s: State, t: nat)
    requires Inv(seed, s) && t < |s.txs| && s.txs[t].phase.Inserted? && s.txs[t].phase.row.status == New
    ensures var id := s.txs[t].phase.row.id;
            var s' := Next(Next(Next(s, CancelUpdate(id)), Advance(t)), CancelReread(|s.cancels|));
            && s'.cancels == s.cancels + [CancelDone(id, false, Conflict(New))]
            && s'.rows == s.rows + [s.txs[t].phase.row]
  {
    InsertIsNewer(seed, s, t);
    StaleConflictSteps(s, t, s.txs[t].phase.row);
  }

  lemma InsertIsNewer(seed: seq<Row>, s: State, t: nat)
    requires Inv(seed, s) && t < |s.txs| && s.txs[t].phase.Inserted?
    ensures Newer(s.rows, s.txs[t].phase.row)
  {
    assert TxOk(s.rows, s.nextId, s.log, t, s.txs[t]);
  }

  lemma StaleConflictSteps(s: State, t: nat, row: Row)
    requires t < |s.txs| && s.txs[t].phase.Inserted? && s.txs[t].phase.row == row
    requires Newer(s.rows, row) && row.status == New
    ensures var s' := Next(Next(Next(s, CancelUpdate(row.id)), Advance(t)), CancelReread(|s.cancels|));
            && s'.cancels == s.cancels + [CancelDone(row.id, false, Conflict(New))]
            && s'.rows == s.rows + [row]
  {
    EarlyUpdateMisses(s, row);
    var s1 := s.(cancels := s.cancels + [Missing(row.id, false)]);
    CommitAppends(s1, t);
    LateRereadHits(Next(s1, Advance(t)), row, |s.cancels|);
  }

  /* Such a run exists: user 7 has 100 pesos and rests a buy of 2 at 10.00 under a cancel. */

  const RESTING := Request(7, 3, Buy, Limit, Some(2), None, Some(1000), "k")
  const FUNDED := [Row(0, 7, 66, CashIn, 100, 100, Market, Filled, None)]

  /** The transaction of that order after i of its statements. */
  function PhaseAfter(i: nat): Phase
    requires i <= 7
  {
    match i
    case 0 => Queued
    case 1 => Locked
    case 2 => Missed
    case 3 => KnownUser
    case 4 => Sizing(1200, 2)
    case 5 => CashRead(1200, 2, 10000)
    case 6 => Ready(1200, 2, 10000, HeldShares(FUNDED, 7, 3))
    case 7 => Inserted(Quote(false, Some(1200)), Row(1, 7, 3, Buy, 2, 1000, Limit, New, Some("k")))
  }

  function StateAfter(i: nat): State
    requires i <= 7
  {
    State({7}, map[3 := Quote(false, Some(1200))], FUNDED, if i == 7 then 2 else 1,
          if i == 0 then map[] else map[7 := 0], [Tx(RESTING, PhaseAfter(i))], [], [])
  }

  lemma FundedReads()
    ensures AvailableCash(FUNDED, 7) == 10000 && ByKey(FUNDED, 7, "k").None?
  {
    ViewsAreFolds(FUNDED, 7, 3);
    SumAppend([], FUNDED[0], CashOf(7));
  }

  lemma PhaseAfterNext(i: nat)
    requires i < 7
    ensures NextPhase(StateAfter(i), Tx(RESTING, PhaseAfter(i))) == PhaseAfter(i + 1)
  {
    FundedReads();
  }

  lemma StateAfterNext(i: nat)
    requires i < 7
    ensures Next(StateAfter(i), Advance(0)) == StateAfter(i + 1)
  {
    FundedReads();
    PhaseAfterNext(i);
  }

  lemma StaleConflictRun() returns (s: State, steps: seq<Step>)
    ensures Seed(s)
    ensures CancelDone(1, false, Conflict(New)) in Run(s, steps).cancels
    ensures exists row :: row in Run(s, steps).rows && row.id == 1 && row.status == New
  {
    s := StateAfter(0).(txs := []);
    steps := [Begin(RESTING)];
    RunPush(s, [], Begin(RESTING));
    var i := 0;
    while i < 7
      invariant 0 <= i <= 7
      invariant Run(s, steps) == StateAfter(i)
    {
      StateAfterNext(i);
      RunPush(s, steps, Advance(0));
      steps := steps + [Advance(0)];
      i := i + 1;
    }
    StaleConflictSteps(StateAfter(7), 0, PhaseAfter(7).row);
    RunPush(s, steps, CancelUpdate(1));
    RunPush(s, steps + [CancelUpdate(1)], Advance(0));
    RunPush(s, steps + [CancelUpdate(1)] + [Advance(0)], CancelReread(0));
    steps := steps + [CancelUpdate(1)] + [Advance(0)] + [CancelReread(0)];
    assert Run(s, steps).rows[1] in Run(s, steps).rows;
  }

  lemma CommitAppends(s: State, t: nat)
    requires t < |s.txs| && s.txs[t].phase.Inserted?
    ensures Next(s, Advance(t)).rows == s.rows + [s.txs[t].phase.row]
    ensures Next(s, Advance(t)).cancels == s.cancels
  {
  }

  lemma EarlyUpdateMisses(s: State, row: Row)
    requires Newer(s.rows, row)
    ensures DoCancelUpdate(s, row.id) == s.(cancels := s.cancels + [Missing(row.id, false)])
  {
  }

  lemma LateRereadHits(s: State, row: Row, c: nat)
    requires |s.rows| > 0 && s.rows[|s.rows| - 1] == row && row.status == New
    requires c < |s.cancels| && s.cancels[c] == Missing(row.id, false)
    ensures Next(s, CancelReread(c)).rows == s.rows
    ensures Next(s, CancelReread(c)).cancels == s.cancels[c := CancelDone(row.id, false, Conflict(New))]
  {
  }

  /* ---- Which ids can be answered so ---- */

  /** A cancel that missed answers that the order is NEW exactly when the row came after its UPDATE
      and is there, NEW, at its re-read. */
  lemma StaleConflictIff(seed: seq<Row>, s: State, c: nat)
    requires Inv(seed, s) && Enabled(s, CancelReread(c))
    ensures Next(s, CancelReread(c)).cancels[c].answer == Conflict(New) <==>
            && !s.cancels[c].seen
            && exists i :: 0 <= i < |s.rows| && s.rows[i].id == s.cancels[c].id && s.rows[i].status == New
  {
    var id := s.cancels[c].id;
    if i :| 0 <= i < |s.rows| && s.rows[i].id == id && s.rows[i].status == New {
      assert s.rows[i] in s.rows;
    }
    if s.cancels[c].seen {
      var j :| 0 <= j < |s.rows| && s.rows[j].id == id && s.rows[j].status != New;
    }
  }

  /** An order of this id is written, not committed, and going to rest. */
  predicate Arriving(txs: seq<Tx>, id: int) {
    exists t :: 0 <= t < |txs| && txs[t].phase.Inserted? && txs[t].phase.row.id == id && txs[t].phase.row.status == New
  }

  /** No order of this id is NEW, committed or on its way, and none can be any more. */
  predicate NeverNew(s: State, id: int) {
    && id < s.nextId && !Arriving(s.txs, id)
    && forall i :: 0 <= i < |s.rows| && s.rows[i].id == id ==> s.rows[i].status != New
  }

  lemma InsertsTakeNewIds(s: State, step: Step)
    ensures forall t :: 0 <= t < |Next(s, step).txs| && Next(s, step).txs[t].phase.Inserted? ==>
              Next(s, step).txs[t].phase.row.id == s.nextId || (t < |s.txs| && Next(s, step).txs[t] == s.txs[t])
  {
  }

  lemma NextKeepsNeverNew(seed: seq<Row>, s: State, step: Step, id: int)
    requires Inv(seed, s) && NeverNew(s, id)
    ensures NeverNew(Next(s, step), id)
  {
    var s' := Next(s, step);
    if step.Advance? && Enabled(s, step) {
      assert TxOk(s.rows, s.nextId, s.log, step.t, s.txs[step.t]);
    }
    InsertsTakeNewIds(s, step);
  }

  /** The call is about this id, and has not been answered that the order is NEW. */
  predicate NotToldNew(cancels: seq<CancelCall>, c: nat, id: int) {
    c < |cancels| && cancels[c].id == id && (cancels[c].CancelDone? ==> cancels[c].answer != Conflict(New))
  }

  lemma NextKeepsNotTold(s: State, step: Step, c: nat, id: int)
    requires NeverNew(s, id) && NotToldNew(s.cancels, c, id)
    ensures NotToldNew(Next(s, step).cancels, c, id)
  {
    if step.CancelReread? && Enabled(s, step) && step.c == c {
      assert FindId(s.rows, id).Some? ==> s.rows[FindId(s.rows, id).value].status != New;
    }
  }

  lemma {:induction false} NeverTold(seed: seq<Row>, s: State, steps: seq<Step>, c: nat, id: int)
    requires Inv(seed, s) && NeverNew(s, id) && NotToldNew(s.cancels, c, id)
    ensures Inv(seed, Run(s, steps)) && NeverNew(Run(s, steps), id) && NotToldNew(Run(s, steps).cancels, c, id)
  {
    if steps != [] {
      var n := |steps| - 1;
      NeverTold(seed, s, steps[..n], c, id);
      NeverToldNext(seed, Run(s, steps[..n]), steps[n], c, id);
    }
  }

  lemma NeverToldNext(seed: seq<Row>, s: State, step: Step, c: nat, id: int)
    requires Inv(seed, s) && NeverNew(s, id) && NotToldNew(s.cancels, c, id)
    ensures Inv(seed, Next(s, step)) && NeverNew(Next(s, step), id) && NotToldNew(Next(s, step).cancels, c, id)
  {
    NextKeepsInv(seed, s, step);
    NextKeepsNeverNew(seed, s, step, id);
    NextKeepsNotTold(s, step, c, id);
  }

  /** A cancel sent for `id` now, and then the given steps, answers that the order is NEW. */
  predicate ToldNew(s: State, id: int, more: seq<Step>) {
    var end := Run(Next(s, CancelUpdate(id)), more);
    && |s.cancels| < |end.cancels| && end.cancels[|s.cancels|].CancelDone?
    && end.cancels[|s.cancels|].answer == Conflict(New)
  }

  /** What is to be known when the UPDATE runs: an id that was handed out can be answered NEW, in
      some continuation, exactly when its order is written and not committed at that moment. One
      that is committed, one that was rolled back and one that fills or is refused never is. */
  lemma ConflictOutlook(s: State, steps: seq<Step>, id: int)
    requires Seed(s) && id < Run(s, steps).nextId
    ensures (exists more :: ToldNew(Run(s, steps), id, more)) <==> Arriving(Run(s, steps).txs, id)
  {
    var s' := Run(s, steps);
    Reachable(s, steps);
    if Arriving(s'.txs, id) {
      var t :| 0 <= t < |s'.txs| && s'.txs[t].phase.Inserted? && s'.txs[t].phase.row.id == id
                && s'.txs[t].phase.row.status == New;
      ArrivingIsTold(s.rows, s', t);
    } else {
      UpdateLeavesNone(s', id);
      NextKeepsInv(s.rows, s', CancelUpdate(id));
      forall more ensures !ToldNew(s', id, more) {
        NeverTold(s.rows, Next(s', CancelUpdate(id)), more, |s'.cancels|, id);
      }
    }
  }

  lemma ArrivingIsTold(seed: seq<Row>, s: State, t: nat)
    requires Inv(seed, s) && t < |s.txs| && s.txs[t].phase.Inserted? && s.txs[t].phase.row.status == New
    ensures ToldNew(s, s.txs[t].phase.row.id, [Advance(t)] + [CancelReread(|s.cancels|)])
  {
    var updated := Next(s, CancelUpdate(s.txs[t].phase.row.id));
    StaleConflictHappens(seed, s, t);
    RunPush(updated, [], Advance(t));
    RunPush(updated, [Advance(t)], CancelReread(|s.cancels|));
    assert [] + [Advance(t)] == [Advance(t)];
  }

  /** Behind the UPDATE no order of its id is NEW any more, unless one is on its way. */
  lemma UpdateLeavesNone(s: State, id: int)
    requires IdsUnique(s.rows) && id < s.nextId && !Arriving(s.txs, id)
    ensures var s' := Next(s, CancelUpdate(id)); NeverNew(s', id) && NotToldNew(s'.cancels, |s.cancels|, id)
  {
    var at := FindId(s.rows, id);
    forall i | 0 <= i < |s.rows| && s.rows[i].id == id ensures at == Some(i) {
      assert s.rows[i] in s.rows;
    }
  }
}
