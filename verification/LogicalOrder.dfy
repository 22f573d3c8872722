/** One logical order: every call sent under one user and key, over the target's whole run. */
module LogicalOrder {
  import opened Options
  import opened Ledger
  import opened Placement
  import opened Protocol
  import opened ProtocolInvariant
  import opened Serializability

  /** The look-up by key, in table order. */
  function MatchByKey(rows: seq<Row>, user: int, key: Key): seq<Row> {
    if rows == [] then []
    else
      var last := rows[|rows| - 1];
      MatchByKey(rows[..|rows| - 1], user, key) + if last.userId == user && last.key == Some(key) then [last] else []
  }

  /** Where keys are unique the look-up finds the one order the key names, or nothing. */
  lemma {:induction false} MatchIsByKey(rows: seq<Row>, user: int, key: Key)
    requires KeysUnique(rows)
    ensures MatchByKey(rows, user, key) ==
            match ByKey(rows, user, key) { case Some(row) => [row] case None => [] }
  {
    if rows != [] {
      var n := |rows| - 1;
      MatchIsByKey(rows[..n], user, key);
    }
  }

  /** However the calls of one logical order fare, the database holds at most one row for it. */
  lemma AtMostOneRow(s: State, steps: seq<Step>, user: int, key: Key)
    requires Seed(s)
    ensures |MatchByKey(Run(s, steps).rows, user, key)| <= 1
  {
    TableWellFormed(s, steps);
    MatchIsByKey(Run(s, steps).rows, user, key);
  }

  /** An order named in any answer is the row the look-up finds, unchanged but for a cancel. */
  lemma AnsweredOrderIsFound(s: State, steps: seq<Step>, t: nat)
    requires Seed(s)
    requires var txs := Run(s, steps).txs; t < |txs| && txs[t].phase.Done? && Answered(txs[t].phase.answer)
    ensures var s' := Run(s, steps);
            var found := MatchByKey(s'.rows, s'.txs[t].req.userId, s'.txs[t].req.key);
            |found| == 1 && SameOrMoved(s'.txs[t].phase.answer.row, found[0])
  {
    var s' := Run(s, steps);
    Reachable(s, steps);
    assert TxOk(s'.rows, s'.nextId, s'.log, t, s'.txs[t]);
    LoggedOrderIsFound(s.rows, s'.log, s'.rows, t, s'.txs[t].req, s'.txs[t].phase.answer);
  }

  lemma LoggedOrderIsFound(seed: seq<Row>, log: seq<Event>, rows: seq<Row>, t: nat, req: Request, answer: Answer)
    requires History(seed, log, rows) && KeysUnique(rows) && Logged(log, t, req, answer) && Answered(answer)
    ensures var found := MatchByKey(rows, req.userId, req.key);
            |found| == 1 && SameOrMoved(answer.row, found[0])
  {
    var k :| 0 <= k < |log| && log[k].PlaceEvent? && log[k].t == t && log[k].req == req && log[k].answer == answer;
    AnsweredIsNamed(seed, log, k);
    KeyKeepsItsOrder(seed, log, k + 1, req.userId, req.key);
    MatchIsByKey(rows, req.userId, req.key);
  }

  /** Answers under different users or keys name different orders. */
  lemma OneKeyPerOrder(s: State, steps: seq<Step>, t: nat, t': nat)
    requires Seed(s)
    requires var txs := Run(s, steps).txs;
             && t < |txs| && txs[t].phase.Done? && Answered(txs[t].phase.answer)
             && t' < |txs| && txs[t'].phase.Done? && Answered(txs[t'].phase.answer)
    ensures var (a, b) := (Run(s, steps).txs[t], Run(s, steps).txs[t']);
            a.phase.answer.row.id == b.phase.answer.row.id <==>
            a.req.userId == b.req.userId && a.req.key == b.req.key
  {
    var (rows, a, b) := (Run(s, steps).rows, Run(s, steps).txs[t], Run(s, steps).txs[t']);
    AnsweredOrderIsFound(s, steps, t);
    AnsweredOrderIsFound(s, steps, t');
    TableWellFormed(s, steps);
    FoundOnce(rows, a.req.userId, a.req.key, b.req.userId, b.req.key);
  }

  /** Two look-ups find one order exactly when they are one look-up. */
  lemma FoundOnce(rows: seq<Row>, user: int, key: Key, user': int, key': Key)
    requires KeysUnique(rows) && IdsUnique(rows)
    requires |MatchByKey(rows, user, key)| == 1 && |MatchByKey(rows, user', key')| == 1
    ensures MatchByKey(rows, user, key)[0].id == MatchByKey(rows, user', key')[0].id <==> user == user' && key == key'
  {
    MatchIsByKey(rows, user, key);
    MatchIsByKey(rows, user', key');
    var row, row' := ByKey(rows, user, key).value, ByKey(rows, user', key').value;
    assert row in rows && row' in rows;
  }

  /* ---- When a look-up is final ---- */

  predicate Sends(step: Step, user: int, key: Key) { step.Begin? && step.req.userId == user && step.req.key == key }

  /** No call under the key is still in flight at the target. */
  predicate Spent(txs: seq<Tx>, user: int, key: Key) {
    forall t :: 0 <= t < |txs| && txs[t].req.userId == user && txs[t].req.key == key ==> txs[t].phase.Done?
  }

  /** One step leaves what a spent key names, whatever else it does. */
  lemma NextKeepsSpent(seed: seq<Row>, s: State, step: Step, user: int, key: Key)
    requires Inv(seed, s) && Spent(s.txs, user, key) && !Sends(step, user, key)
    ensures Spent(Next(s, step).txs, user, key)
    ensures var before := ByKey(s.rows, user, key);
            var after := ByKey(Next(s, step).rows, user, key);
            before.Some? == after.Some? && (before.Some? ==> SameOrMoved(before.value, after.value))
  {
    if step.Advance? && Enabled(s, step) {
      assert TxOk(s.rows, s.nextId, s.log, step.t, s.txs[step.t]);
      AdvanceKeepsSpent(s, step.t, user, key);
    } else if step.CancelUpdate? && Cancel(s.rows, step.id).0.CancelOk? {
      CancelKeepsKey(s.rows, FindId(s.rows, step.id).value, user, key);
    }
  }

  lemma AdvanceKeepsSpent(s: State, t: nat, user: int, key: Key)
    requires Enabled(s, Advance(t))
    requires TxOk(s.rows, s.nextId, s.log, t, s.txs[t]) && Spent(s.txs, user, key)
    ensures Spent(DoAdvance(s, t).txs, user, key)
    ensures ByKey(DoAdvance(s, t).rows, user, key) == ByKey(s.rows, user, key)
  {
    var tx := s.txs[t];
    if tx.phase.Inserted? {
      var row := tx.phase.row;
      assert row.userId == tx.req.userId && row.key == Some(tx.req.key);
      assert (s.rows + [row])[..|s.rows|] == s.rows;
    }
  }

  /** Once no call under a key is in flight and none is sent again, what a look-up finds is final:
      nothing then is nothing ever, and an order then is that order ever after. */
  lemma {:induction false} LookupIsFinal(s: State, steps: seq<Step>, more: seq<Step>, user: int, key: Key)
    requires Seed(s) && Spent(Run(s, steps).txs, user, key)
    requires forall i :: 0 <= i < |more| ==> !Sends(more[i], user, key)
    ensures Spent(Run(s, steps + more).txs, user, key)
    ensures var before := ByKey(Run(s, steps).rows, user, key);
            var after := ByKey(Run(s, steps + more).rows, user, key);
            before.Some? == after.Some? && (before.Some? ==> SameOrMoved(before.value, after.value))
  {
    if more == [] {
      assert steps + more == steps;
    } else {
      var n := |more| - 1;
      LookupIsFinal(s, steps, more[..n], user, key);
      Reachable(s, steps + more[..n]);
      assert (steps + more)[..|steps + more| - 1] == steps + more[..n];
      NextKeepsSpent(s.rows, Run(s, steps + more[..n]), more[n], user, key);
    }
  }

  /** A look-up made sooner is not: while a call under the key has written its row and not
      committed, the look-up finds nothing, and one more step lands the order. */
  lemma EarlyLookupIsNotFinal(s: State, steps: seq<Step>, t: nat)
    requires Seed(s)
    requires var txs := Run(s, steps).txs; t < |txs| && txs[t].phase.Inserted?
    ensures var s' := Run(s, steps);
            var s'' := Run(s, steps + [Advance(t)]);
            var req := s'.txs[t].req;
            && ByKey(s'.rows, req.userId, req.key).None?
            && ByKey(s''.rows, req.userId, req.key) == Some(s'.txs[t].phase.row)
  {
    var s' := Run(s, steps);
    Reachable(s, steps);
    assert TxOk(s'.rows, s'.nextId, s'.log, t, s'.txs[t]);
    RunPush(s, steps, Advance(t));
    var row := s'.txs[t].phase.row;
    assert (s'.rows + [row])[|s'.rows|] == row;
  }
}
