/** What the back office says of a lost order, held against the target's whole run. */
module LostOrders {
  import opened Options
  import opened Ledger
  import opened Placement
  import opened Protocol
  import opened Serializability
  import opened LogicalOrder
  import opened Backoffice

  function AsDbRows(rows: seq<Row>): seq<DbRow> {
    seq(|rows|, i requires 0 <= i < |rows| => DbRow(rows[i].id, rows[i].status))
  }

  function VerdictAfter(s: State, steps: seq<Step>, user: int, key: Key, acknowledged: set<int>): Verdict {
    VerdictOn(AsDbRows(MatchByKey(Run(s, steps).rows, user, key)), acknowledged)
  }

  lemma VerdictOnOne(rows: seq<Row>, acknowledged: set<int>)
    requires |rows| <= 1
    ensures var verdict := VerdictOn(AsDbRows(rows), acknowledged);
            && (verdict == NeverProcessed <==> rows == [])
            && (verdict == Recovered <==> |rows| == 1 && rows[0].id in acknowledged)
            && (verdict == Unacknowledged <==> |rows| == 1 && rows[0].id !in acknowledged)
  {
    if |rows| == 1 {
      assert AsDbRows(rows)[0].id == rows[0].id;
    }
  }

  lemma FoundStays(s: State, steps: seq<Step>, more: seq<Step>, user: int, key: Key)
    requires Seed(s) && Spent(Run(s, steps).txs, user, key)
    requires forall i :: 0 <= i < |more| ==> !Sends(more[i], user, key)
    ensures var found := MatchByKey(Run(s, steps).rows, user, key);
            var later := MatchByKey(Run(s, steps + more).rows, user, key);
            |found| == |later| <= 1 && (later != [] ==> SameOrMoved(found[0], later[0]))
  {
    LookupIsFinal(s, steps, more, user, key);
    TableWellFormed(s, steps);
    TableWellFormed(s, steps + more);
    MatchIsByKey(Run(s, steps).rows, user, key);
    MatchIsByKey(Run(s, steps + more).rows, user, key);
  }

  /** With no call under the key in flight and none sent again, the verdict is the last word: an
      order called never processed is in no table the target goes on to, and an order found is the
      order the key names from then on. */
  lemma VerdictIsFinal(s: State, steps: seq<Step>, more: seq<Step>, user: int, key: Key, acknowledged: set<int>)
    requires Seed(s) && Spent(Run(s, steps).txs, user, key)
    requires forall i :: 0 <= i < |more| ==> !Sends(more[i], user, key)
    ensures var verdict := VerdictAfter(s, steps, user, key, acknowledged);
            var later := MatchByKey(Run(s, steps + more).rows, user, key);
            && (verdict == NeverProcessed <==> later == [])
            && (verdict == Recovered <==> |later| == 1 && later[0].id in acknowledged)
            && (verdict == Unacknowledged <==> |later| == 1 && later[0].id !in acknowledged)
  {
    FoundStays(s, steps, more, user, key);
    VerdictOnOne(MatchByKey(Run(s, steps).rows, user, key), acknowledged);
  }

  /** An order called never processed was named in no answer, to anybody. */
  lemma NeverProcessedWasNeverAnswered(s: State, steps: seq<Step>, user: int, key: Key, acknowledged: set<int>, t: nat)
    requires Seed(s) && VerdictAfter(s, steps, user, key, acknowledged) == NeverProcessed
    requires var txs := Run(s, steps).txs; t < |txs| && txs[t].req.userId == user && txs[t].req.key == key
    ensures var phase := Run(s, steps).txs[t].phase; phase.Done? ==> !Answered(phase.answer)
  {
    var phase := Run(s, steps).txs[t].phase;
    AtMostOneRow(s, steps, user, key);
    VerdictOnOne(MatchByKey(Run(s, steps).rows, user, key), acknowledged);
    if phase.Done? && Answered(phase.answer) {
      AnsweredOrderIsFound(s, steps, t);
      assert false;
    }
  }

  /** The rule that looks for a second execution has nothing to find, on any candidate, retried or
      not, at any point of any run of the target. */
  lemma DuplicateNeverFires(s: State, steps: seq<Step>, user: int, key: Key, id: nat, retriedBy: Option<nat>,
                            acknowledged: set<int>)
    requires Seed(s)
    ensures var lookup := Matches(AsDbRows(MatchByKey(Run(s, steps).rows, user, key)), retriedBy);
            FindingsOn(id, lookup, acknowledged) == [LostOrder(id, VerdictAfter(s, steps, user, key, acknowledged))]
  {
    AtMostOneRow(s, steps, user, key);
  }
}
