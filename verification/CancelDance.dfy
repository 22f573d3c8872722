/** The cancels of a load run against the target it runs on: no order is cancelled twice. */
module CancelDance {
  import opened Placement
  import opened Protocol
  import opened LogicalOrder
  import opened Checkers
  import opened LoadRun

  /** The answer `p` was read off call `t` of the target. */
  predicate ReadOff(txs: seq<Tx>, t: nat, p: PlacedResponse) {
    && t < |txs| && txs[t].phase.Done? && Answered(txs[t].phase.answer)
    && p.orderId == txs[t].phase.answer.row.id
  }

  /** Each request of the run went out under a key of its own. */
  predicate FreshKeys(txs: seq<Tx>, calls: seq<nat>) {
    forall i, j :: 0 <= i < j < |calls| && calls[i] < |txs| && calls[j] < |txs| ==>
      txs[calls[i]].req.userId != txs[calls[j]].req.userId || txs[calls[i]].req.key != txs[calls[j]].req.key
  }

  /** A run whose answers were read off the target, one fresh key for each request: whatever the
      target interleaved, it cancels no order twice, and none that it holds as resting. */
  lemma RunCancelsNoneTwice(s: State, steps: seq<Step>, calls: seq<nat>, taken: seq<int>, resting: seq<int>,
                            placements: seq<PlacedResponse>, tickets: set<nat>, cancelled: seq<int>, source: seq<nat>)
    requires Seed(s) && |calls| == |placements| && FreshKeys(Run(s, steps).txs, calls)
    requires forall i :: 0 <= i < |placements| ==> ReadOff(Run(s, steps).txs, calls[i], placements[i])
    requires Danced(taken, resting, placements) && CancelledAt(taken, tickets, cancelled, source)
    ensures forall i, j :: 0 <= i < j < |cancelled| ==> cancelled[i] != cancelled[j]
    ensures forall i, j :: 0 <= i < |cancelled| && 0 <= j < |resting| ==> cancelled[i] != resting[j]
  {
    forall i, j | 0 <= i < j < |placements| ensures placements[i].orderId != placements[j].orderId {
      assert ReadOff(Run(s, steps).txs, calls[i], placements[i]) && ReadOff(Run(s, steps).txs, calls[j], placements[j]);
      OneKeyPerOrder(s, steps, calls[i], calls[j]);
    }
    NoneCancelledTwice(taken, resting, placements, tickets, cancelled, source);
  }
}
