/** The gateway: one key for each logical order, an answer that may be hidden, and one retry. */
module Gateway {
  import opened Options
  import opened Ledger
  import opened Placement
  import opened Protocol
  import opened Serializability
  import opened LogicalOrder
  import opened AttemptsStore

  /** What came back from one call: nothing, or an answer. */
  datatype Reply = Silence | Heard(status: int, orderId: Option<int>)

  /** A request on its way out. `placement` is the user a POST to the orders path is for. */
  datatype Call = Call(at: int, latencyMs: int, placement: Option<int>)

  /** The dice of one send: how long it is held back, whether its answer is hidden, and whether
      it is sent again. */
  datatype Dice = Dice(delayedMs: nat, drops: bool, retries: bool)

  datatype GatewayResult = GatewayResult(attemptId: nat, status: int)

  function StatusOf(reply: Reply): int { if reply.Heard? then reply.status else 0 }

  function OrderOf(reply: Reply): Option<int> { if reply.Heard? then reply.orderId else None }

  /** The note the harness writes into its own history. */
  const NOTE := Attempt(0, 0, 0, 200, None, true, None, None, None, None, UNMARKED)

  function RowOf(call: Call, status: int, key: Option<Key>, orderId: Option<int>, mark: ChaosMark): Attempt {
    Attempt(0, call.at, call.latencyMs, status, call.placement, false, key, None, None, orderId, mark)
  }

  /** The second call of a retry, with the order it names. */
  function RetryRow(second: Call, key: Option<Key>, again: Reply, lost: nat): Attempt {
    RowOf(second, StatusOf(again), key, OrderOf(again), ChaosMark(None, Some(lost), None))
  }

  /** Rows with the ids the recorder hands out from `next` on. */
  function Numbered(rows: seq<Attempt>, next: nat): seq<Attempt> {
    seq(|rows|, i requires 0 <= i < |rows| => rows[i].(id := next + i))
  }

  predicate Hidden(call: Call, dice: Dice, first: Reply) { first.Heard? && call.placement.Some? && dice.drops }

  /** The status the caller is handed. */
  function Told(call: Call, dice: Dice, first: Reply): int {
    if Hidden(call, dice, first) then 0 else StatusOf(first)
  }

  predicate Retried(call: Call, dice: Dice, first: Reply) {
    Told(call, dice, first) == 0 && call.placement.Some? && dice.retries
  }

  /** Everything one send leaves in the recorder, in order, the first row being `lost`. */
  function Trace(call: Call, minted: Key, dice: Dice, first: Reply, second: Call, again: Reply,
                 lost: nat): seq<Attempt>
  {
    var key := if call.placement.Some? then Some(minted) else None;
    var hidden, retried := Hidden(call, dice, first), Retried(call, dice, first);
    var retry := if hidden then lost + 2 else lost + 1;
    var mark := ChaosMark(if hidden then Some(first.status) else None, None, if retried then Some(retry) else None);
    var waited := call.(latencyMs := call.latencyMs + dice.delayedMs);
    Numbered([RowOf(waited, Told(call, dice, first), key, None, mark)]
             + (if hidden then [NOTE] else [])
             + (if retried then [RetryRow(second, key, again, lost), NOTE] else []), lost)
  }

  /** What a trace tells a reader: every call in it went out under the one key, a hidden answer is
      kept on the row it was hidden from, and the two rows of a retry name each other. */
  lemma TraceIsHonest(call: Call, minted: Key, dice: Dice, first: Reply, second: Call, again: Reply, lost: nat)
    requires first.Heard? ==> first.status != 0
    requires second.placement == call.placement
    ensures var rows := Trace(call, minted, dice, first, second, again, lost);
            && rows != [] && rows[0].id == lost
            && (forall i :: 0 <= i < |rows| && !rows[i].note ==>
                  rows[i].key == (if call.placement.Some? then Some(minted) else None))
            && (rows[0].chaos.droppedStatus.Some? <==> first.Heard? && rows[0].status == 0)
            && (rows[0].chaos.droppedStatus.Some? ==> rows[0].chaos.droppedStatus.value == StatusOf(first))
            && (forall i :: 0 <= i < |rows| ==>
                  (rows[i].chaos.retryOf == Some(lost) <==> rows[0].chaos.retriedBy == Some(rows[i].id)))
            && (rows[0].chaos.retriedBy.Some? ==> rows[0].status == 0 && rows[0].key == Some(minted))
            && (forall i :: 1 <= i < |rows| && !rows[i].note ==> rows[0].chaos.retriedBy == Some(rows[i].id))
  {
  }

  /** The rows one send leaves: its own, the note of a hiding, and a retry with its note. */
  function RowsLeft(call: Call, dice: Dice, first: Reply): nat {
    1 + (if Hidden(call, dice, first) then 1 else 0) + (if Retried(call, dice, first) then 2 else 0)
  }

  class GatewayService {
    const attempts: AttemptsStore

    constructor (attempts: AttemptsStore)
      ensures this.attempts == attempts
    {
      this.attempts := attempts;
    }

    /** The retry: recorded with the order it names, and linked from the row it retries if the
        recorder still holds that. */
    method Probe(second: Call, key: Option<Key>, again: Reply, lost: nat, mark: ChaosMark)
      requires attempts.Valid() && 1 <= lost <= |attempts.log|
      modifies attempts
      ensures attempts.Valid()
      ensures var n := |old(attempts.log)|;
              && |attempts.log| == n + 2
              && attempts.log[n] == RetryRow(second, key, again, lost).(id := n + 1)
              && attempts.log[n + 1] == NOTE.(id := n + 2)
              && attempts.log[..n] ==
                 if lost + attempts.capacity > n + 1
                 then old(attempts.log)[lost - 1 :=
                        old(attempts.log)[lost - 1].(chaos := mark.(retriedBy := Some(n + 1)))]
                 else old(attempts.log)
    {
      var retry := attempts.Record(RetryRow(second, key, again, lost));
      attempts.Annotate(lost, Details(None, None, None, Some(mark.(retriedBy := Some(retry)))));
      var note := attempts.Record(NOTE);
    }

    /** The first call: its row, with the answer hidden if it was, and the note of the hiding. */
    method SendFirst(call: Call, key: Option<Key>, dice: Dice, first: Reply)
      returns (lost: nat, status: int, mark: ChaosMark)
      requires attempts.Valid() && (first.Heard? ==> first.status != 0)
      modifies attempts
      ensures attempts.Valid() && lost == |old(attempts.log)| + 1 && status == Told(call, dice, first)
      ensures mark == ChaosMark(if Hidden(call, dice, first) then Some(first.status) else None, None, None)
      ensures attempts.log == old(attempts.log) + Numbered(FirstRows(call, key, dice, first, mark), lost)
    {
      var waited := call.(latencyMs := call.latencyMs + dice.delayedMs);
      status, mark := StatusOf(first), UNMARKED;
      if status != 0 && call.placement.Some? && dice.drops {
        mark := mark.(droppedStatus := Some(status));
        status := 0;
      }
      lost := attempts.Record(RowOf(waited, status, key, None, mark));
      if mark.droppedStatus.Some? {
        var note := attempts.Record(NOTE);
      }
    }

    /** One logical call. A placement carries one key, minted here; its answer may be hidden, and a
        placement without an answer may be sent once more under the same key. Whatever the second
        call came back with, the caller is told of the first. */
    method Send(call: Call, minted: Key, dice: Dice, first: Reply, second: Call, again: Reply)
      returns (result: GatewayResult)
      requires attempts.Valid() && attempts.capacity == ATTEMPTS_CAPACITY
      requires first.Heard? ==> first.status != 0
      modifies attempts
      ensures attempts.Valid()
      ensures result == GatewayResult(|old(attempts.log)| + 1, Told(call, dice, first))
      ensures attempts.log == old(attempts.log) + Trace(call, minted, dice, first, second, again, result.attemptId)
      ensures |attempts.log| == |old(attempts.log)| + RowsLeft(call, dice, first)
    {
      ghost var log := attempts.log;
      var key := if call.placement.Some? then Some(minted) else None;
      var lost, status, mark := SendFirst(call, key, dice, first);
      ghost var before := attempts.log;
      if status == 0 && call.placement.Some? && dice.retries {
        assert |log| < |before| <= |log| + 2;
        Probe(second, key, again, lost, mark);
        RetriedTrace(log, before, attempts.log, call, minted, dice, first, second, again, mark);
      } else {
        UnretriedTrace(call, minted, dice, first, second, again, mark, lost);
      }
      result := GatewayResult(lost, status);
    }
  }

  /** The rows of a send before it is retried. */
  function FirstRows(call: Call, key: Option<Key>, dice: Dice, first: Reply, mark: ChaosMark): seq<Attempt> {
    var waited := call.(latencyMs := call.latencyMs + dice.delayedMs);
    [RowOf(waited, Told(call, dice, first), key, None, mark)] + if Hidden(call, dice, first) then [NOTE] else []
  }

  lemma UnretriedTrace(call: Call, minted: Key, dice: Dice, first: Reply, second: Call, again: Reply, mark: ChaosMark,
                       lost: nat)
    requires !Retried(call, dice, first)
    requires mark == ChaosMark(if Hidden(call, dice, first) then Some(first.status) else None, None, None)
    ensures var key := if call.placement.Some? then Some(minted) else None;
            Trace(call, minted, dice, first, second, again, lost)
              == Numbered(FirstRows(call, key, dice, first, mark), lost)
  {
    var key := if call.placement.Some? then Some(minted) else None;
    assert FirstRows(call, key, dice, first, mark) + [] == FirstRows(call, key, dice, first, mark);
  }

  lemma RetriedTrace(log: seq<Attempt>, before: seq<Attempt>, after: seq<Attempt>, call: Call, minted: Key, dice: Dice,
                     first: Reply, second: Call, again: Reply, mark: ChaosMark)
    requires Retried(call, dice, first)
    requires mark == ChaosMark(if Hidden(call, dice, first) then Some(first.status) else None, None, None)
    requires before == log + Numbered(FirstRows(call, Some(minted), dice, first, mark), |log| + 1)
    requires var n := |before|;
             && |after| == n + 2
             && after[n] == RetryRow(second, Some(minted), again, |log| + 1).(id := n + 1)
             && after[n + 1] == NOTE.(id := n + 2)
             && after[..n] == before[|log| := before[|log|].(chaos := mark.(retriedBy := Some(n + 1)))]
    ensures after == log + Trace(call, minted, dice, first, second, again, |log| + 1)
  {
    var n := |before|;
    var trace := Trace(call, minted, dice, first, second, again, |log| + 1);
    assert forall i :: 0 <= i < n ==> after[i] == after[..n][i];
    assert |after| == |log| + |trace|;
    forall i | 0 <= i < |after| ensures after[i] == (log + trace)[i] {
    }
  }

  /* ---- Composed with the target ---- */

  function HttpStatus(answer: Answer): int {
    match answer
    case Created(_) => 201
    case Replayed(_) => 200
    case UserNotFound => 404
    case InstrumentNotFound => 404
    case NotTradable => 400
    case NoMarketData => 400
    case BadSize => 400
    case DuplicateKey => 500
    case Shed => 503
  }

  function OrderIdOf(answer: Answer): Option<int> { if Answered(answer) then Some(answer.row.id) else None }

  /** A reply that was heard is what the target answered that call; an answer may go unheard. */
  predicate Replies(reply: Reply, txs: seq<Tx>, t: nat) {
    reply.Heard? ==> t < |txs| && txs[t].phase.Done?
                     && reply == Heard(HttpStatus(txs[t].phase.answer), OrderIdOf(txs[t].phase.answer))
  }

  /** Whatever was hidden, timed out or came late: both calls of one logical order, where they were
      answered with an order, were answered with the same one, only one of them with a 201; and it
      is the only row the look-up by key finds. */
  lemma OneLogicalOrder(s: State, steps: seq<Step>, t: nat, t': nat, first: Reply, again: Reply)
    requires Seed(s)
    requires var txs := Run(s, steps).txs;
             && t < |txs| && t' < |txs| && t != t'
             && txs[t].req.userId == txs[t'].req.userId && txs[t].req.key == txs[t'].req.key
             && Replies(first, txs, t) && Replies(again, txs, t')
    ensures var s' := Run(s, steps);
            var found := MatchByKey(s'.rows, s'.txs[t].req.userId, s'.txs[t].req.key);
            && |found| <= 1
            && (OrderOf(first).Some? ==> |found| == 1 && OrderOf(first) == Some(found[0].id))
            && (OrderOf(again).Some? ==> |found| == 1 && OrderOf(again) == Some(found[0].id))
            && !(StatusOf(first) == 201 && StatusOf(again) == 201)
  {
    var s' := Run(s, steps);
    AtMostOneRow(s, steps, s'.txs[t].req.userId, s'.txs[t].req.key);
    if OrderOf(first).Some? {
      AnsweredOrderIsFound(s, steps, t);
    }
    if OrderOf(again).Some? {
      AnsweredOrderIsFound(s, steps, t');
    }
    if OrderOf(first).Some? && OrderOf(again).Some? {
      TwoCallsOneOrder(s, steps, t, t');
    }
  }
}
