/** What the interleaved protocol promises its callers: the run is equivalent to its calls
    run one at a time, and a key names at most one order for ever. */
module Serializability {
  import opened Options
  import opened Ledger
  import opened Placement
  import opened Protocol
  import opened ProtocolInvariant
  import opened QuoteSources

  /** Every interleaving, for all users at once, leaves the table and gives the answers of its
      calls run whole and one at a time in the order of the history, each placement with the user
      and the quote it was shown between its start and its end. The one exception is a 409 that
      names NEW, which no serial order explains. */
  lemma Serializable(s: State, steps: seq<Step>)
    requires Seed(s)
    ensures var s' := Run(s, steps);
            && Replay(s.rows, s'.log) == s'.rows
            && (forall k :: 0 <= k < |s'.log| ==>
                  (Faithful(Replay(s.rows, s'.log[..k]), s'.log[k]) <==> !StaleConflict(s'.log[k])))
            && (forall t :: 0 <= t < |s'.txs| && s'.txs[t].phase.Done? && s'.txs[t].phase.answer != Shed ==>
                  Logged(s'.log, t, s'.txs[t].req, s'.txs[t].phase.answer))
            && (forall c :: 0 <= c < |s'.cancels| && s'.cancels[c].CancelDone? ==>
                  CancelEvent(s'.cancels[c].id, s'.cancels[c].seen, s'.cancels[c].answer) in s'.log)
            && (forall k :: 0 <= k < |s'.log| ==> EventSourced(s, steps, s'.log[k]))
  {
    Reachable(s, steps);
    RunIsSourced(s, steps);
    var s' := Run(s, steps);
    forall t | 0 <= t < |s'.txs| && s'.txs[t].phase.Done? && s'.txs[t].phase.answer != Shed
      ensures Logged(s'.log, t, s'.txs[t].req, s'.txs[t].phase.answer)
    {
      assert TxOk(s'.rows, s'.nextId, s'.log, t, s'.txs[t]);
    }
  }

  /** In every reachable table keys and ids are unique and a user's ids grow in commit order;
      the unique index has never fired. */
  lemma TableWellFormed(s: State, steps: seq<Step>)
    requires Seed(s)
    ensures var s' := Run(s, steps);
            && KeysUnique(s'.rows) && IdsUnique(s'.rows) && UserIdsIncrease(s'.rows)
            && (forall t :: 0 <= t < |s'.txs| ==> !IndexFired(s'.txs[t].phase))
  {
    Reachable(s, steps);
    var s' := Run(s, steps);
    forall t | 0 <= t < |s'.txs| ensures !IndexFired(s'.txs[t].phase) {
      IndexNeverFires(s.rows, s'.rows, s'.nextId, s'.log, t, s'.txs[t]);
    }
  }

  predicate IndexFired(phase: Phase) {
    phase == Done(DuplicateKey) || (phase.Refused? && phase.answer == DuplicateKey)
  }

  lemma IndexNeverFires(seed: seq<Row>, rows: seq<Row>, nextId: int, log: seq<Event>, t: nat, tx: Tx)
    requires TxOk(rows, nextId, log, t, tx) && Serial(seed, log)
    ensures !IndexFired(tx.phase)
  {
    forall k | 0 <= k < |log| && log[k].PlaceEvent? ensures log[k].answer != DuplicateKey {
      assert StaleConflict(log[k]) || Faithful(Replay(seed, log[..k]), log[k]);
    }
  }

  /** The lock excludes: two transactions of one user are never both past it. */
  lemma OneHolderPerUser(s: State, steps: seq<Step>, t: nat, t': nat)
    requires Seed(s)
    requires var s' := Run(s, steps);
             && t < |s'.txs| && t' < |s'.txs| && s'.txs[t].req.userId == s'.txs[t'].req.userId
             && InSection(s'.txs[t].phase) && InSection(s'.txs[t'].phase)
    ensures t == t'
  {
    Reachable(s, steps);
  }

  lemma RunPush(s: State, steps: seq<Step>, step: Step)
    ensures Run(s, steps + [step]) == Next(Run(s, steps), step)
  {
    assert (steps + [step])[..|steps|] == steps;
  }

  /* ---- Keys ---- */

  /** Once a key names an order it names that order for ever. */
  lemma {:induction false} KeyKeepsItsOrder(seed: seq<Row>, log: seq<Event>, k: nat, user: int, key: Key)
    requires Serial(seed, log) && k <= |log|
    ensures var before := ByKey(Replay(seed, log[..k]), user, key);
            var after := ByKey(Replay(seed, log), user, key);
            before.Some? ==> after.Some? && SameOrMoved(before.value, after.value)
  {
    if k == |log| {
      assert log[..k] == log;
    } else {
      var n := |log| - 1;
      SerialPrefix(seed, log, n);
      assert log[..n][..k] == log[..k];
      KeyKeepsItsOrder(seed, log[..n], k, user, key);
      EffectOnKey(Replay(seed, log[..n]), log[n], user, key);
    }
  }

  /** What one call does to what a key names. */
  lemma EffectOnKey(rows: seq<Row>, e: Event, user: int, key: Key)
    requires StaleConflict(e) || Faithful(rows, e)
    ensures var before := ByKey(rows, user, key);
            var after := ByKey(Effect(rows, e), user, key);
            && (before.Some? ==> after.Some? && SameOrMoved(before.value, after.value))
            && (after.Some? <==> before.Some? || (Under(e, user, key) && e.answer.Created?))
  {
    if e.PlaceEvent? && e.answer.Created? {
      assert (rows + [e.answer.row])[..|rows|] == rows;
    } else if e.CancelEvent? && !StaleConflict(e) && Cancel(rows, e.id).0.CancelOk? {
      CancelKeepsKey(rows, FindId(rows, e.id).value, user, key);
    }
  }

  lemma SerialPrefix(seed: seq<Row>, log: seq<Event>, n: nat)
    requires Serial(seed, log) && n <= |log|
    ensures Serial(seed, log[..n])
  {
    forall k | 0 <= k < n ensures StaleConflict(log[..n][k]) || Faithful(Replay(seed, log[..n][..k]), log[..n][k]) {
      assert log[..n][..k] == log[..k];
    }
  }

  predicate Under(e: Event, user: int, key: Key) {
    e.PlaceEvent? && e.req.userId == user && e.req.key == key
  }

  /** Once an answer names an order, the key does. */
  lemma AnsweredIsNamed(seed: seq<Row>, log: seq<Event>, k: nat)
    requires Serial(seed, log) && k < |log| && log[k].PlaceEvent? && Answered(log[k].answer)
    ensures ByKey(Replay(seed, log[..k + 1]), log[k].req.userId, log[k].req.key) == Some(log[k].answer.row)
  {
    var rows := Replay(seed, log[..k]);
    assert Faithful(rows, log[k]);
    assert log[..k + 1][..k] == log[..k];
    var after := Replay(seed, log[..k + 1]);
    assert after == Effect(rows, log[k]);
    if log[k].answer.Created? {
      assert after[|after| - 1] == log[k].answer.row;
    }
  }

  /** Any call under a taken key is told of the order it names. */
  lemma TakenKeyReplays(rows: seq<Row>, e: Event, user: int, key: Key)
    requires Faithful(rows, e) && Under(e, user, key) && ByKey(rows, user, key).Some?
    ensures e.answer == Replayed(ByKey(rows, user, key).value)
  {
  }

  /** At most one 201 for each user and key; every later answer under it is a replay of that
      order, unchanged but for a cancel. */
  lemma OneOrderPerKey(seed: seq<Row>, log: seq<Event>, i: nat, j: nat, user: int, key: Key)
    requires Serial(seed, log) && i < j < |log|
    requires Under(log[i], user, key) && Under(log[j], user, key) && Answered(log[i].answer)
    ensures log[j].answer.Replayed? && SameOrMoved(log[i].answer.row, log[j].answer.row)
  {
    AnsweredIsNamed(seed, log, i);
    SerialPrefix(seed, log, j);
    assert log[..j][..i + 1] == log[..i + 1];
    KeyKeepsItsOrder(seed, log[..j], i + 1, user, key);
    TakenKeyReplays(Replay(seed, log[..j]), log[j], user, key);
  }

  /** A key is taken only by the seed or by a 201: a refusal or an abort leaves it free. */
  lemma {:induction false} KeyTakenIffCreated(seed: seq<Row>, log: seq<Event>, user: int, key: Key)
    requires Serial(seed, log)
    ensures ByKey(Replay(seed, log), user, key).Some? <==>
            || ByKey(seed, user, key).Some?
            || CreatedUnder(log, user, key)
  {
    if log != [] {
      var n := |log| - 1;
      SerialPrefix(seed, log, n);
      KeyTakenIffCreated(seed, log[..n], user, key);
      EffectOnKey(Replay(seed, log[..n]), log[n], user, key);
      CreatedUnderLast(log, user, key);
    }
  }

  predicate CreatedUnder(log: seq<Event>, user: int, key: Key) {
    exists k :: 0 <= k < |log| && Under(log[k], user, key) && log[k].answer.Created?
  }

  lemma CreatedUnderLast(log: seq<Event>, user: int, key: Key)
    requires log != []
    ensures var n := |log| - 1;
            CreatedUnder(log, user, key) <==>
            CreatedUnder(log[..n], user, key) || (Under(log[n], user, key) && log[n].answer.Created?)
  {
    var n := |log| - 1;
    if CreatedUnder(log[..n], user, key) {
      var k :| 0 <= k < n && Under(log[..n][k], user, key) && log[..n][k].answer.Created?;
      assert log[k] == log[..n][k];
    }
    if k :| 0 <= k < n && Under(log[k], user, key) && log[k].answer.Created? {
      assert log[..n][k] == log[k];
    }
  }

  /* ---- The caller's view ---- */

  lemma {:induction false} RunExtends(s: State, seed: seq<Row>, steps: seq<Step>)
    requires Inv(seed, s)
    ensures Inv(seed, Run(s, steps)) && s.log <= Run(s, steps).log
    ensures |s.txs| <= |Run(s, steps).txs|
    ensures forall t :: 0 <= t < |s.txs| && s.txs[t].phase.Done? ==> Run(s, steps).txs[t] == s.txs[t]
  {
    if steps != [] {
      var before := Run(s, steps[..|steps| - 1]);
      RunExtends(s, seed, steps[..|steps| - 1]);
      NextKeepsInv(seed, before, steps[|steps| - 1]);
      NextExtends(before, steps[|steps| - 1]);
    }
  }

  lemma NextExtends(s: State, step: Step)
    ensures |s.txs| <= |Next(s, step).txs|
    ensures forall t :: 0 <= t < |s.txs| && s.txs[t].phase.Done? ==> Next(s, step).txs[t] == s.txs[t]
  {
  }

  lemma {:induction false} RunConcat(s: State, steps: seq<Step>, more: seq<Step>)
    ensures Run(s, steps + more) == Run(Run(s, steps), more)
  {
    if more == [] {
      assert steps + more == steps;
    } else {
      RunConcat(s, steps, more[..|more| - 1]);
      assert (steps + more)[..|steps + more| - 1] == steps + more[..|more| - 1];
    }
  }

  /** A client that was answered and sends the order again under the same key is told of that
      same order, or that it was shed: never of another, and never of a new one. */
  lemma RetryNamesSameOrder(s: State, steps: seq<Step>, more: seq<Step>, t: nat, t': nat)
    requires Seed(s)
    requires var s1 := Run(s, steps);
             var s2 := Run(s, steps + more);
             && t < |s1.txs| <= t' < |s2.txs|
             && s1.txs[t].phase.Done? && Answered(s1.txs[t].phase.answer)
             && s2.txs[t'].phase.Done?
             && s2.txs[t'].req.userId == s1.txs[t].req.userId && s2.txs[t'].req.key == s1.txs[t].req.key
    ensures var first := Run(s, steps).txs[t].phase.answer;
            var retry := Run(s, steps + more).txs[t'].phase.answer;
            retry == Shed || (retry.Replayed? && SameOrMoved(first.row, retry.row))
  {
    var s1 := Run(s, steps);
    var s2 := Run(s, steps + more);
    RunConcat(s, steps, more);
    Reachable(s, steps);
    RunExtends(s1, s.rows, more);
    assert TxOk(s1.rows, s1.nextId, s1.log, t, s1.txs[t]);
    assert TxOk(s2.rows, s2.nextId, s2.log, t', s2.txs[t']);
    if s2.txs[t'].phase.answer != Shed {
      RetryAfterAnswer(s.rows, s1.log, s2.log, s1.txs, t, t', s1.txs[t].req, s2.txs[t'].req,
                       s1.txs[t].phase.answer, s2.txs[t'].phase.answer);
    }
  }

  lemma RetryAfterAnswer(seed: seq<Row>, log1: seq<Event>, log2: seq<Event>, txs1: seq<Tx>, t: nat, t': nat,
                         req: Request, req': Request, first: Answer, retry: Answer)
    requires Serial(seed, log2) && log1 <= log2 && CreatedTold(log1, txs1) && |txs1| <= t'
    requires Logged(log1, t, req, first) && Logged(log2, t', req', retry)
    requires req.userId == req'.userId && req.key == req'.key && Answered(first)
    ensures retry.Replayed? && SameOrMoved(first.row, retry.row)
  {
    var i := WhereLogged(log1, t, req, first);
    var j := WhereLogged(log2, t', req', retry);
    assert forall k :: 0 <= k < |log1| ==> log2[k] == log1[k];
    OneOrderPerKey(seed, log2, i, j, req.userId, req.key);
  }

  /** Two calls for one logical order, in any interleaving: at most one of them is a 201, and
      when both were answered they name the same order. */
  lemma TwoCallsOneOrder(s: State, steps: seq<Step>, t: nat, t': nat)
    requires Seed(s)
    requires var txs := Run(s, steps).txs;
             && t < |txs| && t' < |txs| && t != t'
             && txs[t].phase.Done? && txs[t'].phase.Done?
             && Answered(txs[t].phase.answer) && Answered(txs[t'].phase.answer)
             && txs[t].req.userId == txs[t'].req.userId && txs[t].req.key == txs[t'].req.key
    ensures var a := Run(s, steps).txs[t].phase.answer;
            var b := Run(s, steps).txs[t'].phase.answer;
            && !(a.Created? && b.Created?)
            && (SameOrMoved(a.row, b.row) || SameOrMoved(b.row, a.row))
  {
    Reachable(s, steps);
    var s' := Run(s, steps);
    assert TxOk(s'.rows, s'.nextId, s'.log, t, s'.txs[t]) && TxOk(s'.rows, s'.nextId, s'.log, t', s'.txs[t']);
    LoggedTwice(s.rows, s'.log, t, t', s'.txs[t].req, s'.txs[t'].req, s'.txs[t].phase.answer, s'.txs[t'].phase.answer);
  }

  lemma LoggedTwice(seed: seq<Row>, log: seq<Event>, t: nat, t': nat, req: Request, req': Request, a: Answer, b: Answer)
    requires Serial(seed, log) && t != t' && Logged(log, t, req, a) && Logged(log, t', req', b)
    requires req.userId == req'.userId && req.key == req'.key && Answered(a) && Answered(b)
    ensures !(a.Created? && b.Created?) && (SameOrMoved(a.row, b.row) || SameOrMoved(b.row, a.row))
  {
    var i := WhereLogged(log, t, req, a);
    var j := WhereLogged(log, t', req', b);
    if i < j {
      OneOrderPerKey(seed, log, i, j, req.userId, req.key);
    } else {
      OneOrderPerKey(seed, log, j, i, req.userId, req.key);
    }
  }

  lemma WhereLogged(log: seq<Event>, t: nat, req: Request, a: Answer) returns (k: nat)
    requires Logged(log, t, req, a)
    ensures k < |log| && log[k].PlaceEvent? && log[k].t == t && log[k].req == req && log[k].answer == a
  {
    k :| 0 <= k < |log| && log[k].PlaceEvent? && log[k].t == t && log[k].req == req && log[k].answer == a;
  }
}
