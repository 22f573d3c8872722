/** Every ledger the protocol can reach passes the load engine's checks. */
module CheckersPass {
  import opened OrderRules
  import opened Ledger
  import opened Placement
  import opened Protocol
  import opened ProtocolInvariant
  import opened Serializability
  import opened LedgerSafety
  import opened Money
  import opened Checkers
  import opened ShadowWorld
  import opened ShadowStrays
  import opened JointRuns

  /** What the ledger query returns: these users' rows, in id order. */
  predicate LedgerOf(ledger: seq<Row>, rows: seq<Row>, users: set<int>) {
    && SortedById(ledger)
    && (forall row :: row in ledger ==> row in rows && row.userId in users)
    && (forall row :: row in rows && row.userId in users ==> row in ledger)
  }

  /* ---- Commit order and id order are one order for each user ---- */

  lemma {:induction false} OfUserSorted(rows: seq<Row>, user: int)
    requires UserIdsIncrease(rows)
    ensures SortedById(OfUser(rows, user))
  {
    if rows != [] {
      var n := |rows| - 1;
      OfUserSorted(rows[..n], user);
      OwnedByUser(rows[..n], user);
      var own := OfUser(rows[..n], user);
      forall i | 0 <= i < |own| && rows[n].userId == user ensures own[i].id < rows[n].id {
        assert own[i] in own;
      }
    }
  }

  lemma {:induction false} OfUserMembers(rows: seq<Row>, user: int, row: Row)
    ensures row in OfUser(rows, user) <==> row in rows && row.userId == user
  {
    if rows != [] {
      OfUserMembers(rows[..|rows| - 1], user, row);
      assert rows == rows[..|rows| - 1] + [rows[|rows| - 1]];
    }
  }

  /** Two id-sorted tables with the same rows are the same table. */
  lemma {:induction false} SortedSameRows(a: seq<Row>, b: seq<Row>)
    requires SortedById(a) && SortedById(b)
    requires forall row :: row in a <==> row in b
    ensures a == b
  {
    EmptyTogether(a, b);
    EmptyTogether(b, a);
    if a != [] {
      var m, n := |a| - 1, |b| - 1;
      assert a[m] in b && b[n] in a;
      var i :| 0 <= i < |b| && b[i] == a[m];
      var j :| 0 <= j < |a| && a[j] == b[n];
      assert a[m] == b[n];
      forall row ensures row in a[..m] <==> row in b[..n] {
        SortedTail(a, row);
        SortedTail(b, row);
      }
      SortedSameRows(a[..m], b[..n]);
    }
  }

  lemma EmptyTogether(a: seq<Row>, b: seq<Row>)
    requires forall row :: row in a ==> row in b
    ensures b == [] ==> a == []
  {
    if a != [] {
      assert a[0] in a;
    }
  }

  lemma SortedTail(a: seq<Row>, row: Row)
    requires SortedById(a) && a != []
    ensures row in a[..|a| - 1] <==> row in a && row != a[|a| - 1]
  {
  }

  /** The ledger and the table hold each user's rows in the same order. */
  lemma SameOrderPerUser(ledger: seq<Row>, rows: seq<Row>, users: set<int>, user: int)
    requires LedgerOf(ledger, rows, users) && UserIdsIncrease(rows) && user in users
    ensures OfUser(ledger, user) == OfUser(rows, user)
    ensures SortedById(OfUser(rows, user))
  {
    OfUserSorted(ledger, user);
    OfUserSorted(rows, user);
    forall row ensures row in OfUser(ledger, user) <==> row in OfUser(rows, user) {
      OfUserMembers(ledger, user, row);
      OfUserMembers(rows, user, row);
    }
    SortedSameRows(OfUser(ledger, user), OfUser(rows, user));
  }

  /* ---- no_overdraft ---- */

  lemma SolventInIdOrder(ledger: seq<Row>, rows: seq<Row>, user: int)
    requires OfUser(ledger, user) == OfUser(rows, user) && Solvent(rows, user)
    ensures Solvent(ledger, user)
  {
    forall n | 0 <= n <= |ledger| ensures CashFold(ledger[..n], user) >= 0 {
      FoldOfPrefix(ledger, user, n);
      var m := OfUserReaches(rows, user, |OfUser(ledger[..n], user)|);
      OfUserFolds(rows[..m], user, 0);
    }
  }

  /** From a seed that never dips, no_overdraft passes on every reachable ledger: the verdict
      the check's own contract gives is empty for every user. */
  lemma NoOverdraftPasses(s: State, steps: seq<Step>, users: set<int>, ledger: seq<Row>, user: int)
    requires Seed(s) && (forall u :: u in users ==> Solvent(s.rows, u))
    requires LedgerOf(ledger, Run(s, steps).rows, users)
    ensures Solvent(ledger, user)
  {
    if user in users {
      TableWellFormed(s, steps);
      ReachableIsSafe(s, steps, user);
      SameOrderPerUser(ledger, Run(s, steps).rows, users, user);
      SolventInIdOrder(ledger, Run(s, steps).rows, user);
    } else {
      forall i | 0 <= i < |ledger| ensures ledger[i].userId != user {
        assert ledger[i] in ledger;
      }
      StrangerIsSolvent(ledger, user);
    }
  }

  /* ---- no_oversell ---- */

  /** A row sits at the same point of its user's history in both orders. */
  lemma SamePoint(ledger: seq<Row>, rows: seq<Row>, user: int, q: nat, j: nat, instrument: int)
    requires OfUser(ledger, user) == OfUser(rows, user) && SortedById(OfUser(rows, user))
    requires q < |ledger| && j < |rows| && ledger[q] == rows[j] && rows[j].userId == user
    ensures SharesFold(ledger[..q], user, instrument) == SharesFold(rows[..j], user, instrument)
    ensures SharesFold(ledger[..q + 1], user, instrument) == SharesFold(rows[..j + 1], user, instrument)
  {
    var own := OfUser(rows, user);
    OfUserPrefix(ledger, q + 1, user);
    OfUserPrefix(rows, j + 1, user);
    assert ledger[..q + 1][..q] == ledger[..q] && rows[..j + 1][..j] == rows[..j];
    var a, b := OfUser(ledger[..q], user), OfUser(rows[..j], user);
    assert OfUser(ledger[..q + 1], user) == a + [rows[j]] && OfUser(rows[..j + 1], user) == b + [rows[j]];
    assert own[|a|] == rows[j] && own[|b|] == rows[j];
    assert |a| == |b|;
    assert a == own[..|a|] && b == own[..|b|];
    OfUserFolds(ledger[..q], user, instrument);
    OfUserFolds(rows[..j], user, instrument);
    OfUserFolds(ledger[..q + 1], user, instrument);
    OfUserFolds(rows[..j + 1], user, instrument);
  }

  /** Rows past the mark never take a position under the lower of zero and what the mark left. */
  lemma {:induction false} PastTheMark(ledger: seq<Row>, rows: seq<Row>, from: nat, mark: int, p: nat, n: nat,
                                       user: int, instrument: int)
    requires OfUser(ledger, user) == OfUser(rows, user) && SortedById(OfUser(rows, user))
    requires Covered(rows, from) && from <= |rows| && (forall i :: 0 <= i < from ==> rows[i].id <= mark)
    requires forall row :: row in ledger ==> row in rows
    requires p <= n <= |ledger| && forall q :: p <= q < n ==> ledger[q].id > mark
    ensures SharesFold(ledger[..n], user, instrument) >= Min(0, SharesFold(ledger[..p], user, instrument))
  {
    if p < n {
      PastTheMark(ledger, rows, from, mark, p, n - 1, user, instrument);
      var row := ledger[n - 1];
      assert ledger[..n][..n - 1] == ledger[..n - 1];
      if row.userId == user {
        assert row in ledger && row in rows;
        var j :| 0 <= j < |rows| && rows[j] == row;
        SamePoint(ledger, rows, user, n - 1, j, instrument);
        assert SharesFold(rows[..j + 1], rows[j].userId, instrument)
            >= Min(0, SharesFold(rows[..j], rows[j].userId, instrument));
      }
    }
  }

  /** Where the run of rows past the mark that holds row `n` begins. */
  lemma {:induction false} MarkBefore(ledger: seq<Row>, mark: int, n: nat) returns (p: nat)
    requires n < |ledger| && ledger[n].id > mark
    ensures p <= n && (p == 0 || ledger[p - 1].id <= mark) && forall q :: p <= q <= n ==> ledger[q].id > mark
  {
    if n == 0 || ledger[n - 1].id <= mark {
      p := n;
    } else {
      p := MarkBefore(ledger, mark, n - 1);
    }
  }

  lemma NoRowSinks(ledger: seq<Row>, rows: seq<Row>, users: set<int>, from: nat, mark: int, n: nat)
    requires LedgerOf(ledger, rows, users) && UserIdsIncrease(rows)
    requires Covered(rows, from) && from <= |rows| && (forall i :: 0 <= i < from ==> rows[i].id <= mark)
    requires n < |ledger|
    ensures !Sinks(ledger, n, mark)
  {
    var user, instrument := ledger[n].userId, ledger[n].instrumentId;
    assert ledger[n] in ledger;
    SameOrderPerUser(ledger, rows, users, user);
    if ledger[n].id > mark {
      var p := MarkBefore(ledger, mark, n);
      assert ledger[..n][..p] == ledger[..p];
      FloorIsUnder(ledger[..n], user, instrument, mark, p);
      PastTheMark(ledger, rows, from, mark, p, n + 1, user, instrument);
    }
  }

  /** From any seed, short positions included, and for any high-water mark at or past the seed,
      no_oversell reports nothing on any reachable ledger. */
  lemma NoOversellPasses(s: State, steps: seq<Step>, users: set<int>, ledger: seq<Row>, mark: int)
    requires Seed(s) && LedgerOf(ledger, Run(s, steps).rows, users)
    requires forall i :: 0 <= i < |s.rows| ==> s.rows[i].id <= mark
    ensures Oversells(ledger, mark) == []
  {
    var rows := Run(s, steps).rows;
    TableWellFormed(s, steps);
    ReachableIsSafe(s, steps, 0);
    forall n | 0 <= n < |ledger| ensures !Sinks(ledger, n, mark) {
      NoRowSinks(ledger, rows, users, |s.rows|, mark, n);
    }
    NothingOversoldIff(ledger, mark);
  }

  /* ---- cancel_safety and response_db_agreement ---- */

  predicate CancelledIn(log: seq<Event>, id: int) {
    exists k :: 0 <= k < |log| && log[k].CancelEvent? && log[k].id == id && log[k].cancelled.CancelOk?
  }

  /** A row, from any point of a history on: it stays where it is, and if it changed the history
      holds the cancel that changed it. */
  ghost predicate Followed(rows: seq<Row>, rows': seq<Row>, log: seq<Event>, i: nat) {
    i < |rows| && i < |rows'| && SameOrMoved(rows[i], rows'[i]) && (rows[i] == rows'[i] || CancelledIn(log, rows[i].id))
  }

  lemma EffectFollows(rows: seq<Row>, e: Event, i: nat)
    requires i < |rows|
    ensures i < |Effect(rows, e)| && SameOrMoved(rows[i], Effect(rows, e)[i])
    ensures rows[i] != Effect(rows, e)[i] ==>
              (StaleConflict(e) || Faithful(rows, e)) ==> e.CancelEvent? && e.id == rows[i].id && e.cancelled.CancelOk?
  {
  }

  lemma {:induction false} RowsAreFollowed(seed: seq<Row>, log: seq<Event>, k: nat, i: nat)
    requires Serial(seed, log) && k <= |log| && i < |Replay(seed, log[..k])|
    ensures Followed(Replay(seed, log[..k]), Replay(seed, log), log, i)
  {
    if k == |log| {
      assert log[..k] == log;
    } else {
      var n := |log| - 1;
      SerialPrefix(seed, log, n);
      assert log[..n][..k] == log[..k];
      RowsAreFollowed(seed, log[..n], k, i);
      FollowedOn(Replay(seed, log[..k]), Replay(seed, log[..n]), log, i);
    }
  }

  lemma FollowedOn(rows: seq<Row>, before: seq<Row>, log: seq<Event>, i: nat)
    requires log != [] && Followed(rows, before, log[..|log| - 1], i)
    requires StaleConflict(log[|log| - 1]) || Faithful(before, log[|log| - 1])
    ensures Followed(rows, Effect(before, log[|log| - 1]), log, i)
  {
    CancelledLater(log, rows[i].id);
    EffectFollows(before, log[|log| - 1], i);
  }

  lemma CancelledLater(log: seq<Event>, id: int)
    requires log != []
    ensures CancelledIn(log[..|log| - 1], id) ==> CancelledIn(log, id)
  {
    if CancelledIn(log[..|log| - 1], id) {
      var k :| 0 <= k < |log| - 1 && log[..|log| - 1][k].CancelEvent? && log[..|log| - 1][k].id == id
                && log[..|log| - 1][k].cancelled.CancelOk?;
      assert log[k] == log[..|log| - 1][k];
    }
  }

  /** The order an answer named is in the table, as the answer said or cancelled since. */
  lemma AnsweredRowIsHeld(seed: seq<Row>, log: seq<Event>, k: nat) returns (i: nat)
    requires Serial(seed, log) && k < |log| && log[k].PlaceEvent? && Answered(log[k].answer)
    ensures var rows, row := Replay(seed, log), log[k].answer.row;
            && i < |rows| && rows[i].id == row.id && SameOrMoved(row, rows[i])
            && (row == rows[i] || CancelledIn(log, row.id))
  {
    var before := Replay(seed, log[..k]);
    var row := log[k].answer.row;
    assert Faithful(before, log[k]);
    if log[k].answer.Created? {
      i := |before|;
      assert log[..k + 1][..k] == log[..k];
      assert Replay(seed, log[..k + 1]) == before + [row];
      RowsAreFollowed(seed, log, k + 1, i);
    } else {
      assert row in before;
      i :| 0 <= i < |before| && before[i] == row;
      RowsAreFollowed(seed, log, k, i);
    }
  }

  /** A cancel that succeeded leaves a row that reads CANCELLED for ever. */
  lemma CancelledRowReadsCancelled(seed: seq<Row>, log: seq<Event>, k: nat) returns (i: nat)
    requires Serial(seed, log) && k < |log| && log[k].CancelEvent? && log[k].cancelled.CancelOk?
    ensures i < |Replay(seed, log)| && Replay(seed, log)[i] == log[k].cancelled.row
    ensures log[k].cancelled.row.id == log[k].id && log[k].cancelled.row.status == Cancelled
  {
    var before := Replay(seed, log[..k]);
    assert Faithful(before, log[k]);
    i := FindId(before, log[k].id).value;
    assert log[..k + 1][..k] == log[..k];
    RowsAreFollowed(seed, log, k + 1, i);
  }

  lemma HeldInLedger(ledger: seq<Row>, rows: seq<Row>, users: set<int>, i: nat) returns (n: nat)
    requires LedgerOf(ledger, rows, users) && i < |rows| && rows[i].userId in users
    ensures n < |ledger| && ledger[n] == rows[i]
  {
    assert rows[i] in rows;
    n :| 0 <= n < |ledger| && ledger[n] == rows[i];
  }

  /** Every order a run's cancels were answered for reads CANCELLED in the ledger, so cancel_safety
      reports none of them. */
  lemma CancelSafetyPasses(s: State, steps: seq<Step>, users: set<int>, ledger: seq<Row>, c: nat)
    requires Seed(s) && LedgerOf(ledger, Run(s, steps).rows, users)
    requires var calls := Run(s, steps).cancels;
             c < |calls| && calls[c].CancelDone? && calls[c].answer.CancelOk? && calls[c].answer.row.userId in users
    ensures ReadsCancelled(ledger, Run(s, steps).cancels[c].id)
  {
    Reachable(s, steps);
    var s' := Run(s, steps);
    var e := CancelEvent(s'.cancels[c].id, s'.cancels[c].seen, s'.cancels[c].answer);
    assert e in s'.log;
    var k :| 0 <= k < |s'.log| && s'.log[k] == e;
    var i := CancelledRowReadsCancelled(s.rows, s'.log, k);
    var n := HeldInLedger(ledger, s'.rows, users, i);
  }

  /** Every cancel that took one of these users' orders is in the run's list. */
  predicate CancelsAnswered(log: seq<Event>, users: set<int>, cancelled: set<int>) {
    forall k :: 0 <= k < |log| && log[k].CancelEvent? && log[k].cancelled.CancelOk?
              && log[k].cancelled.row.userId in users
      ==> log[k].id in cancelled
  }

  /** Every answered order agrees with its row, when every cancel that succeeded was answered. */
  lemma ResponsesAgree(s: State, steps: seq<Step>, users: set<int>, ledger: seq<Row>, cancelled: set<int>, t: nat)
    requires Seed(s) && LedgerOf(ledger, Run(s, steps).rows, users)
    requires CancelsAnswered(Run(s, steps).log, users, cancelled)
    requires var txs := Run(s, steps).txs;
             t < |txs| && txs[t].phase.Done? && Answered(txs[t].phase.answer) && txs[t].phase.answer.row.userId in users
    ensures var row := Run(s, steps).txs[t].phase.answer.row;
            HeldAndAgrees(ledger, PlacedResponse(row.id, row.status, row.size, row.price), cancelled)
  {
    Serializable(s, steps);
    var s' := Run(s, steps);
    var a := s'.txs[t].phase.answer;
    assert Logged(s'.log, t, s'.txs[t].req, a);
    var k :| 0 <= k < |s'.log| && s'.log[k].PlaceEvent? && s'.log[k].t == t && s'.log[k].answer == a;
    assert Serial(s.rows, s'.log);
    var i := AnsweredRowIsHeld(s.rows, s'.log, k);
    var n := HeldInLedger(ledger, s'.rows, users, i);
    if a.row != s'.rows[i] {
      var j :| 0 <= j < |s'.log| && s'.log[j].CancelEvent? && s'.log[j].id == a.row.id && s'.log[j].cancelled.CancelOk?;
      var m := CancelledRowReadsCancelled(s.rows, s'.log, j);
      TableWellFormed(s, steps);
      assert m == i;
    }
    assert RowAgrees(ledger[n], PlacedResponse(a.row.id, a.row.status, a.row.size, a.row.price), cancelled);
  }

  /** A row past the seed was created by a call of the history. */
  lemma EffectAppends(rows: seq<Row>, e: Event)
    ensures |Effect(rows, e)| > |rows| ==>
              e.PlaceEvent? && e.answer.Created? && Effect(rows, e) == rows + [e.answer.row]
  {
  }

  lemma {:induction false} CreatedByACall(seed: seq<Row>, log: seq<Event>, i: nat) returns (k: nat)
    requires Serial(seed, log) && |seed| <= i < |Replay(seed, log)|
    ensures k < |log| && log[k].PlaceEvent? && log[k].answer.Created? && log[k].answer.row.id == Replay(seed, log)[i].id
  {
    var n := |log| - 1;
    var before := Replay(seed, log[..n]);
    SerialPrefix(seed, log, n);
    if i < |before| {
      k := CreatedByACall(seed, log[..n], i);
      assert log[..n][k] == log[k];
      EffectFollows(before, log[n], i);
    } else {
      EffectAppends(before, log[n]);
      k := n;
    }
  }

  /** The transaction that was told it created this row. */
  predicate CreatedBy(txs: seq<Tx>, t: nat, id: int) {
    t < |txs| && txs[t].phase.Done? && txs[t].phase.answer.Created? && txs[t].phase.answer.row.id == id
  }

  lemma CreatorOf(s: State, steps: seq<Step>, mark: int, row: Row) returns (t: nat)
    requires Seed(s) && row in Run(s, steps).rows && row.id > mark
    requires forall i :: 0 <= i < |s.rows| ==> s.rows[i].id <= mark
    ensures CreatedBy(Run(s, steps).txs, t, row.id)
  {
    Reachable(s, steps);
    ReachableIsSafe(s, steps, 0);
    var s' := Run(s, steps);
    var i :| 0 <= i < |s'.rows| && s'.rows[i] == row;
    var k := CreatedByACall(s.rows, s'.log, i);
    t := s'.log[k].t;
  }

  /** Calls that were never answered. */
  function Silent(txs: seq<Tx>, answered: set<nat>): set<nat> {
    set t | 0 <= t < |txs| && t !in answered
  }

  predicate OwedRow(txs: seq<Tx>, ledger: seq<Row>, t: nat) {
    exists n :: 0 <= n < |ledger| && CreatedBy(txs, t, ledger[n].id)
  }

  lemma OwedRowStays(txs: seq<Tx>, ledger: seq<Row>, t: nat)
    requires ledger != [] && SortedById(ledger) && OwedRow(txs, ledger[..|ledger| - 1], t)
    ensures OwedRow(txs, ledger, t) && !CreatedBy(txs, t, ledger[|ledger| - 1].id)
  {
    var n := |ledger| - 1;
    var j :| 0 <= j < n && CreatedBy(txs, t, ledger[..n][j].id);
    assert CreatedBy(txs, t, ledger[j].id);
  }

  /** Each unmatched row is owed to a silent call of its own. */
  lemma {:induction false} UnmatchedAreSilent(s: State, steps: seq<Step>, ledger: seq<Row>, mark: int,
                                              acknowledged: set<int>, answered: set<nat>)
    returns (owed: set<nat>)
    requires Seed(s) && (forall i :: 0 <= i < |s.rows| ==> s.rows[i].id <= mark)
    requires SortedById(ledger) && forall row :: row in ledger ==> row in Run(s, steps).rows
    requires forall t, id :: t in answered && CreatedBy(Run(s, steps).txs, t, id) ==> id in acknowledged
    ensures owed <= Silent(Run(s, steps).txs, answered)
    ensures |owed| == |Unmatched(ledger, mark, acknowledged)|
    ensures forall t :: t in owed ==> OwedRow(Run(s, steps).txs, ledger, t)
  {
    var txs := Run(s, steps).txs;
    if ledger == [] {
      owed := {};
    } else {
      var n := |ledger| - 1;
      owed := UnmatchedAreSilent(s, steps, ledger[..n], mark, acknowledged, answered);
      forall t | t in owed ensures OwedRow(txs, ledger, t) && !CreatedBy(txs, t, ledger[n].id) {
        OwedRowStays(txs, ledger, t);
      }
      if ledger[n].id > mark && ledger[n].id !in acknowledged {
        assert ledger[n] in ledger;
        var t := CreatorOf(s, steps, mark, ledger[n]);
        owed := owed + {t};
      }
    }
  }

  /** With an allowance of every unanswered placement, no reachable ledger holds a phantom row. */
  lemma NoPhantoms(s: State, steps: seq<Step>, users: set<int>, ledger: seq<Row>, mark: int,
                   acknowledged: set<int>, answered: set<nat>)
    requires Seed(s) && LedgerOf(ledger, Run(s, steps).rows, users)
    requires forall i :: 0 <= i < |s.rows| ==> s.rows[i].id <= mark
    requires forall t, id :: t in answered && CreatedBy(Run(s, steps).txs, t, id) ==> id in acknowledged
    ensures |Unmatched(ledger, mark, acknowledged)| <= |Silent(Run(s, steps).txs, answered)|
  {
    var owed := UnmatchedAreSilent(s, steps, ledger, mark, acknowledged, answered);
    SubsetIsSmaller(owed, Silent(Run(s, steps).txs, answered));
  }

  lemma SubsetIsSmaller(a: set<nat>, b: set<nat>)
    requires a <= b
    ensures |a| <= |b|
  {
    if a != {} {
      var x :| x in a;
      SubsetIsSmaller(a - {x}, b - {x});
    }
  }

  /* ---- The whole check ---- */

  /** What the run read of the target, and what it was answered, at a reachable state. */
  ghost predicate HonestReadings(s: State, steps: seq<Step>, users: set<int>, ledger: seq<Row>, mark: int,
                                 apiCash: map<int, CashReading>, placements: seq<PlacedResponse>, cancelled: seq<int>)
  {
    var s' := Run(s, steps);
    && LedgerOf(ledger, s'.rows, users)
    && (forall i :: 0 <= i < |s.rows| ==> s.rows[i].id <= mark)
    && (forall u :: u in users && u in apiCash && apiCash[u].Read? ==>
          apiCash[u].cash == ApiString(AvailableCash(s'.rows, u)))
    && (forall k :: 0 <= k < |placements| ==> exists t :: AnsweredAs(s'.txs, t, users, placements[k]))
    && (forall id :: id in cancelled ==> exists c :: CancelAnsweredOk(s'.cancels, c, users, id))
    && CancelsAnswered(s'.log, users, set c | c in cancelled)
  }

  ghost predicate ReadHonestly(s: State, steps: seq<Step>, users: set<int>, e: Evidence) {
    HonestReadings(s, steps, users, e.rows, e.mark, e.apiCash, e.placements, e.cancelled)
  }

  /** What the run collected about these users. */
  ghost predicate HonestEvidence(s: State, steps: seq<Step>, users: set<int>, answered: set<nat>, e: Evidence) {
    && ReadHonestly(s, steps, users, e)
    && (forall t, id :: t in answered && CreatedBy(Run(s, steps).txs, t, id) ==> id in e.acknowledged)
    && e.unanswered >= |Silent(Run(s, steps).txs, answered)|
  }

  predicate AnsweredAs(txs: seq<Tx>, t: nat, users: set<int>, p: PlacedResponse) {
    && t < |txs| && txs[t].phase.Done? && Answered(txs[t].phase.answer) && txs[t].phase.answer.row.userId in users
    && var row := txs[t].phase.answer.row; p == PlacedResponse(row.id, row.status, row.size, row.price)
  }

  predicate CancelAnsweredOk(calls: seq<CancelCall>, c: nat, users: set<int>, id: int) {
    && c < |calls| && calls[c].CancelDone? && calls[c].id == id && calls[c].answer.CancelOk?
    && calls[c].answer.row.userId in users
  }

  /** Where the balance was read and the shadow is comparable, the shadow has the target's cash. */
  predicate ShadowLeg(e: Evidence, rows: seq<Row>, u: int) {
    ReadingOf(e.apiCash, u).Read? && u in e.shadowCash ==> e.shadowCash[u] == ApiString(AvailableCash(rows, u))
  }

  /** On honest readings of any run of the target three checks pass, conservation reports exactly a
      comparable shadow that is off, and the answers agree exactly when the rows nobody can name are
      within the allowance. */
  method ReadingsPass(ghost s: State, ghost steps: seq<Step>, ghost users: set<int>, e: Evidence)
    returns (v: Verdicts)
    requires Seed(s) && (forall u :: u in users ==> Solvent(s.rows, u)) && ReadHonestly(s, steps, users, e)
    ensures v.noOverdraft && v.noOversell && v.cancelSafety
    ensures v.conservation <==> forall k :: 0 <= k < |e.rows| ==> ShadowLeg(e, Run(s, steps).rows, e.rows[k].userId)
    ensures v.responseDbAgreement <==> |Unmatched(e.rows, e.mark, e.acknowledged)| <= e.unanswered
  {
    v := CheckEach(e);
    NoOversellPasses(s, steps, users, e.rows, e.mark);
    NothingOversoldIff(e.rows, e.mark);
    forall u ensures Solvent(e.rows, u) {
      NoOverdraftPasses(s, steps, users, e.rows, u);
    }
    forall k | 0 <= k < |e.rows|
      ensures Disagreement(e.rows, e.apiCash, e.shadowCash, e.rows[k].userId).None?
         <==> ShadowLeg(e, Run(s, steps).rows, e.rows[k].userId)
    {
      ReadingsAgree(s, steps, users, e, k);
    }
    forall k | 0 <= k < |e.placements| ensures HeldAndAgrees(e.rows, e.placements[k], set c | c in e.cancelled) {
      PlacementAgrees(s, steps, users, e, k);
    }
    forall id | id in e.cancelled ensures ReadsCancelled(e.rows, id) {
      CancelReads(s, steps, users, e, id);
    }
  }

  /** The table of any run, read for these users: conservation passes exactly when every balance that was read
      prints the user's fold of the run, and the shadow's beside it does too, whoever read them. */
  method ConservationOverRuns(ghost s: State, ghost steps: seq<Step>, ghost users: set<int>, e: Evidence)
    returns (v: Verdicts)
    requires Seed(s) && LedgerOf(e.rows, Run(s, steps).rows, users)
    ensures v.conservation <==>
              forall k :: 0 <= k < |e.rows| && e.rows[k].userId in e.apiCash && e.apiCash[e.rows[k].userId].Read? ==>
                var (u, api) := (e.rows[k].userId, e.apiCash[e.rows[k].userId].cash);
                && api == ApiString(AvailableCash(Run(s, steps).rows, u))
                && (u in e.shadowCash ==> e.shadowCash[u] == api)
  {
    v := CheckInvariants(e);
    forall k | 0 <= k < |e.rows|
      ensures MoneyOf(CashFold(e.rows, e.rows[k].userId))
           == ApiString(AvailableCash(Run(s, steps).rows, e.rows[k].userId))
    {
      LedgerFolds(s, steps, users, e.rows, k);
    }
  }

  /** The rows read for a user fold to what the run's table does. */
  lemma LedgerFolds(s: State, steps: seq<Step>, users: set<int>, ledger: seq<Row>, k: nat)
    requires Seed(s) && LedgerOf(ledger, Run(s, steps).rows, users) && k < |ledger|
    ensures ledger[k].userId in users
    ensures MoneyOf(CashFold(ledger, ledger[k].userId))
         == ApiString(AvailableCash(Run(s, steps).rows, ledger[k].userId))
  {
    var user, rows := ledger[k].userId, Run(s, steps).rows;
    assert ledger[k] in ledger;
    TableWellFormed(s, steps);
    SameOrderPerUser(ledger, rows, users, user);
    OfUserFolds(ledger, user, 0);
    OfUserFolds(rows, user, 0);
    ViewsAreFolds(rows, user, 0);
    MoneyOfIsApiString(CashFold(ledger, user));
  }

  /** On every run of the target, whatever it interleaved, shed or lost, no check has anything to
      report but a shadow that is off. */
  method ReachableRunPasses(ghost s: State, ghost steps: seq<Step>, ghost users: set<int>, ghost answered: set<nat>,
                            e: Evidence)
    returns (v: Verdicts)
    requires Seed(s) && (forall u :: u in users ==> Solvent(s.rows, u))
    requires HonestEvidence(s, steps, users, answered, e)
    ensures v.noOverdraft && v.noOversell && v.responseDbAgreement && v.cancelSafety
    ensures v.conservation <==> forall k :: 0 <= k < |e.rows| ==> ShadowLeg(e, Run(s, steps).rows, e.rows[k].userId)
  {
    v := ReadingsPass(s, steps, users, e);
    NoPhantoms(s, steps, users, e.rows, e.mark, e.acknowledged, answered);
  }

  lemma PlacementAgrees(s: State, steps: seq<Step>, users: set<int>, e: Evidence, k: nat)
    requires Seed(s) && ReadHonestly(s, steps, users, e) && k < |e.placements|
    ensures HeldAndAgrees(e.rows, e.placements[k], set c | c in e.cancelled)
  {
    var t: nat :| AnsweredAs(Run(s, steps).txs, t, users, e.placements[k]);
    ResponsesAgree(s, steps, users, e.rows, (set c | c in e.cancelled), t);
  }

  lemma CancelReads(s: State, steps: seq<Step>, users: set<int>, e: Evidence, id: int)
    requires Seed(s) && ReadHonestly(s, steps, users, e) && id in e.cancelled
    ensures ReadsCancelled(e.rows, id)
  {
    var c: nat :| CancelAnsweredOk(Run(s, steps).cancels, c, users, id);
    assert CancelAnsweredOk(Run(s, steps).cancels, c, users, id);
    CancelSafetyPasses(s, steps, users, e.rows, c);
  }

  /** The ledger folds to what the portfolio says; only the shadow can differ. */
  lemma ReadingsAgree(s: State, steps: seq<Step>, users: set<int>, e: Evidence, k: nat)
    requires Seed(s) && ReadHonestly(s, steps, users, e) && k < |e.rows|
    ensures Disagreement(e.rows, e.apiCash, e.shadowCash, e.rows[k].userId).None?
       <==> ShadowLeg(e, Run(s, steps).rows, e.rows[k].userId)
    ensures e.rows[k].userId in users
  {
    LedgerFolds(s, steps, users, e.rows, k);
  }

  /* ---- The shadow leg ---- */

  /** The shadow balances a check is given: of trusted users with nothing outstanding. */
  ghost predicate ShadowRead(w: World, e: Evidence) {
    forall u :: u in e.shadowCash ==>
      && u in w.shadow.users && w.shadow.users[u].seeded && !w.shadow.users[u].uncertain
      && w.shadow.users[u].outstanding == 0 && e.shadowCash[u] == ApiString(w.shadow.users[u].cash)
  }

  /** No order of `u` strayed, or its balance is not compared. */
  predicate NothingStrayed(e: Evidence, w: World, acts: seq<Act>, u: int) {
    ReadingOf(e.apiCash, u).Read? && u in e.shadowCash ==> Stray(Cash, w, acts, u) == 0
  }

  lemma ShadowLegIff(j: Joint, moves: seq<Move>, e: Evidence, u: int)
    requires JointStart(j) && ShadowRead(JRun(j, moves).w, e)
    ensures ShadowLeg(e, Run(j.s, StepsOf(j, moves)).rows, u) <==> NothingStrayed(e, j.w, ActsOf(j, moves), u)
    ensures u in JRun(j, moves).w.clean ==> NothingStrayed(e, j.w, ActsOf(j, moves), u)
  {
    if u in e.shadowCash {
      ShadowAgreesOverRuns(j, moves, u);
      PrintIsInjective(JRun(j, moves).w.shadow.users[u].cash, AvailableCash(Run(j.s, StepsOf(j, moves)).rows, u));
    }
  }

  /** The whole check of a whole run, harness and target together: four checks pass on every run,
      and conservation passes exactly when nothing strayed from a shadow it compares; so all five
      pass when each of those users was seeded by one atomic read at rest and lost no answer. */
  method JointRunPasses(ghost j: Joint, ghost moves: seq<Move>, ghost users: set<int>, ghost answered: set<nat>,
                        e: Evidence)
    returns (v: Verdicts)
    requires JointStart(j) && (forall u :: u in users ==> Solvent(j.s.rows, u))
    requires HonestEvidence(j.s, StepsOf(j, moves), users, answered, e) && ShadowRead(JRun(j, moves).w, e)
    ensures v.noOverdraft && v.noOversell && v.responseDbAgreement && v.cancelSafety
    ensures v.conservation <==>
              forall k :: 0 <= k < |e.rows| ==> NothingStrayed(e, j.w, ActsOf(j, moves), e.rows[k].userId)
    ensures (forall u :: u in e.shadowCash ==> u in JRun(j, moves).w.clean) ==>
            v == Verdicts(true, true, true, true, true)
  {
    v := ReachableRunPasses(j.s, StepsOf(j, moves), users, answered, e);
    forall k | 0 <= k < |e.rows|
      ensures ShadowLeg(e, Run(j.s, StepsOf(j, moves)).rows, e.rows[k].userId)
         <==> NothingStrayed(e, j.w, ActsOf(j, moves), e.rows[k].userId)
      ensures e.rows[k].userId in JRun(j, moves).w.clean ==> NothingStrayed(e, j.w, ActsOf(j, moves), e.rows[k].userId)
    {
      ShadowLegIff(j, moves, e, e.rows[k].userId);
    }
  }
}
