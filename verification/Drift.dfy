/** Holding a balance the API reported against the shadow, around reads that are not atomic:
    what a reported drift proves, and what it does not. */
module Drift {
  import opened Options
  import opened OrderRules
  import opened SeqSum
  import opened Ledger
  import opened Placement
  import opened Protocol
  import opened ShadowWorld
  import opened ShadowSoundness
  import opened Money
  import opened Checkers

  datatype UserSnapshot = UserSnapshot(userId: int, cash: string, seeded: bool, uncertain: bool, outstanding: int)

  datatype DriftFinding = DriftFinding(userId: int, shadow: string, api: string)

  /** The last snapshot of this user, as a Map built from the list holds it. */
  function LastOf(snapshots: seq<UserSnapshot>, user: int): Option<UserSnapshot> {
    if snapshots == [] then None
    else if snapshots[|snapshots| - 1].userId == user then Some(snapshots[|snapshots| - 1])
    else LastOf(snapshots[..|snapshots| - 1], user)
  }

  /** Both sides readable, trusted, and standing still as far as the snapshots can tell. */
  predicate Compared(user: UserSnapshot, after: seq<UserSnapshot>, apiCash: map<int, string>) {
    var later := LastOf(after, user.userId);
    && later.Some? && user.userId in apiCash
    && user.seeded && !user.uncertain && later.value.seeded && !later.value.uncertain
    && user.outstanding == 0 && later.value.outstanding == 0 && user.cash == later.value.cash
  }

  function ComparedCount(before: seq<UserSnapshot>, after: seq<UserSnapshot>, apiCash: map<int, string>): nat {
    if before == [] then 0
    else ComparedCount(before[..|before| - 1], after, apiCash)
         + if Compared(before[|before| - 1], after, apiCash) then 1 else 0
  }

  /** Trusted and at rest, as the later snapshot shows it too, and shown by the API at all. */
  predicate StandsStill(user: UserSnapshot, after: seq<UserSnapshot>, apiCash: map<int, string>) {
    && user.userId in apiCash && user.seeded && !user.uncertain && user.outstanding == 0
    && LastOf(after, user.userId) == Some(user)
  }

  /** The users compared are those that stand still. */
  lemma {:induction false} ComparedStandStill(before: seq<UserSnapshot>, after: seq<UserSnapshot>,
                                              apiCash: map<int, string>)
    ensures ComparedCount(before, after, apiCash)
         == |Where(before, (user: UserSnapshot) => StandsStill(user, after, apiCash))|
  {
    if before != [] {
      var n := |before| - 1;
      ComparedStandStill(before[..n], after, apiCash);
      LastIsTheUsers(after, before[n].userId);
      assert before == before[..n] + [before[n]];
      WhereAppend(before[..n], before[n], (user: UserSnapshot) => StandsStill(user, after, apiCash));
    }
  }

  lemma {:induction false} LastIsTheUsers(snapshots: seq<UserSnapshot>, user: int)
    ensures LastOf(snapshots, user).Some? ==> LastOf(snapshots, user).value.userId == user
  {
    if snapshots != [] {
      LastIsTheUsers(snapshots[..|snapshots| - 1], user);
    }
  }

  method DriftFindings(before: seq<UserSnapshot>, after: seq<UserSnapshot>, apiCash: map<int, string>)
    returns (compared: nat, findings: seq<DriftFinding>)
    ensures compared == |Where(before, (user: UserSnapshot) => StandsStill(user, after, apiCash))|
    ensures forall f :: f in findings <==>
              exists k :: 0 <= k < |before| && Compared(before[k], after, apiCash)
                          && f == DriftFinding(before[k].userId, before[k].cash, apiCash[before[k].userId])
                          && f.shadow != f.api
    ensures forall u, shadow, api :: DriftFinding(u, shadow, api) in findings <==>
              && u in apiCash && api == apiCash[u] && shadow != api
              && (exists k :: 0 <= k < |before| && before[k] == UserSnapshot(u, shadow, true, false, 0))
              && LastOf(after, u) == Some(UserSnapshot(u, shadow, true, false, 0))
  {
    var later: map<int, UserSnapshot> := map[];
    for n := 0 to |after|
      invariant forall u :: u in later <==> LastOf(after[..n], u).Some?
      invariant forall u :: u in later ==> LastOf(after[..n], u) == Some(later[u])
    {
      assert after[..n + 1][..n] == after[..n];
      later := later[after[n].userId := after[n]];
    }
    assert after[..|after|] == after;
    compared, findings := 0, [];
    for n := 0 to |before|
      invariant compared == ComparedCount(before[..n], after, apiCash)
      invariant forall f :: f in findings <==>
                  exists k :: 0 <= k < n && Compared(before[k], after, apiCash)
                              && f == DriftFinding(before[k].userId, before[k].cash, apiCash[before[k].userId])
                              && f.shadow != f.api
    {
      var user := before[n];
      assert before[..n + 1][..n] == before[..n];
      if user.userId !in later || user.userId !in apiCash {
        continue;
      }
      var settled := later[user.userId];
      if !user.seeded || user.uncertain || !settled.seeded || settled.uncertain
         || user.outstanding != 0 || settled.outstanding != 0 || user.cash != settled.cash {
        continue;
      }
      compared := compared + 1;
      if user.cash != apiCash[user.userId] {
        findings := findings + [DriftFinding(user.userId, user.cash, apiCash[user.userId])];
      }
    }
    assert before[..|before|] == before;
    FindingsNamed(before, after, apiCash, findings);
    ComparedStandStill(before, after, apiCash);
  }

  /** A finding is a user whom both snapshots show trusted, at rest and with one figure, and the API another. */
  lemma FindingsNamed(before: seq<UserSnapshot>, after: seq<UserSnapshot>, apiCash: map<int, string>,
                      findings: seq<DriftFinding>)
    requires forall f :: f in findings <==>
               exists k :: 0 <= k < |before| && Compared(before[k], after, apiCash)
                           && f == DriftFinding(before[k].userId, before[k].cash, apiCash[before[k].userId])
                           && f.shadow != f.api
    ensures forall u, shadow, api :: DriftFinding(u, shadow, api) in findings <==>
              && u in apiCash && api == apiCash[u] && shadow != api
              && (exists k :: 0 <= k < |before| && before[k] == UserSnapshot(u, shadow, true, false, 0))
              && LastOf(after, u) == Some(UserSnapshot(u, shadow, true, false, 0))
  {
    forall u, shadow, api
      ensures DriftFinding(u, shadow, api) in findings <==>
              && u in apiCash && api == apiCash[u] && shadow != api
              && (exists k :: 0 <= k < |before| && before[k] == UserSnapshot(u, shadow, true, false, 0))
              && LastOf(after, u) == Some(UserSnapshot(u, shadow, true, false, 0))
    {
      LastIsTheUsers(after, u);
      var still := UserSnapshot(u, shadow, true, false, 0);
      if k :| 0 <= k < |before| && before[k] == still && u in apiCash && api == apiCash[u] && shadow != api
              && LastOf(after, u) == Some(still) {
        assert Compared(before[k], after, apiCash);
        assert DriftFinding(u, shadow, api).shadow != DriftFinding(u, shadow, api).api;
      }
    }
  }

  /** The shadow balances a run's check may use: seeded, trusted and at rest on both sides. */
  predicate Usable(user: UserSnapshot, after: seq<UserSnapshot>, users: set<int>) {
    var later := LastOf(after, user.userId);
    && user.userId in users && later.Some? && user.seeded && !user.uncertain && !later.value.uncertain
    && user.outstanding == 0 && later.value.outstanding == 0 && user.cash == later.value.cash
  }

  method ComparableCash(before: seq<UserSnapshot>, after: seq<UserSnapshot>, users: set<int>)
    returns (cash: map<int, string>)
    requires forall i, j :: 0 <= i < j < |before| ==> before[i].userId != before[j].userId
    ensures forall k :: 0 <= k < |before| ==>
              (before[k].userId in cash <==> Usable(before[k], after, users))
              && (before[k].userId in cash ==> cash[before[k].userId] == before[k].cash)
    ensures forall u :: u in cash ==> exists k :: 0 <= k < |before| && before[k].userId == u
    ensures forall u, figure :: (u in cash && cash[u] == figure) <==>
              && u in users && UserSnapshot(u, figure, true, false, 0) in before
              && LastOf(after, u).Some? && !LastOf(after, u).value.uncertain
              && LastOf(after, u).value.outstanding == 0 && LastOf(after, u).value.cash == figure
  {
    cash := map[];
    for n := 0 to |before|
      invariant forall k :: 0 <= k < n ==>
                  (before[k].userId in cash <==> Usable(before[k], after, users))
                  && (before[k].userId in cash ==> cash[before[k].userId] == before[k].cash)
      invariant forall u :: u in cash ==> exists k :: 0 <= k < n && before[k].userId == u
    {
      if Usable(before[n], after, users) {
        cash := cash[before[n].userId := before[n].cash];
      }
    }
  }

  /** A balance is evidence only if it read the same on both sides of the ledger read. */
  method StillCash(users: seq<int>, first: map<int, string>, second: map<int, string>)
    returns (readings: map<int, CashReading>)
    ensures forall u :: u in readings <==> u in users
    ensures forall u :: u in users ==>
              readings[u] == if u in first && u in second && first[u] == second[u] then Read(first[u]) else Unavailable
  {
    readings := map[];
    for n := 0 to |users|
      invariant forall u :: u in readings <==> u in users[..n]
      invariant forall u :: u in users[..n] ==>
                  readings[u] ==
                  if u in first && u in second && first[u] == second[u] then Read(first[u]) else Unavailable
    {
      var user := users[n];
      assert users[..n + 1] == users[..n] + [user];
      if user !in first || user !in second || first[user] != second[user] {
        readings := readings[user := Unavailable];
      } else {
        readings := readings[user := Read(first[user])];
      }
    }
    assert users[..|users|] == users;
  }

  /* ---- What the comparison is worth ---- */

  function SnapshotOf(w: World, user: int): UserSnapshot
    requires user in w.shadow.users
  {
    var u := w.shadow.users[user];
    UserSnapshot(user, MoneyOf(u.cash), u.seeded, u.uncertain, u.outstanding)
  }

  /** Two snapshots of the shadow are held against the API exactly for a user both show seeded, trusted and with
      nothing outstanding, at one figure. */
  lemma SnapshotsComparedIff(w: World, w': World, user: int, apiCash: map<int, string>)
    requires user in w.shadow.users && user in w'.shadow.users
    ensures Compared(SnapshotOf(w, user), [SnapshotOf(w', user)], apiCash) <==>
            var (u, u') := (w.shadow.users[user], w'.shadow.users[user]);
            && user in apiCash && u.seeded && u'.seeded && !u.uncertain && !u'.uncertain
            && u.outstanding == 0 == u'.outstanding && u.cash == u'.cash
  {
    var (u, u') := (w.shadow.users[user], w'.shadow.users[user]);
    MoneyOfIsApiString(u.cash);
    MoneyOfIsApiString(u'.cash);
    PrintIsInjective(u.cash, u'.cash);
    assert LastOf([SnapshotOf(w', user)], user) == Some(SnapshotOf(w', user));
  }

  predicate Sends(act: Act, user: int) { act.Send? && act.order.userId == user }

  /** With nothing in flight and nothing sent, nothing of the user's moves. */
  lemma {:induction false} NoSendNoMove(w: World, acts: seq<Act>, user: int)
    requires Grounded(w, user) && forall n :: 0 <= n < |acts| ==> !Sends(acts[n], user)
    ensures Grounded(Acts(w, acts), user)
    ensures CashFold(Acts(w, acts).rows, user) == CashFold(w.rows, user)
  {
    if acts != [] {
      var n := |acts| - 1;
      NoSendNoMove(w, acts[..n], user);
      OthersMoveNothing(Acts(w, acts[..n]), acts[n], user);
    }
  }

  lemma OtherOrderMovesNothing(w: World, k: nat, id: int, key: Key, quote: Quote, user: int)
    requires CanProcess(w, k, key) && w.flights[k].res.order.userId != user
    ensures CashFold(Processed(w, k, id, key, quote).rows, user) == CashFold(w.rows, user)
  {
    AnswerIsTheMove(w, HeardOf(w, k, id, key, quote), id, key, quote, user, 0);
  }

  lemma OthersMoveNothing(w: World, act: Act, user: int)
    requires Grounded(w, user) && !Sends(act, user)
    ensures Grounded(After(w, act), user)
    ensures CashFold(After(w, act).rows, user) == CashFold(w.rows, user)
  {
    if act.Process? && Can(w, act) {
      OtherOrderMovesNothing(w, act.k, act.id, act.key, QuoteOf(w.quotes, w.flights[act.k].res.order.instrumentId),
                             user);
    } else if act.ProcessAt? && Can(w, act) {
      OtherOrderMovesNothing(w, act.k, act.id, act.key, act.quote, user);
    } else if act.CancelOrder? && Cancel(w.rows, act.id).0.CancelOk? {
      var at := FindId(w.rows, act.id).value;
      SumUpdate(w.rows, at, w.rows[at].(status := Cancelled), CashOf(user));
    }
  }

  lemma QuietIsGrounded(w: World, user: int)
    requires WorldInv(w) && user in w.clean && user in w.shadow.users && w.shadow.users[user].outstanding == 0
    ensures Grounded(w, user)
    ensures SnapshotOf(w, user).cash == ApiString(CashFold(w.rows, user))
  {
    assert Agrees(w, user);
    NoneLiveIffNoneOutstanding(w.flights, user, w.shadow.current);
    QuietAgrees(w, user);
    ViewsAreFolds(w.rows, user, 0);
    MoneyOfIsApiString(w.shadow.users[user].cash);
  }

  /** For a cleanly seeded user at rest when the first snapshot is taken, the API's figure differs
      from the shadow's exactly when the ledger moved between the snapshot and the read: a drift
      that is reported is never the target's arithmetic. */
  lemma DriftIffLedgerMoved(w: World, acts: seq<Act>, user: int)
    requires WorldInv(w) && user in w.clean && user in w.shadow.users && w.shadow.users[user].outstanding == 0
    ensures var api := ApiString(AvailableCash(Acts(w, acts).rows, user));
            SnapshotOf(w, user).cash != api <==> CashFold(Acts(w, acts).rows, user) != CashFold(w.rows, user)
  {
    QuietIsGrounded(w, user);
    ViewsAreFolds(Acts(w, acts).rows, user, 0);
    PrintIsInjective(CashFold(w.rows, user), CashFold(Acts(w, acts).rows, user));
  }

  /** So a user for whom nothing is sent between the snapshot and the read never drifts, whatever
      everyone else does. */
  lemma StandingStillNeverDrifts(w: World, acts: seq<Act>, user: int)
    requires WorldInv(w) && user in w.clean && user in w.shadow.users && w.shadow.users[user].outstanding == 0
    requires forall n :: 0 <= n < |acts| ==> !Sends(acts[n], user)
    ensures SnapshotOf(w, user).cash == ApiString(AvailableCash(Acts(w, acts).rows, user))
  {
    QuietIsGrounded(w, user);
    NoSendNoMove(w, acts, user);
    DriftIffLedgerMoved(w, acts, user);
  }

  /** And all three balances of the conservation check agree for such a user, whether or not
      the API answered. */
  lemma ConservationHolds(w: World, acts: seq<Act>, user: int, ledger: seq<Row>,
                          apiCash: map<int, CashReading>, shadowCash: map<int, string>)
    requires WorldInv(w) && user in w.clean && user in w.shadow.users && w.shadow.users[user].outstanding == 0
    requires forall n :: 0 <= n < |acts| ==> !Sends(acts[n], user)
    requires CashFold(ledger, user) == CashFold(Acts(w, acts).rows, user)
    requires user in apiCash && apiCash[user].Read? ==> apiCash[user].cash == ApiString(AvailableCash(w.rows, user))
    requires user in shadowCash ==> shadowCash[user] == SnapshotOf(w, user).cash
    ensures user in apiCash && apiCash[user].Read? ==>
              && apiCash[user].cash == MoneyOf(CashFold(ledger, user))
              && (user in shadowCash ==> shadowCash[user] == apiCash[user].cash)
  {
    QuietIsGrounded(w, user);
    NoSendNoMove(w, acts, user);
    ViewsAreFolds(w.rows, user, 0);
    MoneyOfIsApiString(CashFold(ledger, user));
  }
}
