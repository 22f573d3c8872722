/** A call begun after its order was stored: the gateway hides an answer and sends the order again
    before anybody hears of it, and the target answers with the order it has. */
module JointRetries {
  import opened Options
  import opened Ledger
  import opened Placement
  import opened Protocol
  import opened ShadowWorld
  import opened ShadowSoundness
  import opened ShadowWitness
  import opened JointRuns

  lemma JRunPush(j: Joint, moves: seq<Move>, move: Move)
    ensures JRun(j, moves + [move]) == JNext(JRun(j, moves), move)
  {
    assert (moves + [move])[..|moves|] == moves;
  }

  lemma {:induction false} JRunConcat(j: Joint, moves: seq<Move>, more: seq<Move>)
    ensures JRun(j, moves + more) == JRun(JRun(j, moves), more)
  {
    if more == [] {
      assert moves + more == moves;
    } else {
      var n := |more| - 1;
      JRunConcat(j, moves, more[..n]);
      JRunPush(j, moves + more[..n], more[n]);
      assert moves + more == moves + more[..n] + [more[n]];
    }
  }

  /** A call for the order and its three statements: the lock, the look-up and the end. */
  function Retry(k: nat, t: nat): seq<Move> {
    [Call(k)] + [Target(Advance(t))] + [Target(Advance(t))] + [Target(Advance(t))]
  }

  lemma RetryUnfolds(j: Joint, k: nat, t: nat)
    ensures var advance := Target(Advance(t));
            JRun(j, Retry(k, t)) == JNext(JNext(JNext(JNext(j, Call(k)), advance), advance), advance)
  {
    var advance := Target(Advance(t));
    JRunPush(j, [], Call(k));
    JRunPush(j, [Call(k)], advance);
    JRunPush(j, [Call(k)] + [advance], advance);
    JRunPush(j, [Call(k)] + [advance] + [advance], advance);
  }

  /** The call is on its way, in this phase; nothing else has changed. */
  predicate Retrying(j: Joint, j': Joint, k: nat, phase: Phase)
    requires k < |j.w.flights| && k < |j.keys|
  {
    var req := ToRequest(j.w.flights[k].res.order, j.keys[k]);
    && j'.w == j.w && j'.keys == j.keys && j'.of == j.of + [k]
    && j'.s.rows == j.s.rows && j'.s.txs == j.s.txs + [Tx(req, phase)]
    && (phase.Queued? ==> j'.s.lock == j.s.lock)
  }

  lemma RetryBegins(seed: seq<Row>, j: Joint, k: nat)
    requires JointInv(seed, j) && k < |j.w.flights| && Named(j, k)
    ensures Retrying(j, JNext(j, Call(k)), k, Queued)
  {
    JNextIs(j, Call(k));
  }

  lemma RetryLocks(seed: seq<Row>, j: Joint, j': Joint, k: nat)
    requires JointInv(seed, j) && k < |j.w.flights| && Retrying(j, j', k, Queued)
    requires j.w.flights[k].res.order.userId !in j.s.lock
    ensures Retrying(j, JNext(j', Target(Advance(|j.s.txs|))), k, Locked)
  {
    JNextIs(j', Target(Advance(|j.s.txs|)));
  }

  lemma RetryFinds(seed: seq<Row>, j: Joint, j': Joint, k: nat)
    requires JointInv(seed, j) && k < |j.w.flights| && Named(j, k) && Retrying(j, j', k, Locked)
    ensures var row := ByKey(j.s.rows, j.w.flights[k].res.order.userId, j.keys[k]).value;
            Retrying(j, JNext(j', Target(Advance(|j.s.txs|))), k, Found(row))
  {
    JNextIs(j', Target(Advance(|j.s.txs|)));
  }

  lemma RetryEnds(seed: seq<Row>, j: Joint, j': Joint, k: nat, row: Row)
    requires JointInv(seed, j) && k < |j.w.flights| && Retrying(j, j', k, Found(row))
    ensures Retrying(j, JNext(j', Target(Advance(|j.s.txs|))), k, Done(Replayed(row)))
  {
    JNextIs(j', Target(Advance(|j.s.txs|)));
  }

  /** From any state of a joint run, a call begun for an order that was stored already, and run while
      its user's lock is free, is answered with the order its key names; neither the table nor the
      shadow moves. */
  lemma RetryReplays(seed: seq<Row>, j: Joint, k: nat)
    requires JointInv(seed, j) && k < |j.w.flights| && Named(j, k)
    requires j.w.flights[k].res.order.userId !in j.s.lock
    ensures var row := ByKey(j.s.rows, j.w.flights[k].res.order.userId, j.keys[k]).value;
            Retrying(j, JRun(j, Retry(k, |j.s.txs|)), k, Done(Replayed(row)))
  {
    var t := |j.s.txs|;
    var row := ByKey(j.s.rows, j.w.flights[k].res.order.userId, j.keys[k]).value;
    var j1 := JNext(j, Call(k));
    var j2 := JNext(j1, Target(Advance(t)));
    var j3 := JNext(j2, Target(Advance(t)));
    RetryUnfolds(j, k, t);
    RetryBegins(seed, j, k);
    RetryLocks(seed, j, j1, k);
    RetryFinds(seed, j, j2, k);
    RetryEnds(seed, j, j3, k, row);
  }

  /* ---- The same harness beside the interleaved target ---- */

  function Beside(): Joint { Joint(Start(), State({7}, QUOTES, TABLE, 2, map[], [], [], []), [], []) }

  function Opening(): seq<Move> { [Harness(NewGeneration([7]))] + [Harness(SeedUser(1, 7, Reading()))] }

  lemma OpeningRuns()
    ensures JRun(Beside(), Opening()) == Beside().(w := Stepped(2))
  {
    var first, second := Harness(NewGeneration([7])), Harness(SeedUser(1, 7, Reading()));
    assert [first][..0] == [] && Opening()[..1] == [first];
    Opens();
    JNextIs(Beside(), first);
    Seeding();
    JNextIs(Beside().(w := Stepped(1)), second);
  }

  /** So joint runs start, and reach the conditions under which predictions are sound and a trusted
      shadow is the interleaved target's balance. */
  lemma AJointRunIsCovered()
    ensures JointStart(Beside())
    ensures var j := JRun(Beside(), Opening());
            && JointInv(TABLE, j) && QuotesStand(j.s) && PricesCurrent(j.w)
            && 7 in j.w.clean && 7 in j.w.users && Grounded(j.w, 7) && 7 in j.w.shadow.users
            && j.w.shadow.users[7].seeded && !j.w.shadow.users[7].uncertain && j.w.shadow.users[7].outstanding == 0
  {
    StartHolds();
    assert JointStart(Beside());
    OpeningRuns();
    JointReachable(Beside(), Opening());
  }

  /* ---- A run that hides an answer and sends again ---- */

  const REQUEST := ToRequest(PROBE, "p")
  const SIXTY := Quote(false, Some(60))

  /** The first call after i of its statements. */
  function PhaseOf(i: nat): Phase
    requires i <= 7
  {
    match i
    case 0 => Queued
    case 1 => Locked
    case 2 => Missed
    case 3 => KnownUser
    case 4 => Sizing(60, 1)
    case 5 => CashRead(60, 1, 10_000)
    case 6 => Ready(60, 1, 10_000, 0)
    case 7 => Inserted(SIXTY, REFUSED)
  }

  function FirstCall(i: nat): Joint
    requires i <= 7
  {
    Joint(Stepped(3),
          State({7}, QUOTES, TABLE, if i == 7 then 3 else 2, if i == 0 then map[] else map[7 := 0],
                [Tx(REQUEST, PhaseOf(i))], [], []),
          ["p"], [0])
  }

  lemma FirstCallPhase(i: nat)
    requires i < 7
    ensures NextPhase(FirstCall(i).s, Tx(REQUEST, PhaseOf(i))) == PhaseOf(i + 1)
  {
    TableFolds(TABLE);
  }

  lemma FirstCallState(i: nat)
    requires i < 7
    ensures Next(FirstCall(i).s, Advance(0)) == FirstCall(i + 1).s
  {
    FirstCallPhase(i);
    NoneUnderKey(FirstCall(i).s);
    OnlyCallMoves(FirstCall(i).s, PhaseOf(i), PhaseOf(i + 1));
  }

  /** One call alone, at a statement that has no effect yet. */
  lemma OnlyCallMoves(s: State, phase: Phase, next: Phase)
    requires s.txs == [Tx(REQUEST, phase)] && s.log == [] && Enabled(s, Advance(0)) && !next.Done?
    requires phase.Locked? ==> ByKey(s.rows, 7, "p").None?
    requires NextPhase(s, Tx(REQUEST, phase)) == next
    ensures Next(s, Advance(0)) == s.(txs := [Tx(REQUEST, next)],
                                      lock := if next.Locked? then s.lock[7 := 0] else s.lock,
                                      nextId := if next.Inserted? then s.nextId + 1 else s.nextId)
  {
    assert s.txs[0 := Tx(REQUEST, next)] == [Tx(REQUEST, next)];
    assert EventOf(s, 0, Tx(REQUEST, phase)) == [];
  }

  lemma NoneUnderKey(s: State)
    requires s.rows == TABLE
    ensures ByKey(s.rows, 7, "p").None?
  {
    TableFolds(TABLE);
  }

  /** A statement that stores nothing moves the target alone. */
  lemma StatementAlone(j: Joint, t: nat)
    requires t < |j.s.txs| && !j.s.txs[t].phase.Inserted? && Enabled(j.s, Advance(t))
    ensures JNext(j, Target(Advance(t))) == j.(s := Next(j.s, Advance(t)))
  {
    JNextIs(j, Target(Advance(t)));
  }

  lemma FirstCallNext(i: nat)
    requires i < 7
    ensures JNext(FirstCall(i), Target(Advance(0))) == FirstCall(i + 1)
  {
    StatementAlone(FirstCall(i), 0);
    FirstCallState(i);
  }

  function Asked(): Joint { Beside().(w := Stepped(3), keys := ["p"]) }

  lemma FirstCallAsks()
    ensures JRun(Beside(), Opening() + [Ask(PROBE, "p")]) == Asked()
  {
    OpeningRuns();
    JRunPush(Beside(), Opening(), Ask(PROBE, "p"));
    Asks();
    JNextIs(Beside().(w := Stepped(2)), Ask(PROBE, "p"));
  }

  lemma FirstCallBegins()
    ensures JRun(Beside(), Opening() + [Ask(PROBE, "p")] + [Call(0)]) == FirstCall(0)
  {
    FirstCallAsks();
    JRunPush(Beside(), Opening() + [Ask(PROBE, "p")], Call(0));
    CallBegins();
  }

  lemma CallBegins()
    ensures JNext(Asked(), Call(0)) == FirstCall(0)
  {
    Asks();
    JNextIs(Asked(), Call(0));
  }

  /** The opening, the order, its first call and the call's statements up to its commit. */
  lemma FirstCallStores() returns (moves: seq<Move>)
    ensures var j := JRun(Beside(), moves);
            && j.w == Stepped(4) && j.keys == ["p"] && j.of == [0] && j.s.lock == map[]
            && j.s.txs == [Tx(REQUEST, Done(Created(REFUSED)))] && j.s.rows == TABLE + [REFUSED]
  {
    moves := Opening() + [Ask(PROBE, "p")] + [Call(0)];
    FirstCallBegins();
    for i := 0 to 7
      invariant JRun(Beside(), moves) == FirstCall(i)
    {
      FirstCallNext(i);
      JRunPush(Beside(), moves, Target(Advance(0)));
      moves := moves + [Target(Advance(0))];
    }
    JRunPush(Beside(), moves, Target(Advance(0)));
    FirstCallCommits();
    moves := moves + [Target(Advance(0))];
  }

  lemma FirstCallCommits()
    ensures var j := JNext(FirstCall(7), Target(Advance(0)));
            && j.w == Stepped(4) && j.keys == ["p"] && j.of == [0] && j.s.lock == map[]
            && j.s.txs == [Tx(REQUEST, Done(Created(REFUSED)))] && j.s.rows == TABLE + [REFUSED]
  {
    var j := FirstCall(7);
    StoredState();
    assert CommitAct(j, 0) == Process(0, 2, "p");
    Refuses();
    JNextIs(j, Target(Advance(0)));
  }

  lemma StoredState()
    ensures var s := Next(FirstCall(7).s, Advance(0));
            && s.lock == map[] && s.txs == [Tx(REQUEST, Done(Created(REFUSED)))] && s.rows == TABLE + [REFUSED]
  {
  }

  /** The answer of a stored order is lost, and the call sent again replays it. */
  lemma LostAndSentAgain(seed: seq<Row>, j: Joint, k: nat)
    requires JointInv(seed, j) && k < |j.w.flights| && Named(j, k) && Can(j.w, Vanish(k))
    requires j.w.flights[k].res.order.userId !in j.s.lock
    ensures var j' := JRun(j, Retry(k, |j.s.txs|) + [Harness(Vanish(k))]);
            var req := ToRequest(j.w.flights[k].res.order, j.keys[k]);
            && j'.w == After(j.w, Vanish(k)) && j'.of == j.of + [k] && j'.s.rows == j.s.rows
            && j'.s.txs == j.s.txs + [Tx(req, Done(Replayed(ByKey(j.s.rows, req.userId, req.key).value)))]
  {
    RetryReplays(seed, j, k);
    JRunPush(j, Retry(k, |j.s.txs|), Harness(Vanish(k)));
    JNextIs(JRun(j, Retry(k, |j.s.txs|)), Harness(Vanish(k)));
  }

  /** An order is stored, its answer is hidden, and a call begun afterwards is answered with a replay
      of the same row; then the harness gives the order up, and its user's trust with it. */
  lemma AHiddenAnswerIsReplayed() returns (stored: seq<Move>, after: seq<Move>)
    ensures JointStart(Beside()) && after == Retry(0, 1) + [Harness(Vanish(0))]
    ensures var j := JRun(Beside(), stored);
            j.s.txs == [Tx(REQUEST, Done(Created(REFUSED)))] && j.s.rows == TABLE + [REFUSED]
    ensures var j := JRun(Beside(), stored + after);
            && j.of == [0] + [0] && j.s.rows == TABLE + [REFUSED]
            && j.s.txs == [Tx(REQUEST, Done(Created(REFUSED)))] + [Tx(REQUEST, Done(Replayed(REFUSED)))]
            && j.w == After(Stepped(4), Vanish(0))
  {
    stored := FirstCallStores();
    after := Retry(0, 1) + [Harness(Vanish(0))];
    BesideStarts();
    JointReachable(Beside(), stored);
    JRunConcat(Beside(), stored, after);
    HiddenThenReplayed(JRun(Beside(), stored));
  }

  lemma BesideStarts()
    ensures JointStart(Beside())
  {
    StartHolds();
  }

  lemma HiddenThenReplayed(j: Joint)
    requires JointInv(TABLE, j) && j.w == Stepped(4) && j.keys == ["p"] && j.of == [0] && j.s.lock == map[]
    requires j.s.txs == [Tx(REQUEST, Done(Created(REFUSED)))] && j.s.rows == TABLE + [REFUSED]
    ensures var j' := JRun(j, Retry(0, 1) + [Harness(Vanish(0))]);
            && j'.of == [0] + [0] && j'.s.rows == TABLE + [REFUSED]
            && j'.s.txs == [Tx(REQUEST, Done(Created(REFUSED)))] + [Tx(REQUEST, Done(Replayed(REFUSED)))]
            && j'.w == After(Stepped(4), Vanish(0))
  {
    StoredIsNamed(j.s.rows);
    LostAndSentAgain(TABLE, j, 0);
  }

  lemma StoredIsNamed(rows: seq<Row>)
    requires rows == TABLE + [REFUSED]
    ensures ByKey(rows, 7, "p") == Some(REFUSED)
  {
    assert rows[|rows| - 1] == REFUSED;
  }

  /** By then the user is one the shadow has stopped trusting, with nothing outstanding. */
  lemma GivenUp()
    ensures var w := After(Stepped(4), Vanish(0));
            && Can(Stepped(4), Vanish(0)) && 7 in w.shadow.users
            && w.shadow.users[7].uncertain && w.shadow.users[7].outstanding == 0
  {
  }
}
