/** The shadow's target is the interleaved one. The harness reserves, calls, retries, hears and
    loses answers while the protocol runs its statements; each move of the two together is at most
    one act of ShadowWorld and at most one step of Protocol, and their tables stay the same. */
module JointRuns {
  import opened Options
  import opened OrderRules
  import opened Ledger
  import opened Placement
  import opened Protocol
  import opened ProtocolInvariant
  import opened QuoteSources
  import opened Serializability
  import opened Portfolio
  import opened ShadowLedger
  import opened ShadowWorld
  import opened ShadowSoundness
  import opened ShadowPromises
  import opened ShadowStrays

  /** `keys[k]` is the key of flight k, `of[t]` the flight transaction t is a call for. */
  datatype Joint = Joint(w: World, s: State, keys: seq<Key>, of: seq<nat>)

  datatype Move =
    | Ask(order: SimOrder, key: Key)     // reserved, and a key minted
    | Call(k: nat)                       // a call reaches the target: the first, or a retry under the same key,
                                         // begun while the order is pending or once it has been stored
    | Target(step: Step)                 // a statement of the target, or its market moving
    | HearRefusal(k: nat)                // every call for the order is over and none placed it
    | Harness(act: Act)                  // an answer applied or lost, a generation, a seed

  predicate PlacedNothing(phase: Phase) { phase.Done? && !Answered(phase.answer) }

  /** The order is in the target's table: a call for it now is answered with a replay. */
  predicate Named(j: Joint, k: nat)
    requires k < |j.w.flights| && k < |j.keys|
  {
    ByKey(j.s.rows, j.w.flights[k].res.order.userId, j.keys[k]).Some?
  }

  predicate Allowed(j: Joint, move: Move) {
    match move
    case Ask(order, key) => Can(j.w, Send(order)) && key !in j.keys
    case Call(k) => k < |j.w.flights| && k < |j.keys| && (Pending(j.w, k) || Named(j, k))
    case Target(step) => !step.Begin? && Enabled(j.s, step)
    case HearRefusal(k) =>
      Pending(j.w, k) && forall t :: 0 <= t < |j.s.txs| && t < |j.of| && j.of[t] == k ==>
        PlacedNothing(j.s.txs[t].phase)
    case Harness(act) => act.Deliver? || act.Vanish? || act.NewGeneration? || act.SeedUser?
  }

  predicate Commits(j: Joint, step: Step) {
    step.Advance? && step.t < |j.s.txs| && step.t < |j.of| && j.s.txs[step.t].phase.Inserted?
  }

  /** The commit of an order is its processing, at the quote it was decided on. */
  function CommitAct(j: Joint, t: nat): Act
    requires Commits(j, Advance(t))
  {
    var tx := j.s.txs[t];
    var (quote, id) := (tx.phase.quote, tx.phase.row.id);
    if quote == QuoteOf(j.w.quotes, tx.req.instrumentId) then Process(j.of[t], id, tx.req.key)
    else ProcessAt(j.of[t], id, tx.req.key, quote)
  }

  function ActOf(j: Joint, move: Move): seq<Act> {
    match move
    case Ask(order, _) => [Send(order)]
    case Call(_) => []
    case Target(step) =>
      if Commits(j, step) then [CommitAct(j, step.t)]
      else if step.CancelUpdate? then [CancelOrder(step.id)]
      else if step.MarketMove? then [MoveClose(step.instrument, step.close)]
      else []
    case HearRefusal(k) => [Refuse(k)]
    case Harness(act) => [act]
  }

  function StepOf(j: Joint, move: Move): seq<Step> {
    match move
    case Call(k) =>
      if k < |j.w.flights| && k < |j.keys| then [Begin(ToRequest(j.w.flights[k].res.order, j.keys[k]))] else []
    case Target(step) => [step]
    case _ => []
  }

  function JNext(j: Joint, move: Move): Joint {
    if !Allowed(j, move) then j
    else Joint(Acts(j.w, ActOf(j, move)), Run(j.s, StepOf(j, move)),
               if move.Ask? then j.keys + [move.key] else j.keys,
               if move.Call? then j.of + [move.k] else j.of)
  }

  function JRun(j: Joint, moves: seq<Move>): Joint {
    if moves == [] then j else JNext(JRun(j, moves[..|moves| - 1]), moves[|moves| - 1])
  }

  /** What the harness and the target each saw of a run. */
  function ActsOf(j: Joint, moves: seq<Move>): seq<Act> {
    if moves == [] then []
    else
      var before, move := JRun(j, moves[..|moves| - 1]), moves[|moves| - 1];
      ActsOf(j, moves[..|moves| - 1]) + if Allowed(before, move) then ActOf(before, move) else []
  }

  function StepsOf(j: Joint, moves: seq<Move>): seq<Step> {
    if moves == [] then []
    else
      var before, move := JRun(j, moves[..|moves| - 1]), moves[|moves| - 1];
      StepsOf(j, moves[..|moves| - 1]) + if Allowed(before, move) then StepOf(before, move) else []
  }

  predicate SameTarget(w: World, s: State) { w.rows == s.rows && w.users == s.users && w.quotes == s.quotes }

  /** A call is for its flight; until it is over the order is pending, or the key names an order. */
  predicate CallOk(j: Joint, t: nat)
    requires t < |j.s.txs| && |j.of| == |j.s.txs| && |j.keys| == |j.w.flights|
  {
    var (k, tx) := (j.of[t], j.s.txs[t]);
    && k < |j.w.flights| && tx.req == ToRequest(j.w.flights[k].res.order, j.keys[k])
    && FoundRight(tx.phase, tx.req.userId in j.s.users)
    && (tx.phase.Done? || Pending(j.w, k) || ByKey(j.s.rows, tx.req.userId, tx.req.key).Some?)
  }

  ghost predicate JointInv(seed: seq<Row>, j: Joint) {
    && Inv(seed, j.s) && SameTarget(j.w, j.s) && WorldInv(j.w)
    && |j.of| == |j.s.txs| && |j.keys| == |j.w.flights|
    && forall t :: 0 <= t < |j.s.txs| ==> CallOk(j, t)
  }

  /** A fresh harness before a seeded target. */
  predicate JointStart(j: Joint) {
    Fresh(j.w) && Seed(j.s) && SameTarget(j.w, j.s) && j.keys == [] && j.of == []
  }

  lemma OneAct(w: World, act: Act)
    ensures Acts(w, [act]) == After(w, act) && Acts(w, []) == w
  {
    assert [act][..0] == [];
  }

  lemma OneStep(s: State, step: Step)
    ensures Run(s, [step]) == Next(s, step) && Run(s, []) == s
  {
    assert [step][..0] == [];
  }

  lemma JNextIs(j: Joint, move: Move)
    requires Allowed(j, move)
    ensures var (acts, steps) := (ActOf(j, move), StepOf(j, move));
            && |acts| <= 1 && |steps| <= 1
            && JNext(j, move).w == (if acts == [] then j.w else After(j.w, acts[0]))
            && JNext(j, move).s == (if steps == [] then j.s else Next(j.s, steps[0]))
  {
    var (acts, steps) := (ActOf(j, move), StepOf(j, move));
    if acts != [] {
      OneAct(j.w, acts[0]);
      assert acts == [acts[0]];
    }
    if steps != [] {
      OneStep(j.s, steps[0]);
      assert steps == [steps[0]];
    }
  }

  /* ---- What one move leaves of the calls ---- */

  /** Reservations stay as they were made, and an order stops being pending only by being processed
      or refused. */
  lemma ActKeepsFlights(w: World, act: Act, k: nat)
    requires k < |w.flights|
    ensures k < |After(w, act).flights| && After(w, act).flights[k].res == w.flights[k].res
    ensures Pending(w, k) && !Pending(After(w, act), k) ==>
            (act.Process? || act.ProcessAt? || act.Refuse?) && act.k == k
  {
  }

  lemma StepKeepsKey(s: State, step: Step, user: int, key: Key)
    requires ByKey(s.rows, user, key).Some?
    ensures ByKey(Next(s, step).rows, user, key).Some?
  {
    if Enabled(s, step) {
      if step.Advance? && Next(s, step).rows != s.rows {
        var rows := Next(s, step).rows;
        assert rows[..|s.rows|] == s.rows;
      } else if step.CancelUpdate? && Cancel(s.rows, step.id).0.CancelOk? {
        CancelKeepsKey(s.rows, FindId(s.rows, step.id).value, user, key);
      }
    }
  }

  /** A call that no move touches stays as it was. */
  lemma CallStays(j: Joint, j': Joint, t: nat)
    requires t < |j.s.txs| && |j.of| == |j.s.txs| && |j.keys| == |j.w.flights| && CallOk(j, t)
    requires t < |j'.s.txs| && |j'.of| == |j'.s.txs| && |j'.keys| == |j'.w.flights|
    requires j'.of[t] == j.of[t] && j.keys <= j'.keys && j'.s.txs[t] == j.s.txs[t] && j'.s.users == j.s.users
    requires var k := j.of[t];
             && k < |j'.w.flights| && j'.w.flights[k].res == j.w.flights[k].res
             && (Pending(j.w, k) && !Pending(j'.w, k) ==>
                   j.s.txs[t].phase.Done? || ByKey(j'.s.rows, j.s.txs[t].req.userId, j.s.txs[t].req.key).Some?)
    requires var req := j.s.txs[t].req;
             ByKey(j.s.rows, req.userId, req.key).Some? ==> ByKey(j'.s.rows, req.userId, req.key).Some?
    ensures CallOk(j', t)
  {
  }

  /** A commit is the processing of its order, at the quote it was decided on: the order is still
      pending there, and the two give it the same row. */
  lemma CommitIsProcessing(seed: seq<Row>, j: Joint, t: nat)
    requires JointInv(seed, j) && Commits(j, Advance(t)) && Enabled(j.s, Advance(t))
    ensures var (k, tx) := (j.of[t], j.s.txs[t]);
            && CanProcess(j.w, k, tx.req.key) && j.w.flights[k].res.order.userId == tx.req.userId
            && After(j.w, CommitAct(j, t)) == Processed(j.w, k, tx.phase.row.id, tx.req.key, tx.phase.quote)
            && AnswerAt(j.w, j.w.flights[k].res.order, tx.phase.row.id, tx.req.key, tx.phase.quote)
               == Created(tx.phase.row)
            && tx.phase.row.userId == tx.req.userId && tx.phase.row.key == Some(tx.req.key)
            && Next(j.s, Advance(t)).rows == j.s.rows + [tx.phase.row]
  {
    var (k, tx) := (j.of[t], j.s.txs[t]);
    assert TxOk(j.s.rows, j.s.nextId, j.s.log, t, tx) && CallOk(j, t);
    InsertAnswers(j.w, j.w.flights[k].res.order, tx, j.keys[k]);
    ProcessedAt(j.w, k, tx.phase.row.id, tx.req.key, tx.phase.quote);
  }

  /** What a transaction wrote is what the whole placement answers. */
  lemma InsertAnswers(w: World, order: SimOrder, tx: Tx, key: Key)
    requires tx.req == ToRequest(order, key) && tx.phase.Inserted? && order.userId in w.users
    requires ByKey(w.rows, tx.req.userId, tx.req.key).None?
    requires Place(w.rows, true, tx.phase.quote, tx.req, tx.phase.row.id) == Created(tx.phase.row)
    ensures AnswerAt(w, order, tx.phase.row.id, key, tx.phase.quote) == Created(tx.phase.row)
    ensures tx.phase.row.userId == order.userId && tx.phase.row.key == Some(key)
  {
  }

  lemma ProcessedAt(w: World, k: nat, id: int, key: Key, quote: Quote)
    requires CanProcess(w, k, key)
    ensures var now := QuoteOf(w.quotes, w.flights[k].res.order.instrumentId);
            After(w, if quote == now then Process(k, id, key) else ProcessAt(k, id, key, quote))
              == Processed(w, k, id, key, quote)
  {
  }

  lemma HarnessLeavesTarget(w: World, s: State, act: Act)
    requires SameTarget(w, s)
    requires act.Send? || act.Refuse? || act.Deliver? || act.Vanish? || act.NewGeneration? || act.SeedUser?
    ensures SameTarget(After(w, act), s)
  {
  }

  lemma StepsTogether(w: World, s: State, step: Step)
    requires SameTarget(w, s) && (step.CancelUpdate? || (step.MarketMove? && Enabled(s, step)))
    ensures SameTarget(After(w, if step.CancelUpdate? then CancelOrder(step.id)
                                else MoveClose(step.instrument, step.close)),
                       Next(s, step))
  {
  }

  lemma StepLeavesTables(s: State, step: Step)
    requires step.Begin? || step.GiveUp? || step.CancelReread?
    ensures Next(s, step).rows == s.rows && Next(s, step).users == s.users && Next(s, step).quotes == s.quotes
  {
  }

  lemma AdvancesTogether(seed: seq<Row>, j: Joint, t: nat)
    requires JointInv(seed, j) && Enabled(j.s, Advance(t))
    ensures SameTarget(if Commits(j, Advance(t)) then After(j.w, CommitAct(j, t)) else j.w, Next(j.s, Advance(t)))
  {
    if Commits(j, Advance(t)) {
      CommitIsProcessing(seed, j, t);
    } else {
      assert TxOk(j.s.rows, j.s.nextId, j.s.log, t, j.s.txs[t]);
      NextPhaseOk(j.s, t);
    }
  }

  /** The two tables move together. */
  lemma TargetsMoveTogether(seed: seq<Row>, j: Joint, move: Move)
    requires JointInv(seed, j) && Allowed(j, move)
    ensures SameTarget(JNext(j, move).w, JNext(j, move).s)
  {
    JNextIs(j, move);
    match move
    case Ask(order, _) => HarnessLeavesTarget(j.w, j.s, Send(order));
    case Call(_) => StepLeavesTables(j.s, StepOf(j, move)[0]);
    case HearRefusal(k) => HarnessLeavesTarget(j.w, j.s, Refuse(k));
    case Harness(act) => HarnessLeavesTarget(j.w, j.s, act);
    case Target(step) =>
      if step.Advance? {
        AdvancesTogether(seed, j, step.t);
      } else if step.CancelUpdate? || step.MarketMove? {
        StepsTogether(j.w, j.s, step);
      } else {
        StepLeavesTables(j.s, step);
      }
  }

  /** The call the move is about, if it is one: a step of its own, or its first. */
  lemma OwnCallOk(seed: seq<Row>, j: Joint, move: Move, t: nat)
    requires JointInv(seed, j) && Allowed(j, move)
    requires (move.Call? && t == |j.s.txs|) || (move.Target? && move.step == Advance(t))
    ensures t < |JNext(j, move).s.txs| && |JNext(j, move).of| == |JNext(j, move).s.txs|
    ensures |JNext(j, move).keys| == |JNext(j, move).w.flights|
    ensures CallOk(JNext(j, move), t)
  {
    JNextIs(j, move);
    if move.Target? {
      var tx := j.s.txs[t];
      assert CallOk(j, t);
      NextIsFound(j.s, tx);
      if tx.phase.Inserted? {
        CommitIsProcessing(seed, j, t);
      }
    }
  }

  lemma StepShape(s: State, step: Step)
    ensures Next(s, step).users == s.users
    ensures |Next(s, step).txs| == |s.txs| + if step.Begin? && Enabled(s, step) then 1 else 0
  {
  }

  lemma ReservationsStay(j: Joint, move: Move, k: nat)
    requires Allowed(j, move) && k < |j.w.flights|
    ensures k < |JNext(j, move).w.flights| && JNext(j, move).w.flights[k].res == j.w.flights[k].res
  {
    JNextIs(j, move);
    if ActOf(j, move) != [] {
      ActKeepsFlights(j.w, ActOf(j, move)[0], k);
    }
  }

  /** One key for each flight, one flight for each call. */
  lemma ShapeKept(seed: seq<Row>, j: Joint, move: Move)
    requires JointInv(seed, j) && Allowed(j, move)
    ensures var j' := JNext(j, move);
            && |j'.of| == |j'.s.txs| && |j'.keys| == |j'.w.flights| && j.keys <= j'.keys && j.of <= j'.of
            && |j'.s.txs| == |j.s.txs| + (if move.Call? then 1 else 0) && j'.s.users == j.s.users
  {
    JNextIs(j, move);
    if StepOf(j, move) != [] {
      StepShape(j.s, StepOf(j, move)[0]);
    }
    if ActOf(j, move) != [] {
      FlightCount(j.w, ActOf(j, move)[0]);
    }
  }

  lemma FlightCount(w: World, act: Act)
    ensures |After(w, act).flights| == |w.flights| + if act.Send? && Can(w, act) then 1 else 0
  {
  }

  /** An order that stops being pending: its key names it now, or every call for it was over. */
  lemma PendingEnds(seed: seq<Row>, j: Joint, move: Move, t: nat)
    requires JointInv(seed, j) && Allowed(j, move) && t < |j.s.txs|
    requires Pending(j.w, j.of[t]) && !Pending(JNext(j, move).w, j.of[t])
    ensures var tx := j.s.txs[t];
            tx.phase.Done? || ByKey(JNext(j, move).s.rows, tx.req.userId, tx.req.key).Some?
  {
    JNextIs(j, move);
    assert CallOk(j, t);
    assert ActOf(j, move) != [];
    ActKeepsFlights(j.w, ActOf(j, move)[0], j.of[t]);
    if move.Target? {
      CommitNamesOrder(seed, j, move.step.t);
      assert CallOk(j, move.step.t);
    }
  }

  lemma CommitNamesOrder(seed: seq<Row>, j: Joint, t: nat)
    requires JointInv(seed, j) && Commits(j, Advance(t)) && Enabled(j.s, Advance(t))
    ensures ByKey(Next(j.s, Advance(t)).rows, j.s.txs[t].req.userId, j.s.txs[t].req.key).Some?
  {
    CommitIsProcessing(seed, j, t);
    LastIsFound(j.s.rows, j.s.txs[t].phase.row);
  }

  lemma LastIsFound(rows: seq<Row>, row: Row)
    requires row.key.Some?
    ensures ByKey(rows + [row], row.userId, row.key.value).Some?
  {
    assert row in rows + [row];
  }

  lemma OtherCallStays(seed: seq<Row>, j: Joint, move: Move, t: nat)
    requires JointInv(seed, j) && Allowed(j, move) && t < |j.s.txs|
    requires t < |JNext(j, move).s.txs| && JNext(j, move).s.txs[t] in {j.s.txs[t], Tx(j.s.txs[t].req, Done(Shed))}
    requires |JNext(j, move).of| == |JNext(j, move).s.txs| && |JNext(j, move).keys| == |JNext(j, move).w.flights|
    ensures CallOk(JNext(j, move), t)
  {
    var j' := JNext(j, move);
    var tx := j.s.txs[t];
    JNextIs(j, move);
    ShapeKept(seed, j, move);
    assert CallOk(j, t);
    ReservationsStay(j, move, j.of[t]);
    if j'.s.txs[t] == tx {
      if Pending(j.w, j.of[t]) && !Pending(j'.w, j.of[t]) {
        PendingEnds(seed, j, move, t);
      }
      if ByKey(j.s.rows, tx.req.userId, tx.req.key).Some? && StepOf(j, move) != [] {
        StepKeepsKey(j.s, StepOf(j, move)[0], tx.req.userId, tx.req.key);
      }
      CallStays(j, j', t);
    }
  }

  lemma JNextKeeps(seed: seq<Row>, j: Joint, move: Move)
    requires JointInv(seed, j)
    ensures JointInv(seed, JNext(j, move))
  {
    if Allowed(j, move) {
      var j' := JNext(j, move);
      JNextIs(j, move);
      ShapeKept(seed, j, move);
      TargetsMoveTogether(seed, j, move);
      BothKept(seed, j, move);
      forall t | 0 <= t < |j'.s.txs| ensures CallOk(j', t) {
        if (move.Call? && t == |j.s.txs|) || (move.Target? && move.step == Advance(t)) {
          OwnCallOk(seed, j, move, t);
        } else {
          if StepOf(j, move) != [] {
            OthersStandStill(j.s, StepOf(j, move)[0], t);
          }
          OtherCallStays(seed, j, move, t);
        }
      }
    }
  }

  lemma BothKept(seed: seq<Row>, j: Joint, move: Move)
    requires Inv(seed, j.s) && WorldInv(j.w) && Allowed(j, move)
    ensures Inv(seed, JNext(j, move).s) && WorldInv(JNext(j, move).w)
  {
    JNextIs(j, move);
    if ActOf(j, move) != [] {
      AfterKeeps(j.w, ActOf(j, move)[0]);
    }
    if StepOf(j, move) != [] {
      NextKeepsInv(seed, j.s, StepOf(j, move)[0]);
    }
  }

  lemma {:induction false} JointReachable(j: Joint, moves: seq<Move>)
    requires JointStart(j)
    ensures JointInv(j.s.rows, JRun(j, moves))
  {
    if moves == [] {
      SeedInv(j.s);
    } else {
      JointReachable(j, moves[..|moves| - 1]);
      JNextKeeps(j.s.rows, JRun(j, moves[..|moves| - 1]), moves[|moves| - 1]);
    }
  }

  lemma {:induction false} ActsConcat(w: World, acts: seq<Act>, more: seq<Act>)
    ensures Acts(w, acts + more) == Acts(Acts(w, acts), more)
  {
    if more == [] {
      assert acts + more == acts;
    } else {
      ActsConcat(w, acts, more[..|more| - 1]);
      assert (acts + more)[..|acts + more| - 1] == acts + more[..|more| - 1];
    }
  }

  /** A joint run is a run of the protocol and a run of the harness at once. */
  lemma {:induction false} JointRunIsBoth(j: Joint, moves: seq<Move>)
    ensures JRun(j, moves).s == Run(j.s, StepsOf(j, moves))
    ensures JRun(j, moves).w == Acts(j.w, ActsOf(j, moves))
  {
    if moves != [] {
      var (before, move) := (JRun(j, moves[..|moves| - 1]), moves[|moves| - 1]);
      JointRunIsBoth(j, moves[..|moves| - 1]);
      if Allowed(before, move) {
        RunConcat(j.s, StepsOf(j, moves[..|moves| - 1]), StepOf(before, move));
        ActsConcat(j.w, ActsOf(j, moves[..|moves| - 1]), ActOf(before, move));
      } else {
        assert StepsOf(j, moves) == StepsOf(j, moves[..|moves| - 1]);
        assert ActsOf(j, moves) == ActsOf(j, moves[..|moves| - 1]);
      }
    }
  }

  /** The shadow against the interleaved target. In any joint run, a trusted shadow with nothing
      outstanding is off the target's balance by what strayed since its seed, and by nothing when
      that seed was one atomic read with nothing in flight and no answer was lost since. */
  lemma ShadowAgreesOverRuns(j: Joint, moves: seq<Move>, u: int)
    requires JointStart(j) && u in JRun(j, moves).w.shadow.users
    requires var user := JRun(j, moves).w.shadow.users[u]; user.seeded && !user.uncertain && user.outstanding == 0
    ensures var (s', acts, w') := (Run(j.s, StepsOf(j, moves)), ActsOf(j, moves), JRun(j, moves).w);
            && AvailableCash(s'.rows, u) - w'.shadow.users[u].cash == Stray(Cash, j.w, acts, u)
            && (forall i ::
                  HeldShares(s'.rows, u, i) - Get(w'.shadow.users[u].shares, i) == Stray(Shares(i), j.w, acts, u))
            && (u in w'.clean ==> Stray(Cash, j.w, acts, u) == 0
                                  && forall i :: Listed(s'.quotes, i) ==> Stray(Shares(i), j.w, acts, u) == 0)
  {
    var (w', acts) := (JRun(j, moves).w, ActsOf(j, moves));
    JointReachable(j, moves);
    JointRunIsBoth(j, moves);
    StrayIsTheGap(Cash, j.w, acts, u);
    ViewsAreFolds(w'.rows, u, 0);
    forall i ensures HeldShares(w'.rows, u, i) - Get(w'.shadow.users[u].shares, i) == Stray(Shares(i), j.w, acts, u) {
      StrayIsTheGap(Shares(i), j.w, acts, u);
      ViewsAreFolds(w'.rows, u, i);
    }
    TrustedIsRightIffNothingStrayed(j.w, acts, u);
  }

  /* ---- Predictions against the interleaved target ---- */

  /** Every placement under way was decided on the close the market still shows. */
  ghost predicate QuotesStand(s: State) {
    forall t, quote :: 0 <= t < |s.txs| && DecidedOn(s.txs[t].phase, quote) ==>
      quote == QuoteOf(s.quotes, s.txs[t].req.instrumentId)
  }

  predicate KeepingMove(j: Joint, move: Move, u: int) {
    match move
    case Ask(order, _) => Keeping(j.w, Send(order), u)
    case Target(step) => !step.MarketMove?
    case Harness(act) => Keeping(j.w, act, u)
    case _ => true
  }

  ghost predicate StillKept(seed: seq<Row>, j: Joint, u: int) {
    JointInv(seed, j) && QuotesStand(j.s) && Kept(j.w, u)
  }

  lemma QuotesStayStanding(s: State, step: Step)
    requires QuotesStand(s) && !step.MarketMove?
    ensures QuotesStand(Next(s, step))
  {
    var s' := Next(s, step);
    forall t, quote | 0 <= t < |s'.txs| && DecidedOn(s'.txs[t].phase, quote)
      ensures quote == QuoteOf(s'.quotes, s'.txs[t].req.instrumentId)
    {
      NewTxIsQueued(s, step);
      if step == Advance(t) && Enabled(s, step) {
        NextIsSourced(s, s.txs[t], t, quote);
      } else {
        OthersStandStill(s, step, t);
      }
    }
  }

  lemma KeepingActs(j: Joint, move: Move, u: int)
    requires KeepingMove(j, move, u) && Allowed(j, move) && QuotesStand(j.s) && j.w.quotes == j.s.quotes
    ensures forall act :: act in ActOf(j, move) ==> Keeping(j.w, act, u)
  {
    if move.Target? && Commits(j, move.step) {
      var tx := j.s.txs[move.step.t];
      assert DecidedOn(tx.phase, tx.phase.quote);
    }
  }

  lemma KeepingMoveKeeps(seed: seq<Row>, j: Joint, move: Move, u: int)
    requires StillKept(seed, j, u) && KeepingMove(j, move, u)
    ensures StillKept(seed, JNext(j, move), u)
  {
    JNextKeeps(seed, j, move);
    if Allowed(j, move) {
      JNextIs(j, move);
      KeepingActs(j, move, u);
      if ActOf(j, move) != [] {
        KeptStep(j.w, ActOf(j, move)[0], u);
      }
      if StepOf(j, move) != [] {
        QuotesStayStanding(j.s, StepOf(j, move)[0]);
      }
    }
  }

  ghost predicate KeepingMoves(j: Joint, moves: seq<Move>, u: int) {
    forall n :: 0 <= n < |moves| ==> KeepingMove(JRun(j, moves[..n]), moves[n], u)
  }

  lemma KeepingMovesPrefix(j: Joint, moves: seq<Move>, u: int)
    requires KeepingMoves(j, moves, u) && moves != []
    ensures var n := |moves| - 1; KeepingMoves(j, moves[..n], u) && KeepingMove(JRun(j, moves[..n]), moves[n], u)
  {
    var n := |moves| - 1;
    assert forall m :: 0 <= m < n ==> moves[..n][..m] == moves[..m];
  }

  lemma {:induction false} KeepingMovesKeep(seed: seq<Row>, j: Joint, moves: seq<Move>, u: int)
    requires StillKept(seed, j, u) && KeepingMoves(j, moves, u)
    ensures StillKept(seed, JRun(j, moves), u)
  {
    if moves != [] {
      var n := |moves| - 1;
      KeepingMovesPrefix(j, moves, u);
      KeepingMovesKeep(seed, j, moves[..n], u);
      KeepingMoveKeeps(seed, JRun(j, moves[..n]), moves[n], u);
    }
  }

  /** Prediction soundness over the interleaved target: while closes stand and the user's MARKET
      orders are sent only from a clean shadow that predicts they fill, each one that commits commits
      FILLED, whatever its transaction was interleaved with, shed beside it, sent again, answered late
      or given up on. */
  lemma PredictedFillsFillInRuns(seed: seq<Row>, j: Joint, moves: seq<Move>, u: int, t: nat)
    requires JointInv(seed, j) && QuotesStand(j.s) && PricesCurrent(j.w)
    requires u in j.w.clean && u in j.w.users && Grounded(j.w, u) && KeepingMoves(j, moves, u)
    requires var s' := JRun(j, moves).s;
             && t < |s'.txs| && s'.txs[t].phase.Inserted?
             && s'.txs[t].req.userId == u && s'.txs[t].req.otype.Market?
    ensures var s' := JRun(j, moves).s;
            && s'.txs[t].phase.row.status == Filled
            && Next(s', Advance(t)).rows == s'.rows + [s'.txs[t].phase.row]
  {
    GroundedIsKept(j.w, u);
    KeepingMovesKeep(seed, j, moves, u);
    PendingIsCovered(seed, JRun(j, moves), u, t);
  }

  lemma PendingIsCovered(seed: seq<Row>, j: Joint, u: int, t: nat)
    requires StillKept(seed, j, u) && t < |j.s.txs| && j.s.txs[t].phase.Inserted?
    requires j.s.txs[t].req.userId == u && j.s.txs[t].req.otype.Market?
    ensures j.s.txs[t].phase.row.status == Filled
    ensures Next(j.s, Advance(t)).rows == j.s.rows + [j.s.txs[t].phase.row]
  {
    var (k, tx) := (j.of[t], j.s.txs[t]);
    assert CallOk(j, t) && DecidedOn(tx.phase, tx.phase.quote);
    KeptIsPromised(j.w, u);
    CommitIsProcessing(seed, j, t);
    PromisedFills(j.w, k, tx.phase.row.id, tx.req.key);
  }
}
