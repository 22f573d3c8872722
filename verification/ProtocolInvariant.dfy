/** What every step of the placement protocol keeps. The core: whatever the holder of a
    user's lock has read about that user still equals what the committed table says. */
module ProtocolInvariant {
  import opened Options
  import opened OrderRules
  import opened Ledger
  import opened Placement
  import opened Protocol

  ghost predicate LockInv(s: State) {
    && (forall t :: 0 <= t < |s.txs| && InSection(s.txs[t].phase)
          ==> s.txs[t].req.userId in s.lock && s.lock[s.txs[t].req.userId] == t)
    && (forall u :: u in s.lock
          ==> s.lock[u] < |s.txs| && s.txs[s.lock[u]].req.userId == u && InSection(s.txs[s.lock[u]].phase))
  }

  predicate Newer(rows: seq<Row>, row: Row) {
    forall i :: 0 <= i < |rows| ==>
      rows[i].id != row.id && (rows[i].userId == row.userId ==> rows[i].id < row.id)
  }

  ghost predicate Logged(log: seq<Event>, t: nat, req: Request, answer: Answer) {
    exists k :: 0 <= k < |log| && log[k].PlaceEvent? && log[k].t == t && log[k].req == req && log[k].answer == answer
  }

  /** What one transaction knows, against the committed table. */
  ghost predicate TxOk(rows: seq<Row>, nextId: int, log: seq<Event>, t: nat, tx: Tx) {
    var req := tx.req;
    var free := ByKey(rows, req.userId, req.key).None?;
    WellFormed(req) &&
    match tx.phase
    case Queued => true
    case Locked => true
    case Found(row) => Logged(log, t, req, Replayed(row))
    case Missed => free
    case KnownUser => free
    case Sizing(close, size) => free && SizeOf(req, close) == Sized(size)
    case CashRead(close, size, cash) =>
      free && SizeOf(req, close) == Sized(size) && cash == AvailableCash(rows, req.userId)
    case Ready(close, size, cash, held) =>
      free && SizeOf(req, close) == Sized(size) && cash == AvailableCash(rows, req.userId)
      && held == HeldShares(rows, req.userId, req.instrumentId)
    case Inserted(quote, row) =>
      free && Place(rows, true, quote, req, row.id) == Created(row) && row.id < nextId && Newer(rows, row)
    case Refused(known, quote, answer) => free && !answer.Created? && answer == Place(rows, known, quote, req, 0)
    case Done(answer) => answer == Shed || Logged(log, t, req, answer)
  }

  ghost predicate TxsInv(rows: seq<Row>, nextId: int, log: seq<Event>, txs: seq<Tx>) {
    && (forall t :: 0 <= t < |txs| ==> TxOk(rows, nextId, log, t, txs[t]))
    && InsertsDistinct(txs)
  }

  predicate InsertsDistinct(txs: seq<Tx>) {
    forall t, t' :: 0 <= t < t' < |txs| && txs[t].phase.Inserted? && txs[t'].phase.Inserted?
      ==> txs[t].phase.row.id != txs[t'].phase.row.id
  }

  predicate IdsInv(s: State) {
    && IdsUnique(s.rows) && UserIdsIncrease(s.rows) && KeysUnique(s.rows)
    && (forall i :: 0 <= i < |s.rows| ==> s.rows[i].id < s.nextId)
  }

  /** Run one at a time, the calls of the history leave the table as it is. */
  predicate History(seed: seq<Row>, log: seq<Event>, rows: seq<Row>) {
    Serial(seed, log) && Replay(seed, log) == rows
  }

  /** A row was created only by a transaction that was told so. */
  predicate CreatedTold(log: seq<Event>, txs: seq<Tx>) {
    forall k :: 0 <= k < |log| && log[k].PlaceEvent? ==>
      && log[k].t < |txs|
      && (log[k].answer.Created? ==> txs[log[k].t].phase == Done(log[k].answer))
  }

  predicate StaleUnseen(log: seq<Event>) {
    forall k :: 0 <= k < |log| && StaleConflict(log[k]) ==> !log[k].seen
  }

  /** A cancel whose UPDATE saw the row and missed saw a final status. */
  predicate CancelsInv(s: State) {
    forall c :: 0 <= c < |s.cancels| && s.cancels[c].Missing? && s.cancels[c].seen ==>
      exists i :: 0 <= i < |s.rows| && s.rows[i].id == s.cancels[c].id && s.rows[i].status != New
  }

  /** Every answered cancel is in the history with its answer. */
  predicate CancelsLogged(log: seq<Event>, cancels: seq<CancelCall>) {
    forall c :: 0 <= c < |cancels| && cancels[c].CancelDone? ==>
      CancelEvent(cancels[c].id, cancels[c].seen, cancels[c].answer) in log
  }

  ghost predicate Inv(seed: seq<Row>, s: State) {
    LockInv(s) && TxsInv(s.rows, s.nextId, s.log, s.txs) && IdsInv(s) && CancelsInv(s)
    && History(seed, s.log, s.rows) && CreatedTold(s.log, s.txs) && StaleUnseen(s.log)
    && CancelsLogged(s.log, s.cancels)
  }

  /* ---- Frames ---- */

  lemma PlaceSameView(rows: seq<Row>, rows': seq<Row>, req: Request, known: bool, quote: Quote, id: int)
    requires SameView(rows, rows', req.userId)
    requires ByKey(rows, req.userId, req.key).None?
    ensures Place(rows, known, quote, req, id) == Place(rows', known, quote, req, id)
  {
  }

  /** What a transaction knows survives any change of table its user's view does not show. */
  lemma TxOkFrame(rows: seq<Row>, nextId: int, log: seq<Event>, rows': seq<Row>, nextId': int, log': seq<Event>,
                  t: nat, tx: Tx)
    requires TxOk(rows, nextId, log, t, tx) && nextId <= nextId' && log <= log'
    requires InSection(tx.phase) ==> SameView(rows, rows', tx.req.userId)
    requires tx.phase.Inserted? ==> Newer(rows', tx.phase.row)
    ensures TxOk(rows', nextId', log', t, tx)
  {
    if tx.phase.Found? || tx.phase.Done? {
      var answer := if tx.phase.Found? then Replayed(tx.phase.row) else tx.phase.answer;
      if answer != Shed {
        var k :| 0 <= k < |log| && log[k].PlaceEvent? && log[k].t == t && log[k].req == tx.req
          && log[k].answer == answer;
        assert log'[k] == log[k];
      }
    } else if tx.phase.Inserted? {
      PlaceSameView(rows, rows', tx.req, true, tx.phase.quote, tx.phase.row.id);
    } else if tx.phase.Refused? {
      PlaceSameView(rows, rows', tx.req, tx.phase.known, tx.phase.quote, 0);
    }
  }

  /** One more call at the end of a serial history. */
  lemma SerialAppend(seed: seq<Row>, log: seq<Event>, e: Event)
    requires Serial(seed, log)
    requires StaleConflict(e) || Faithful(Replay(seed, log), e)
    ensures History(seed, log + [e], Effect(Replay(seed, log), e))
  {
    var log' := log + [e];
    assert log'[..|log|] == log;
    forall k | 0 <= k < |log'| ensures StaleConflict(log'[k]) || Faithful(Replay(seed, log'[..k]), log'[k]) {
      if k < |log| {
        assert log'[..k] == log[..k];
      }
    }
  }

  /* ---- Steps ---- */

  lemma SeedInv(s: State)
    requires Seed(s)
    ensures Inv(s.rows, s)
  {
    forall i | 0 <= i < |s.rows| ensures s.rows[i].id < s.nextId {
      assert s.rows[i] in s.rows;
    }
  }

  /** Moves one transaction to a new phase, leaving the table as it is. */
  lemma TxsReplaced(rows: seq<Row>, nextId: int, log: seq<Event>, txs: seq<Tx>, nextId': int, log': seq<Event>,
                    t: nat, tx: Tx)
    requires TxsInv(rows, nextId, log, txs) && t < |txs|
    requires nextId <= nextId' && log <= log'
    requires TxOk(rows, nextId', log', t, tx)
    requires tx.phase.Inserted? ==> tx.phase.row.id == nextId
    ensures TxsInv(rows, nextId', log', txs[t := tx])
  {
    var txs' := txs[t := tx];
    forall t' | 0 <= t' < |txs'| ensures TxOk(rows, nextId', log', t', txs'[t']) {
      if t' != t {
        TxOkFrame(rows, nextId, log, rows, nextId', log', t', txs[t']);
      }
    }
    forall i, j | 0 <= i < j < |txs'| && txs'[i].phase.Inserted? && txs'[j].phase.Inserted?
      ensures txs'[i].phase.row.id != txs'[j].phase.row.id
    {
      assert i != t ==> TxOk(rows, nextId, log, i, txs[i]);
      assert j != t ==> TxOk(rows, nextId, log, j, txs[j]);
    }
  }

  lemma AdvanceKeepsLock(s: State, t: nat)
    requires LockInv(s) && Enabled(s, Advance(t))
    ensures LockInv(DoAdvance(s, t))
  {
  }

  lemma GiveUpKeepsLock(s: State, t: nat)
    requires LockInv(s) && Enabled(s, GiveUp(t))
    ensures LockInv(DoGiveUp(s, t))
  {
  }

  /** What a statement reads, refuses or writes is right by the table it ran on. */
  lemma NextReadOk(s: State, t: nat, log: seq<Event>, nextId: int, tx: Tx)
    requires TxOk(s.rows, s.nextId, s.log, t, tx) && IdsInv(s) && s.nextId <= nextId
    requires tx.phase.Queued? || tx.phase.Missed? || tx.phase.KnownUser? || tx.phase.Sizing? || tx.phase.CashRead?
             || (tx.phase.Ready? && nextId > s.nextId)
    ensures TxOk(s.rows, nextId, log, t, Tx(tx.req, NextPhase(s, tx)))
  {
  }

  /** What a statement logs, the log has. */
  lemma NextLogOk(s: State, t: nat, nextId: int, tx: Tx)
    requires TxOk(s.rows, s.nextId, s.log, t, tx)
    requires tx.phase.Locked? || tx.phase.Found? || tx.phase.Refused?
    ensures TxOk(s.rows, nextId, s.log + EventOf(s, t, tx), t, Tx(tx.req, NextPhase(s, tx)))
  {
    var (events, log) := (EventOf(s, t, tx), s.log + EventOf(s, t, tx));
    if events != [] {
      assert log[|s.log|] == events[0];
    } else if tx.phase.Found? {
      assert log == s.log;
    }
  }

  /** What a transaction has read is true of the table it read it from. */
  lemma NextPhaseOk(s: State, t: nat)
    requires Enabled(s, Advance(t)) && !s.txs[t].phase.Inserted?
    requires TxOk(s.rows, s.nextId, s.log, t, s.txs[t]) && IdsInv(s)
    ensures var s' := DoAdvance(s, t);
            s'.rows == s.rows && TxOk(s.rows, s'.nextId, s'.log, t, s'.txs[t])
  {
    var (s', tx) := (DoAdvance(s, t), s.txs[t]);
    if tx.phase.Locked? || tx.phase.Found? || tx.phase.Refused? {
      NextLogOk(s, t, s'.nextId, tx);
    } else {
      NextReadOk(s, t, s'.log, s'.nextId, tx);
    }
  }

  /** Where a placement takes effect, its answer is the one it gets running alone. */
  lemma EventFaithful(s: State, t: nat)
    requires Enabled(s, Advance(t)) && TxOk(s.rows, s.nextId, s.log, t, s.txs[t])
    ensures forall e :: e in EventOf(s, t, s.txs[t]) ==>
              && Faithful(s.rows, e) && Effect(s.rows, e) == DoAdvance(s, t).rows
              && e.PlaceEvent? && e.t == t
              && (e.answer.Created? ==> NextPhase(s, s.txs[t]) == Done(e.answer))
    ensures EventOf(s, t, s.txs[t]) == [] ==> DoAdvance(s, t).rows == s.rows
    ensures |EventOf(s, t, s.txs[t])| <= 1
  {
  }

  lemma AdvanceKeepsLog(seed: seq<Row>, s: State, t: nat)
    requires Enabled(s, Advance(t)) && TxOk(s.rows, s.nextId, s.log, t, s.txs[t])
    requires History(seed, s.log, s.rows)
    ensures var s' := DoAdvance(s, t); History(seed, s'.log, s'.rows)
  {
    EventFaithful(s, t);
    EventsAppend(seed, s.log, s.rows, EventOf(s, t, s.txs[t]), DoAdvance(s, t).rows);
  }

  lemma EventsAppend(seed: seq<Row>, log: seq<Event>, rows: seq<Row>, events: seq<Event>, rows': seq<Row>)
    requires History(seed, log, rows) && |events| <= 1
    requires forall e :: e in events ==> Faithful(rows, e) && Effect(rows, e) == rows'
    requires events == [] ==> rows' == rows
    ensures History(seed, log + events, rows')
  {
    if events == [] {
      assert log + events == log;
    } else {
      assert events[0] in events;
      SerialAppend(seed, log, events[0]);
      assert log + events == log + [events[0]];
    }
  }

  lemma AdvanceKeepsTold(s: State, t: nat)
    requires Enabled(s, Advance(t)) && CreatedTold(s.log, s.txs) && StaleUnseen(s.log)
    ensures CreatedTold(DoAdvance(s, t).log, DoAdvance(s, t).txs)
    ensures StaleUnseen(DoAdvance(s, t).log)
  {
  }

  lemma ReadKeepsInv(seed: seq<Row>, s: State, t: nat)
    requires Inv(seed, s) && Enabled(s, Advance(t)) && !s.txs[t].phase.Inserted?
    ensures Inv(seed, DoAdvance(s, t))
  {
    var s' := DoAdvance(s, t);
    assert TxOk(s.rows, s.nextId, s.log, t, s.txs[t]);
    AdvanceKeepsLock(s, t);
    NextPhaseOk(s, t);
    AdvanceKeepsLog(seed, s, t);
    AdvanceKeepsTold(s, t);
    ReadKeepsTxs(s, t);
  }

  lemma AdvanceShape(s: State, t: nat)
    requires Enabled(s, Advance(t))
    ensures var s' := DoAdvance(s, t);
            && s.log <= s'.log && s.nextId <= s'.nextId && s'.txs == s.txs[t := s'.txs[t]]
            && (s'.txs[t].phase.Inserted? ==> s'.txs[t].phase.row.id == s.nextId)
  {
  }

  lemma ReadKeepsTxs(s: State, t: nat)
    requires TxsInv(s.rows, s.nextId, s.log, s.txs) && Enabled(s, Advance(t)) && !s.txs[t].phase.Inserted?
    requires TxOk(s.rows, DoAdvance(s, t).nextId, DoAdvance(s, t).log, t, DoAdvance(s, t).txs[t])
    ensures var s' := DoAdvance(s, t); TxsInv(s.rows, s'.nextId, s'.log, s'.txs)
  {
    var s' := DoAdvance(s, t);
    AdvanceShape(s, t);
    TxsReplaced(s.rows, s.nextId, s.log, s.txs, s'.nextId, s'.log, t, s'.txs[t]);
  }

  lemma CommitKeepsTxs(s: State, t: nat)
    requires TxsInv(s.rows, s.nextId, s.log, s.txs) && LockInv(s) && Enabled(s, Advance(t)) && s.txs[t].phase.Inserted?
    ensures var s' := DoAdvance(s, t); TxsInv(s'.rows, s'.nextId, s'.log, s'.txs)
  {
    var s' := DoAdvance(s, t);
    var row := s.txs[t].phase.row;
    assert s'.log[|s.log|] == EventOf(s, t, s.txs[t])[0];
    forall t' | 0 <= t' < |s'.txs| ensures TxOk(s'.rows, s'.nextId, s'.log, t', s'.txs[t']) {
      assert TxOk(s.rows, s.nextId, s.log, t', s.txs[t']) && TxOk(s.rows, s.nextId, s.log, t, s.txs[t]);
      if t' != t {
        CommitKeepsOther(s, t, t', s'.log);
      }
    }
  }

  /** The lock's whole purpose: no other transaction in its section is this user's. */
  lemma CommitKeepsOther(s: State, t: nat, t': nat, log': seq<Event>)
    requires LockInv(s) && InsertsDistinct(s.txs) && s.log <= log'
    requires t < |s.txs| && s.txs[t].phase.Inserted? && s.txs[t].phase.row.userId == s.txs[t].req.userId
    requires t' < |s.txs| && t' != t && TxOk(s.rows, s.nextId, s.log, t', s.txs[t'])
    ensures TxOk(s.rows + [s.txs[t].phase.row], s.nextId, log', t', s.txs[t'])
  {
    var row := s.txs[t].phase.row;
    if InSection(s.txs[t'].phase) {
      assert s.txs[t'].req.userId != row.userId;
      OtherCommitKeepsView(s.rows, row, s.txs[t'].req.userId);
    }
    if s.txs[t'].phase.Inserted? {
      InsertStaysNewer(s.rows, s.txs[t'], row);
    }
    TxOkFrame(s.rows, s.nextId, s.log, s.rows + [row], s.nextId, log', t', s.txs[t']);
  }

  lemma InsertStaysNewer(rows: seq<Row>, tx: Tx, row: Row)
    requires tx.phase.Inserted? && Newer(rows, tx.phase.row)
    requires tx.phase.row.userId != row.userId && tx.phase.row.id != row.id
    ensures Newer(rows + [row], tx.phase.row)
  {
  }

  lemma CommitKeepsInv(seed: seq<Row>, s: State, t: nat)
    requires Inv(seed, s) && Enabled(s, Advance(t)) && s.txs[t].phase.Inserted?
    ensures Inv(seed, DoAdvance(s, t))
  {
    var s' := DoAdvance(s, t);
    AdvanceKeepsLock(s, t);
    assert TxOk(s.rows, s.nextId, s.log, t, s.txs[t]);
    AdvanceKeepsLog(seed, s, t);
    AdvanceKeepsTold(s, t);
    CommitKeepsTxs(s, t);
    CommitKeepsIds(s, s.txs[t].phase.row, s.txs[t].req.key);
    FinalRowsStay(s, s');
  }

  /** A final status stays where it is: rows are never removed, and only NEW ones move. */
  lemma FinalRowsStay(s: State, s': State)
    requires CancelsInv(s) && s'.cancels == s.cancels && s.rows <= s'.rows
    ensures CancelsInv(s')
  {
    forall c | 0 <= c < |s'.cancels| && s'.cancels[c].Missing? && s'.cancels[c].seen
      ensures exists i :: 0 <= i < |s'.rows| && s'.rows[i].id == s'.cancels[c].id && s'.rows[i].status != New
    {
      var i :| 0 <= i < |s.rows| && s.rows[i].id == s.cancels[c].id && s.rows[i].status != New;
      assert s'.rows[i] == s.rows[i];
    }
  }

  lemma CommitKeepsIds(s: State, row: Row, key: Key)
    requires IdsInv(s) && Newer(s.rows, row) && row.id < s.nextId
    requires row.key == Some(key) && ByKey(s.rows, row.userId, key).None?
    ensures IdsInv(s.(rows := s.rows + [row]))
  {
    forall i | 0 <= i < |s.rows| && s.rows[i].userId == row.userId ensures s.rows[i].key != Some(key) {
      assert s.rows[i] in s.rows;
    }
  }

  lemma AdvanceKeepsInv(seed: seq<Row>, s: State, t: nat)
    requires Inv(seed, s) && Enabled(s, Advance(t))
    ensures Inv(seed, DoAdvance(s, t))
  {
    if s.txs[t].phase.Inserted? {
      CommitKeepsInv(seed, s, t);
    } else {
      ReadKeepsInv(seed, s, t);
    }
  }

  /** A cancel moves one NEW row and shows nobody a different balance. */
  lemma CancelUpdateKeepsInv(seed: seq<Row>, s: State, id: int)
    requires Inv(seed, s)
    ensures Inv(seed, DoCancelUpdate(s, id))
  {
    UpdateKeepsFinal(s, id);
    if Cancel(s.rows, id).0.CancelOk? {
      UpdateKeepsHistory(seed, s, id);
      UpdateKeepsLog(s, id);
      UpdateKeepsTable(s, id, FindId(s.rows, id).value);
    } else {
      assert CancelsLogged(s.log, DoCancelUpdate(s, id).cancels);
    }
  }

  lemma UpdateKeepsHistory(seed: seq<Row>, s: State, id: int)
    requires History(seed, s.log, s.rows) && Cancel(s.rows, id).0.CancelOk?
    ensures var s' := DoCancelUpdate(s, id); History(seed, s'.log, s'.rows)
  {
    SerialAppend(seed, s.log, CancelEvent(id, true, Cancel(s.rows, id).0));
  }

  lemma UpdateKeepsLog(s: State, id: int)
    requires CreatedTold(s.log, s.txs) && StaleUnseen(s.log) && CancelsLogged(s.log, s.cancels)
    requires Cancel(s.rows, id).0.CancelOk?
    ensures var s' := DoCancelUpdate(s, id);
            CreatedTold(s'.log, s'.txs) && StaleUnseen(s'.log) && CancelsLogged(s'.log, s'.cancels)
  {
    CancelLogKept(s.log, s.txs, s.cancels, CancelEvent(id, true, Cancel(s.rows, id).0), DoCancelUpdate(s, id).cancels);
  }

  lemma UpdateKeepsTable(s: State, id: int, at: nat)
    requires TxsInv(s.rows, s.nextId, s.log, s.txs) && IdsInv(s)
    requires Cancel(s.rows, id).0.CancelOk? && FindId(s.rows, id) == Some(at)
    ensures var s' := DoCancelUpdate(s, id); TxsInv(s'.rows, s'.nextId, s'.log, s'.txs) && IdsInv(s')
  {
    CancelKeepsTxs(s, at, DoCancelUpdate(s, id).log);
  }

  /** What the log of a run records, with one cancel more. */
  lemma CancelLogKept(log: seq<Event>, txs: seq<Tx>, cancels: seq<CancelCall>, e: Event, cancels': seq<CancelCall>)
    requires CreatedTold(log, txs) && StaleUnseen(log) && CancelsLogged(log, cancels)
    requires e.CancelEvent? && (StaleConflict(e) ==> !e.seen)
    requires forall c :: 0 <= c < |cancels'| ==>
               (c < |cancels| && cancels'[c] == cancels[c]) || cancels'[c] == CancelDone(e.id, e.seen, e.cancelled)
    ensures CreatedTold(log + [e], txs) && StaleUnseen(log + [e]) && CancelsLogged(log + [e], cancels')
  {
    assert (log + [e])[|log|] == e;
    forall c | 0 <= c < |cancels'| && cancels'[c].CancelDone?
      ensures CancelEvent(cancels'[c].id, cancels'[c].seen, cancels'[c].answer) in log + [e]
    {
      assert c < |cancels| && cancels'[c] == cancels[c] ==>
        CancelEvent(cancels[c].id, cancels[c].seen, cancels[c].answer) in log;
    }
  }

  lemma UpdateKeepsFinal(s: State, id: int)
    requires CancelsInv(s)
    ensures CancelsInv(DoCancelUpdate(s, id))
  {
    var s' := DoCancelUpdate(s, id);
    forall c | 0 <= c < |s'.cancels| && s'.cancels[c].Missing? && s'.cancels[c].seen
      ensures exists i :: 0 <= i < |s'.rows| && s'.rows[i].id == s'.cancels[c].id && s'.rows[i].status != New
    {
      var i: nat;
      if c < |s.cancels| {
        i :| 0 <= i < |s.rows| && s.rows[i].id == s.cancels[c].id && s.rows[i].status != New;
      } else {
        i := FindId(s.rows, id).value;
      }
      assert s'.rows[i].id == s'.cancels[c].id && s'.rows[i].status != New;
    }
  }

  lemma CancelKeepsTxs(s: State, at: nat, log': seq<Event>)
    requires TxsInv(s.rows, s.nextId, s.log, s.txs) && at < |s.rows| && s.rows[at].status == New && s.log <= log'
    ensures TxsInv(s.rows[at := s.rows[at].(status := Cancelled)], s.nextId, log', s.txs)
  {
    var rows' := s.rows[at := s.rows[at].(status := Cancelled)];
    forall t | 0 <= t < |s.txs| ensures TxOk(rows', s.nextId, log', t, s.txs[t]) {
      CancelKeepsView(s.rows, at, s.txs[t].req.userId);
      TxOkFrame(s.rows, s.nextId, s.log, rows', s.nextId, log', t, s.txs[t]);
    }
  }

  lemma CancelRereadKeepsInv(seed: seq<Row>, s: State, c: nat)
    requires Inv(seed, s) && Enabled(s, CancelReread(c))
    ensures Inv(seed, DoCancelReread(s, c))
  {
    var s' := DoCancelReread(s, c);
    var e := s'.log[|s.log|];
    assert s'.log == s.log + [e];
    RereadFaithful(s, c);
    SerialAppend(seed, s.log, e);
    CancelLogKept(s.log, s.txs, s.cancels, e, s'.cancels);
    LogGrowthKeepsTxs(s.rows, s.nextId, s.log, s.txs, s'.log);
  }

  lemma LogGrowthKeepsTxs(rows: seq<Row>, nextId: int, log: seq<Event>, txs: seq<Tx>, log': seq<Event>)
    requires TxsInv(rows, nextId, log, txs) && log <= log'
    ensures TxsInv(rows, nextId, log', txs)
  {
    forall t | 0 <= t < |txs| ensures TxOk(rows, nextId, log', t, txs[t]) {
      TxOkFrame(rows, nextId, log, rows, nextId, log', t, txs[t]);
    }
  }

  /** The status re-read is the serial answer, unless it names NEW; and it names NEW only
      for a row the UPDATE came before. */
  lemma RereadFaithful(s: State, c: nat)
    requires CancelsInv(s) && IdsUnique(s.rows) && Enabled(s, CancelReread(c))
    ensures var e := DoCancelReread(s, c).log[|s.log|];
            && e.CancelEvent? && (StaleConflict(e) || Faithful(s.rows, e)) && Effect(s.rows, e) == s.rows
            && (StaleConflict(e) ==> !e.seen)
  {
    var call := s.cancels[c];
    if call.seen {
      var i :| 0 <= i < |s.rows| && s.rows[i].id == call.id && s.rows[i].status != New;
      assert s.rows[i] in s.rows;
    }
  }

  lemma GiveUpKeepsInv(seed: seq<Row>, s: State, t: nat)
    requires Inv(seed, s) && Enabled(s, GiveUp(t))
    ensures Inv(seed, DoGiveUp(s, t))
  {
    var s' := DoGiveUp(s, t);
    GiveUpKeepsLock(s, t);
    assert TxOk(s.rows, s.nextId, s.log, t, s.txs[t]);
    TxsReplaced(s.rows, s.nextId, s.log, s.txs, s.nextId, s.log, t, s'.txs[t]);
  }

  lemma BeginKeepsInv(seed: seq<Row>, s: State, req: Request)
    requires Inv(seed, s) && WellFormed(req)
    ensures Inv(seed, s.(txs := s.txs + [Tx(req, Queued)]))
  {
  }

  lemma NextKeepsInv(seed: seq<Row>, s: State, step: Step)
    requires Inv(seed, s)
    ensures Inv(seed, Next(s, step))
    ensures s.log <= Next(s, step).log
  {
    if Enabled(s, step) {
      match step
      case Begin(req) => BeginKeepsInv(seed, s, req);
      case Advance(t) => AdvanceKeepsInv(seed, s, t);
      case GiveUp(t) => GiveUpKeepsInv(seed, s, t);
      case CancelUpdate(id) => CancelUpdateKeepsInv(seed, s, id);
      case CancelReread(c) => CancelRereadKeepsInv(seed, s, c);
      case MarketMove(_, _) =>
    }
  }

  /** Every run from a seeded table keeps the invariant. */
  lemma {:induction false} Reachable(s: State, steps: seq<Step>)
    requires Seed(s)
    ensures Inv(s.rows, Run(s, steps))
  {
    if steps == [] {
      SeedInv(s);
    } else {
      Reachable(s, steps[..|steps| - 1]);
      NextKeepsInv(s.rows, Run(s, steps[..|steps| - 1]), steps[|steps| - 1]);
    }
  }
}
