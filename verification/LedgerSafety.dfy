/** What any serial history, and so any run of the protocol, does to the money: no user is
    overdrawn, no position is sold below where the seed left it. */
module LedgerSafety {
  import opened OrderRules
  import opened SeqSum
  import opened Ledger
  import opened Placement
  import opened Protocol
  import opened ProtocolInvariant
  import opened Serializability

  /** No prefix of the table leaves the user's cash below zero. */
  predicate Solvent(rows: seq<Row>, user: int) {
    forall n :: 0 <= n <= |rows| ==> CashFold(rows[..n], user) >= 0
  }

  function Min(a: int, b: int): int { if a <= b then a else b }

  /** Past the first `from` rows, no row leaves its position both below zero and below
      where it found it. */
  ghost predicate Covered(rows: seq<Row>, from: nat) {
    forall n, instrument :: from <= n < |rows| ==>
      SharesFold(rows[..n + 1], rows[n].userId, instrument)
        >= Min(0, SharesFold(rows[..n], rows[n].userId, instrument))
  }

  /** The rows the seed left keep their ids and owners. */
  predicate SeedStays(seed: seq<Row>, rows: seq<Row>) {
    |seed| <= |rows| && forall i :: 0 <= i < |seed| ==> SameOrMoved(seed[i], rows[i])
  }

  lemma CancelKeepsPrefixFolds(rows: seq<Row>, at: nat, n: nat, user: int, instrument: int)
    requires at < |rows| && n <= |rows| && rows[at].status == New
    ensures var rows' := rows[at := rows[at].(status := Cancelled)];
            && CashFold(rows'[..n], user) == CashFold(rows[..n], user)
            && SharesFold(rows'[..n], user, instrument) == SharesFold(rows[..n], user, instrument)
  {
    var row := rows[at].(status := Cancelled);
    if n <= at {
      assert rows[at := row][..n] == rows[..n];
    } else {
      assert rows[at := row][..n] == rows[..n][at := row];
      SumUpdate(rows[..n], at, row, CashOf(user));
      SumUpdate(rows[..n], at, row, SharesOf(user, instrument));
    }
  }

  lemma CancelKeepsSafe(rows: seq<Row>, at: nat, from: nat, user: int)
    requires at < |rows| && rows[at].status == New
    ensures var rows' := rows[at := rows[at].(status := Cancelled)];
            (Solvent(rows, user) ==> Solvent(rows', user)) && (Covered(rows, from) ==> Covered(rows', from))
  {
    var rows' := rows[at := rows[at].(status := Cancelled)];
    forall n | 0 <= n <= |rows'| ensures CashFold(rows'[..n], user) == CashFold(rows[..n], user) {
      CancelKeepsPrefixFolds(rows, at, n, user, 0);
    }
    if Covered(rows, from) {
      forall n, i | from <= n < |rows'|
        ensures SharesFold(rows'[..n + 1], rows'[n].userId, i) >= Min(0, SharesFold(rows'[..n], rows'[n].userId, i))
      {
        CancelKeepsPrefixFolds(rows, at, n, rows[n].userId, i);
        CancelKeepsPrefixFolds(rows, at, n + 1, rows[n].userId, i);
        assert rows'[n].userId == rows[n].userId;
      }
    }
  }

  /** A row the rules accepted pays for itself out of the table it was decided on. */
  lemma CreatedPaysForItself(rows: seq<Row>, e: Event, user: int, instrument: int)
    requires e.PlaceEvent? && e.answer.Created? && Faithful(rows, e)
    ensures var row := e.answer.row;
            && CashFold(rows, user) + CashOf(user)(row) >= Min(0, CashFold(rows, user))
            && SharesFold(rows, row.userId, instrument) + SharesOf(row.userId, instrument)(row)
                 >= Min(0, SharesFold(rows, row.userId, instrument))
  {
    AcceptedIsCovered(rows, e.known, e.quote, e.req, e.id);
    CoveredRowPays(rows, e.answer.row, user, instrument);
  }

  lemma CoveredRowPays(rows: seq<Row>, row: Row, user: int, instrument: int)
    requires (row.side.Buy? || row.side.Sell?) && row.price >= 0 && row.size >= 1
    requires row.status.Filled? ==>
               if row.side.Buy? then CashFold(rows, row.userId) >= row.price * row.size
               else SharesFold(rows, row.userId, row.instrumentId) >= row.size
    ensures CashFold(rows, user) + CashOf(user)(row) >= Min(0, CashFold(rows, user))
    ensures SharesFold(rows, row.userId, instrument) + SharesOf(row.userId, instrument)(row)
              >= Min(0, SharesFold(rows, row.userId, instrument))
  {
    TradeDelta(row);
    assert row.price * row.size >= 0;
  }

  lemma AppendIsSafe(rows: seq<Row>, row: Row, from: nat, user: int)
    requires CashFold(rows, user) + CashOf(user)(row) >= Min(0, CashFold(rows, user))
    requires forall i :: SharesFold(rows, row.userId, i) + SharesOf(row.userId, i)(row)
                           >= Min(0, SharesFold(rows, row.userId, i))
    ensures Solvent(rows, user) ==> Solvent(rows + [row], user)
    ensures Covered(rows, from) ==> Covered(rows + [row], from)
  {
    var rows' := rows + [row];
    assert rows'[..|rows|] == rows && rows'[..|rows| + 1] == rows';
    assert forall n :: 0 <= n <= |rows| ==> rows'[..n] == rows[..n];
    SumAppend(rows, row, CashOf(user));
    assert rows[..|rows|] == rows;
    if Covered(rows, from) {
      forall n, i | from <= n < |rows'|
        ensures SharesFold(rows'[..n + 1], rows'[n].userId, i) >= Min(0, SharesFold(rows'[..n], rows'[n].userId, i))
      {
        if n == |rows| {
          SumAppend(rows, row, SharesOf(row.userId, i));
        }
      }
    }
  }

  /** Any serial history: solvent stays solvent, and nothing is sold that was not held. */
  lemma {:induction false} SerialIsSafe(seed: seq<Row>, log: seq<Event>, user: int)
    requires Serial(seed, log)
    ensures var rows := Replay(seed, log);
            && SeedStays(seed, rows)
            && (Solvent(seed, user) ==> Solvent(rows, user))
            && Covered(rows, |seed|)
  {
    if log != [] {
      var n := |log| - 1;
      var rows, e := Replay(seed, log[..n]), log[n];
      SerialPrefix(seed, log, n);
      SerialIsSafe(seed, log[..n], user);
      assert StaleConflict(e) || Faithful(rows, e);
      if e.PlaceEvent? && e.answer.Created? {
        forall i ensures SharesFold(rows, e.answer.row.userId, i) + SharesOf(e.answer.row.userId, i)(e.answer.row)
                           >= Min(0, SharesFold(rows, e.answer.row.userId, i))
        {
          CreatedPaysForItself(rows, e, user, i);
        }
        CreatedPaysForItself(rows, e, user, 0);
        AppendIsSafe(rows, e.answer.row, |seed|, user);
      } else if e.CancelEvent? && Cancel(rows, e.id).0.CancelOk? {
        CancelKeepsSafe(rows, FindId(rows, e.id).value, |seed|, user);
      }
    }
  }

  /** No interleaving overdraws a user or oversells a position, whatever the closes do. */
  lemma ReachableIsSafe(s: State, steps: seq<Step>, user: int)
    requires Seed(s)
    ensures var rows := Run(s, steps).rows;
            && SeedStays(s.rows, rows)
            && (Solvent(s.rows, user) ==> Solvent(rows, user))
            && Covered(rows, |s.rows|)
  {
    Reachable(s, steps);
    SerialIsSafe(s.rows, Run(s, steps).log, user);
  }

  /** A position never goes under the lower of zero and what the seed left it at. */
  lemma {:induction false} PositionFloor(rows: seq<Row>, from: nat, n: nat, user: int, instrument: int)
    requires Covered(rows, from) && from <= n <= |rows|
    ensures SharesFold(rows[..n], user, instrument) >= Min(0, SharesFold(rows[..from], user, instrument))
  {
    if n > from {
      PositionFloor(rows, from, n - 1, user, instrument);
      assert rows[..n][..n - 1] == rows[..n - 1];
      assert rows[..n][n - 1] == rows[n - 1];
      if rows[n - 1].userId == user {
        assert rows[..(n - 1) + 1] == rows[..n];
      }
    }
  }
}
