/** The load engine's ledger checks, loop by loop, each proved to report exactly the breaches
    its name says. Rows arrive in id order. */
module Checkers {
  import opened Options
  import opened OrderRules
  import opened SeqSum
  import opened Ledger
  import opened LedgerSafety
  import opened Money

  function OfUser(rows: seq<Row>, user: int): seq<Row> {
    if rows == [] then []
    else
      var last := rows[|rows| - 1];
      OfUser(rows[..|rows| - 1], user) + if last.userId == user then [last] else []
  }

  /** Folding a user out of the table is folding the user's own rows. */
  lemma {:induction false} OfUserFolds(rows: seq<Row>, user: int, instrument: int)
    ensures CashFold(OfUser(rows, user), user) == CashFold(rows, user)
    ensures SharesFold(OfUser(rows, user), user, instrument) == SharesFold(rows, user, instrument)
  {
    if rows != [] {
      var n := |rows| - 1;
      OfUserFolds(rows[..n], user, instrument);
      SumAppend(OfUser(rows[..n], user), rows[n], CashOf(user));
      SumAppend(OfUser(rows[..n], user), rows[n], SharesOf(user, instrument));
      assert OfUser(rows[..n], user) + [] == OfUser(rows[..n], user);
    }
  }

  /** The user's rows up to a point of the table are a prefix of the user's rows. */
  lemma {:induction false} OfUserPrefix(rows: seq<Row>, n: nat, user: int)
    requires n <= |rows|
    ensures OfUser(rows[..n], user) <= OfUser(rows, user)
  {
    if n == |rows| {
      assert rows[..n] == rows;
    } else {
      OfUserPrefix(rows[..|rows| - 1], n, user);
      assert rows[..|rows| - 1][..n] == rows[..n];
    }
  }

  /** Every prefix of a user's rows ends at one row of the table. */
  lemma {:induction false} OfUserReaches(rows: seq<Row>, user: int, k: nat) returns (n: nat)
    requires k <= |OfUser(rows, user)|
    ensures n <= |rows| && OfUser(rows[..n], user) == OfUser(rows, user)[..k]
    ensures k > 0 ==> n > 0 && rows[n - 1] == OfUser(rows, user)[k - 1] && rows[n - 1].userId == user
    ensures k > 0 ==> OfUser(rows[..n - 1], user) == OfUser(rows, user)[..k - 1]
  {
    if k == 0 {
      n := 0;
    } else if k < |OfUser(rows, user)| || rows[|rows| - 1].userId != user {
      n := OfUserReaches(rows[..|rows| - 1], user, k);
      assert rows[..|rows| - 1][..n] == rows[..n] && rows[..|rows| - 1][..n - 1] == rows[..n - 1];
    } else {
      n := |rows|;
      assert rows[..n] == rows;
    }
  }

  /* ---- byUser ---- */

  /** Among the first `n` rows, one of `u` comes before any of `v`. */
  ghost predicate SeenFirst(rows: seq<Row>, n: nat, u: int, v: int)
    requires n <= |rows|
  {
    exists i :: 0 <= i < n && rows[i].userId == u && forall j :: 0 <= j <= i ==> rows[j].userId != v
  }

  lemma StaysFirst(rows: seq<Row>, n: nat, u: int, v: int)
    requires n < |rows| && SeenFirst(rows, n, u, v)
    ensures SeenFirst(rows, n + 1, u, v)
  {
  }

  lemma NewestIsLast(rows: seq<Row>, n: nat, u: int)
    requires n < |rows| && rows[n].userId != u && exists i :: 0 <= i < n && rows[i].userId == u
    requires forall i :: 0 <= i < n ==> rows[i].userId != rows[n].userId
    ensures SeenFirst(rows, n + 1, u, rows[n].userId)
  {
  }

  lemma OrderStays(rows: seq<Row>, n: nat, order: seq<int>)
    requires n < |rows| && forall i, j :: 0 <= i < j < |order| ==> SeenFirst(rows, n, order[i], order[j])
    ensures forall i, j :: 0 <= i < j < |order| ==> SeenFirst(rows, n + 1, order[i], order[j])
  {
    forall i, j | 0 <= i < j < |order| ensures SeenFirst(rows, n + 1, order[i], order[j]) {
      StaysFirst(rows, n, order[i], order[j]);
    }
  }

  lemma NewestComesLast(rows: seq<Row>, n: nat, order: seq<int>)
    requires n < |rows| && rows[n].userId !in order
    requires forall u :: u in order ==> HasRow(rows, n, u)
    requires !HasRow(rows, n, rows[n].userId)
    ensures forall i :: 0 <= i < |order| ==> SeenFirst(rows, n + 1, order[i], rows[n].userId)
  {
    forall i | 0 <= i < |order| ensures SeenFirst(rows, n + 1, order[i], rows[n].userId) {
      assert order[i] in order;
      NewestIsLast(rows, n, order[i]);
    }
  }

  ghost predicate HasRow(rows: seq<Row>, n: nat, u: int)
    requires n <= |rows|
  {
    exists i :: 0 <= i < n && rows[i].userId == u
  }

  /** The first `n` rows, grouped. */
  ghost predicate Grouped(rows: seq<Row>, n: nat, grouped: map<int, seq<Row>>)
    requires n <= |rows|
  {
    && (forall u :: u in grouped <==> HasRow(rows, n, u))
    && (forall u :: u in grouped ==> grouped[u] == OfUser(rows[..n], u))
  }

  /** Their users, first seen first. */
  ghost predicate Ordered(rows: seq<Row>, n: nat, order: seq<int>)
    requires n <= |rows|
  {
    && (forall u :: u in order <==> HasRow(rows, n, u))
    && (forall i, j :: 0 <= i < j < |order| ==> order[i] != order[j] && SeenFirst(rows, n, order[i], order[j]))
  }

  lemma HasRowNext(rows: seq<Row>, n: nat)
    requires n < |rows|
    ensures forall u :: HasRow(rows, n + 1, u) <==> HasRow(rows, n, u) || u == rows[n].userId
  {
    assert HasRow(rows, n + 1, rows[n].userId);
  }

  lemma RowsNext(rows: seq<Row>, n: nat)
    requires n < |rows|
    ensures forall u :: OfUser(rows[..n + 1], u) ==
                        if u == rows[n].userId then OfUser(rows[..n], u) + [rows[n]] else OfUser(rows[..n], u)
  {
    assert rows[..n + 1][..n] == rows[..n];
  }

  lemma GroupedNext(rows: seq<Row>, n: nat, grouped: map<int, seq<Row>>)
    requires n < |rows| && Grouped(rows, n, grouped)
    ensures var u := rows[n].userId;
            Grouped(rows, n + 1, grouped[u := (if u in grouped then grouped[u] else []) + [rows[n]]])
  {
    HasRowNext(rows, n);
    RowsNext(rows, n);
    if rows[n].userId !in grouped {
      NoRowsOfUser(rows[..n], rows[n].userId);
    }
  }

  lemma OrderedNext(rows: seq<Row>, n: nat, order: seq<int>)
    requires n < |rows| && Ordered(rows, n, order)
    ensures Ordered(rows, n + 1, if HasRow(rows, n, rows[n].userId) then order else order + [rows[n].userId])
  {
    HasRowNext(rows, n);
    OrderStays(rows, n, order);
    if !HasRow(rows, n, rows[n].userId) {
      NewestComesLast(rows, n, order);
    }
  }

  /** Each user's rows in table order, and the users in the order their first rows come. */
  method ByUser(rows: seq<Row>) returns (order: seq<int>, grouped: map<int, seq<Row>>)
    ensures forall u :: u in grouped <==> exists i :: 0 <= i < |rows| && rows[i].userId == u
    ensures forall u :: u in grouped ==> grouped[u] == OfUser(rows, u)
    ensures forall u :: u in order <==> u in grouped
    ensures forall i, j :: 0 <= i < j < |order| ==> order[i] != order[j] && SeenFirst(rows, |rows|, order[i], order[j])
  {
    order, grouped := [], map[];
    for n := 0 to |rows|
      invariant Grouped(rows, n, grouped) && Ordered(rows, n, order)
    {
      var row := rows[n];
      GroupedNext(rows, n, grouped);
      OrderedNext(rows, n, order);
      if row.userId !in grouped {
        order := order + [row.userId];
      }
      var held := if row.userId in grouped then grouped[row.userId] else [];
      grouped := grouped[row.userId := held + [row]];
    }
    assert rows[..|rows|] == rows;
    assert forall u :: u in grouped <==> HasRow(rows, |rows|, u);
  }

  lemma {:induction false} NoRowsOfUser(rows: seq<Row>, user: int)
    requires forall i :: 0 <= i < |rows| ==> rows[i].userId != user
    ensures OfUser(rows, user) == []
  {
    if rows != [] {
      NoRowsOfUser(rows[..|rows| - 1], user);
    }
  }

  /* ---- no_overdraft ---- */

  datatype Overdraft = Overdraft(userId: int, low: int, lowAt: int)

  /** The breach names the user's lowest fold and the first row that reached it. */
  ghost predicate FirstLowest(rows: seq<Row>, b: Overdraft) {
    && b.low < 0
    && (forall n :: 0 <= n <= |rows| ==> CashFold(rows[..n], b.userId) >= b.low)
    && exists n :: 0 <= n < |rows| && LowAt(rows, b.userId, n, b.low, b.lowAt) && rows[n].userId == b.userId
  }

  /** The fold first reaches `low` at row n, whose id is `at`. */
  predicate LowAt(rows: seq<Row>, user: int, n: nat, low: int, at: int)
    requires n < |rows|
  {
    && rows[n].id == at && CashFold(rows[..n + 1], user) == low
    && forall m :: 0 <= m <= n ==> CashFold(rows[..m], user) > low
  }

  /** The running minimum of one user's own rows. */
  method LowestFold(owned: seq<Row>, user: int) returns (low: int, at: int)
    ensures low <= 0 && (low == 0 ==> forall n :: 0 <= n <= |owned| ==> CashFold(owned[..n], user) >= 0)
    ensures low < 0 ==> exists n :: 0 <= n < |owned| && LowAt(owned, user, n, low, at)
    ensures forall n :: 0 <= n <= |owned| ==> CashFold(owned[..n], user) >= low
    requires forall row :: row in owned ==> row.userId == user
  {
    var fold := 0;
    low, at := 0, 0;
    for k := 0 to |owned|
      invariant fold == CashFold(owned[..k], user)
      invariant low <= 0
      invariant low < 0 ==> exists n :: 0 <= n < k && LowAt(owned, user, n, low, at)
      invariant forall n :: 0 <= n <= k ==> CashFold(owned[..n], user) >= low
    {
      assert owned[..k + 1][..k] == owned[..k];
      fold := fold + CashDelta(owned[k]);
      if fold < low {
        low, at := fold, owned[k].id;
        assert LowAt(owned, user, k, low, at);
      }
    }
  }

  predicate Names(breaches: seq<Overdraft>, user: int) {
    exists b :: b in breaches && b.userId == user
  }

  /** The check fails for a user exactly when some prefix of the table leaves that user's cash
      below zero; each failure is one user's first lowest point. */
  method NoOverdraft(rows: seq<Row>) returns (pass: bool, breaches: seq<Overdraft>)
    ensures pass <==> forall u :: Solvent(rows, u)
    ensures forall u :: Names(breaches, u) <==> !Solvent(rows, u)
    ensures forall b :: b in breaches ==> FirstLowest(rows, b)
    ensures forall b :: b in breaches ==>
              && b.low < 0 && (forall n :: 0 <= n <= |rows| ==> CashFold(rows[..n], b.userId) >= b.low)
              && exists n :: 0 <= n < |rows| && rows[n].id == b.lowAt && CashFold(rows[..n + 1], b.userId) == b.low
                             && forall m :: 0 <= m <= n ==> CashFold(rows[..m], b.userId) > b.low
    ensures forall i, j :: 0 <= i < j < |breaches| ==> breaches[i].userId != breaches[j].userId
  {
    var order, grouped := ByUser(rows);
    breaches := [];
    for k := 0 to |order|
      invariant forall b :: b in breaches ==> FirstLowest(rows, b) && b.userId in order[..k]
      invariant forall u :: u in order[..k] && !Solvent(rows, u) ==> Names(breaches, u)
      invariant forall i, j :: 0 <= i < j < |breaches| ==> breaches[i].userId != breaches[j].userId
    {
      var low, at := LowestFold(grouped[order[k]], order[k]) by { OwnedByUser(rows, order[k]); }
      SolventOfOwned(rows, order[k], low, at);
      assert order[..k + 1] == order[..k] + [order[k]];
      if low < 0 {
        breaches := AddOverdraft(breaches, Overdraft(order[k], low, at));
      }
    }
    assert order[..|order|] == order;
    forall u ensures Names(breaches, u) <==> !Solvent(rows, u) {
      if u !in order {
        StrangerIsSolvent(rows, u);
      }
      if Names(breaches, u) {
        NamedIsOverdrawn(rows, breaches, u);
      }
    }
    pass := breaches == [];
    EmptyIffNobodyNamed(breaches);
  }

  function AddOverdraft(breaches: seq<Overdraft>, b: Overdraft): (r: seq<Overdraft>)
    ensures r == breaches + [b]
    ensures forall u :: Names(r, u) <==> Names(breaches, u) || u == b.userId
  {
    assert b in breaches + [b];
    breaches + [b]
  }

  lemma EmptyIffNobodyNamed(breaches: seq<Overdraft>)
    ensures breaches == [] <==> forall u :: !Names(breaches, u)
  {
    if breaches != [] {
      assert breaches[0] in breaches;
      assert Names(breaches, breaches[0].userId);
    }
  }

  lemma NamedIsOverdrawn(rows: seq<Row>, breaches: seq<Overdraft>, user: int)
    requires Names(breaches, user) && forall b :: b in breaches ==> FirstLowest(rows, b)
    ensures !Solvent(rows, user)
  {
  }

  lemma {:induction false} OwnedByUser(rows: seq<Row>, user: int)
    ensures forall row :: row in OfUser(rows, user) ==> row.userId == user && row in rows
  {
    if rows != [] {
      OwnedByUser(rows[..|rows| - 1], user);
    }
  }

  lemma StrangerIsSolvent(rows: seq<Row>, user: int)
    requires forall i :: 0 <= i < |rows| ==> rows[i].userId != user
    ensures Solvent(rows, user)
  {
    forall n | 0 <= n <= |rows| ensures CashFold(rows[..n], user) >= 0 {
      SumZero(rows[..n], CashOf(user));
    }
  }

  lemma FoldOfPrefix(rows: seq<Row>, user: int, n: nat)
    requires n <= |rows|
    ensures var k := |OfUser(rows[..n], user)|;
            k <= |OfUser(rows, user)| && CashFold(rows[..n], user) == CashFold(OfUser(rows, user)[..k], user)
  {
    OfUserPrefix(rows, n, user);
    OfUserFolds(rows[..n], user, 0);
    assert OfUser(rows[..n], user) == OfUser(rows, user)[..|OfUser(rows[..n], user)|];
  }

  /** The user's fold over the table is never under a bound its own rows keep. */
  lemma BoundOfOwned(rows: seq<Row>, user: int, low: int)
    requires forall k :: 0 <= k <= |OfUser(rows, user)| ==> CashFold(OfUser(rows, user)[..k], user) >= low
    ensures forall n :: 0 <= n <= |rows| ==> CashFold(rows[..n], user) >= low
  {
    forall n | 0 <= n <= |rows| ensures CashFold(rows[..n], user) >= low {
      FoldOfPrefix(rows, user, n);
    }
  }

  /** The lowest point of the user's own rows is the lowest point of the table. */
  lemma SolventOfOwned(rows: seq<Row>, user: int, low: int, at: int)
    requires var owned := OfUser(rows, user);
             && low <= 0 && (forall k :: 0 <= k <= |owned| ==> CashFold(owned[..k], user) >= low)
             && (low < 0 ==> exists k :: 0 <= k < |owned| && LowAt(owned, user, k, low, at))
    ensures low == 0 ==> Solvent(rows, user)
    ensures low < 0 ==> FirstLowest(rows, Overdraft(user, low, at))
  {
    var owned := OfUser(rows, user);
    BoundOfOwned(rows, user, low);
    if low < 0 {
      var k :| 0 <= k < |owned| && LowAt(owned, user, k, low, at);
      var n := LowOfOwned(rows, user, k, low, at);
      assert LowAt(rows, user, n, low, at) && rows[n].userId == user;
    }
  }

  lemma LowOfOwned(rows: seq<Row>, user: int, k: nat, low: int, at: int) returns (n: nat)
    requires k < |OfUser(rows, user)| && LowAt(OfUser(rows, user), user, k, low, at)
    ensures n < |rows| && LowAt(rows, user, n, low, at) && rows[n].userId == user
  {
    var reached := OfUserReaches(rows, user, k + 1);
    n := reached - 1;
    assert rows[..n + 1] == rows[..reached];
    OfUserFolds(rows[..reached], user, 0);
    var owned := OfUser(rows, user);
    assert owned[..k + 1][..k] == owned[..k];
    forall m | 0 <= m <= n ensures CashFold(rows[..m], user) > low {
      FoldOfPrefix(rows[..n], user, m);
      assert rows[..n][..m] == rows[..m];
      var j := |OfUser(rows[..m], user)|;
      assert j <= k && owned[..k][..j] == owned[..j];
    }
  }

  /* ---- no_oversell ---- */

  /** The lowest the position had been by the last row at or under the mark: zero or less. */
  function Floor(rows: seq<Row>, user: int, instrument: int, mark: int): int {
    if rows == [] then 0
    else
      var last, below := rows[|rows| - 1], Floor(rows[..|rows| - 1], user, instrument, mark);
      if last.userId == user && last.instrumentId == instrument && last.id <= mark
      then Min(below, SharesFold(rows, user, instrument)) else below
  }

  datatype Oversold = Oversold(userId: int, instrumentId: int, orderId: int, fold: int, floor: int)

  /** Row n, past the mark, leaves its position under its floor. */
  predicate Sinks(rows: seq<Row>, n: nat, mark: int)
    requires n < |rows|
  {
    var row := rows[n];
    row.id > mark && SharesFold(rows[..n + 1], row.userId, row.instrumentId)
                       < Floor(rows[..n], row.userId, row.instrumentId, mark)
  }

  /** Every sinking row, in order. */
  function Oversells(rows: seq<Row>, mark: int): seq<Oversold> {
    if rows == [] then []
    else
      var n := |rows| - 1;
      var row := rows[n];
      Oversells(rows[..n], mark)
      + if row.id > mark
           && SharesFold(rows, row.userId, row.instrumentId) < Floor(rows[..n], row.userId, row.instrumentId, mark)
        then [Oversold(row.userId, row.instrumentId, row.id, SharesFold(rows, row.userId, row.instrumentId),
                       Floor(rows[..n], row.userId, row.instrumentId, mark))]
        else []
  }

  datatype Running = Running(fold: int, floor: int)

  function RunningOf(folds: map<(int, int), Running>, key: (int, int)): Running {
    if key in folds then folds[key] else Running(0, 0)
  }

  /** One pass over the rows with a running fold and floor for each position, users and
      instruments interleaved however they come. */
  method NoOversell(rows: seq<Row>, mark: int) returns (pass: bool, breaches: seq<Oversold>)
    ensures pass <==> forall n :: 0 <= n < |rows| ==> !Sinks(rows, n, mark)
    ensures breaches == Oversells(rows, mark)
  {
    var folds: map<(int, int), Running> := map[];
    breaches := [];
    for n := 0 to |rows|
      invariant forall u, i ::
                  RunningOf(folds, (u, i)) == Running(SharesFold(rows[..n], u, i), Floor(rows[..n], u, i, mark))
      invariant breaches == Oversells(rows[..n], mark)
    {
      var row := rows[n];
      assert rows[..n + 1][..n] == rows[..n];
      var key := (row.userId, row.instrumentId);
      var position := RunningOf(folds, key);
      position := position.(fold := position.fold + ShareDelta(row));
      if row.id <= mark {
        position := position.(floor := Min(position.floor, position.fold));
      } else if position.fold < position.floor {
        breaches := breaches + [Oversold(row.userId, row.instrumentId, row.id, position.fold, position.floor)];
      }
      folds := folds[key := position];
    }
    assert rows[..|rows|] == rows;
    NothingOversoldIff(rows, mark);
    pass := breaches == [];
  }

  /** The check passes exactly when no row sinks. */
  lemma {:induction false} NothingOversoldIff(rows: seq<Row>, mark: int)
    ensures Oversells(rows, mark) == [] <==> forall n :: 0 <= n < |rows| ==> !Sinks(rows, n, mark)
  {
    if rows != [] {
      var n := |rows| - 1;
      NothingOversoldIff(rows[..n], mark);
      assert rows[..n + 1] == rows;
      forall k | 0 <= k < n ensures Sinks(rows[..n], k, mark) <==> Sinks(rows, k, mark) {
        assert rows[..n][..k] == rows[..k];
        assert rows[..n][..k + 1] == rows[..k + 1];
      }
      assert Oversells(rows, mark) == [] <==> Oversells(rows[..n], mark) == [] && !Sinks(rows, n, mark);
    }
  }

  predicate SortedById(rows: seq<Row>) {
    forall i, j :: 0 <= i < j < |rows| ==> rows[i].id < rows[j].id
  }

  /** Over rows in id order the floor is under every fold up to the mark ... */
  lemma {:induction false} FloorIsUnder(rows: seq<Row>, user: int, instrument: int, mark: int, m: nat)
    requires SortedById(rows) && m <= |rows| && (m == 0 || rows[m - 1].id <= mark)
    ensures Floor(rows, user, instrument, mark) <= SharesFold(rows[..m], user, instrument)
    ensures Floor(rows, user, instrument, mark) <= 0
  {
    if rows != [] {
      var n := |rows| - 1;
      if m <= n {
        FloorIsUnder(rows[..n], user, instrument, mark, m);
        assert rows[..n][..m] == rows[..m];
      } else {
        assert n == 0 || rows[n - 1].id <= mark;
        FloorIsUnder(rows[..n], user, instrument, mark, n);
        assert rows[..n][..n] == rows[..n] && rows[..m] == rows;
      }
    }
  }

  /** ... and is one of them: it is their minimum. */
  lemma {:induction false} FloorIsReached(rows: seq<Row>, user: int, instrument: int, mark: int) returns (at: nat)
    ensures at <= |rows| && (at == 0 || rows[at - 1].id <= mark)
    ensures Floor(rows, user, instrument, mark) == SharesFold(rows[..at], user, instrument)
  {
    if rows == [] {
      at := 0;
    } else {
      var n := |rows| - 1;
      at := FloorIsReached(rows[..n], user, instrument, mark);
      assert rows[..n][..at] == rows[..at];
      if Floor(rows, user, instrument, mark) != Floor(rows[..n], user, instrument, mark) {
        at := |rows|;
        assert rows[..at] == rows;
      }
    }
  }

  /** Row n sank its position, and `b` is the position, the row, what that left and how low it had been. */
  predicate SunkBy(rows: seq<Row>, n: nat, mark: int, b: Oversold)
    requires n < |rows|
  {
    var row := rows[n];
    Sinks(rows, n, mark) && b == Oversold(row.userId, row.instrumentId, row.id,
                                          SharesFold(rows[..n + 1], row.userId, row.instrumentId),
                                          Floor(rows[..n], row.userId, row.instrumentId, mark))
  }

  lemma {:induction false} OversellsNamed(rows: seq<Row>, mark: int, b: Oversold)
    ensures b in Oversells(rows, mark) <==> exists n :: 0 <= n < |rows| && SunkBy(rows, n, mark, b)
  {
    if rows != [] {
      var last := |rows| - 1;
      OversellsNamed(rows[..last], mark, b);
      LastSinks(rows, mark, b);
      forall n | 0 <= n < last ensures SunkBy(rows[..last], n, mark, b) <==> SunkBy(rows, n, mark, b) {
        assert rows[..last][..n] == rows[..n] && rows[..last][..n + 1] == rows[..n + 1];
      }
      if n :| 0 <= n < last && SunkBy(rows[..last], n, mark, b) {
        assert SunkBy(rows, n, mark, b);
      }
    }
  }

  lemma LastSinks(rows: seq<Row>, mark: int, b: Oversold)
    requires rows != []
    ensures var last := |rows| - 1;
            b in Oversells(rows, mark) <==> b in Oversells(rows[..last], mark) || SunkBy(rows, last, mark, b)
  {
    assert rows[..|rows|] == rows;
  }

  /** A row past the mark leaves its position no lower than it began, at zero, or than it had been after some
      row up to the mark. */
  predicate Afloat(rows: seq<Row>, n: nat, mark: int)
    requires n < |rows|
  {
    rows[n].id > mark ==>
      var (u, i) := (rows[n].userId, rows[n].instrumentId);
      exists m :: 0 <= m <= n && (m == 0 || rows[m - 1].id <= mark)
                  && SharesFold(rows[..m], u, i) <= SharesFold(rows[..n + 1], u, i)
  }

  lemma SinksMeans(rows: seq<Row>, n: nat, mark: int)
    requires SortedById(rows) && n < |rows|
    ensures Sinks(rows, n, mark) <==> !Afloat(rows, n, mark)
  {
    var (u, i) := (rows[n].userId, rows[n].instrumentId);
    forall m | 0 <= m <= n && (m == 0 || rows[m - 1].id <= mark)
      ensures Floor(rows[..n], u, i, mark) <= SharesFold(rows[..m], u, i)
    {
      FloorIsUnder(rows[..n], u, i, mark, m);
      assert rows[..n][..m] == rows[..m];
    }
    var at := FloorIsReached(rows[..n], u, i, mark);
    assert rows[..n][..at] == rows[..at];
  }

  /* ---- conservation ---- */

  datatype CashReading = Read(cash: string) | Unavailable

  datatype Unconserved =
    | ApiDiffers(userId: int, api: string, db: string)
    | ShadowDiffers(userId: int, shadow: string, db: string)

  function ReadingOf(apiCash: map<int, CashReading>, user: int): CashReading {
    if user in apiCash then apiCash[user] else Unavailable
  }

  /** What one user's three balances are worth, held against each other as texts. */
  function Disagreement(rows: seq<Row>, apiCash: map<int, CashReading>, shadowCash: map<int, string>,
                        user: int): Option<Unconserved>
  {
    var db := MoneyOf(CashFold(rows, user));
    match ReadingOf(apiCash, user)
    case Unavailable => None
    case Read(api) =>
      if api != db then Some(ApiDiffers(user, api, db))
      else if user in shadowCash && shadowCash[user] != db then Some(ShadowDiffers(user, shadowCash[user], db))
      else None
  }

  /** One user's own rows, totalled. */
  method CashOfOwned(owned: seq<Row>, ghost rows: seq<Row>, ghost user: int) returns (total: int)
    requires owned == OfUser(rows, user)
    ensures total == CashFold(rows, user)
  {
    total := 0;
    for k := 0 to |owned|
      invariant total == Sum(owned[..k], CashDelta)
    {
      assert owned[..k + 1][..k] == owned[..k];
      total := total + CashDelta(owned[k]);
    }
    assert owned[..|owned|] == owned;
    OwnTotal(rows, user);
  }

  /** Some of these users have this breach. */
  predicate Breached(users: seq<int>, verdict: int -> Option<Unconserved>, b: Unconserved) {
    exists u :: u in users && verdict(u) == Some(b)
  }

  lemma BreachedAppend(users: seq<int>, user: int, verdict: int -> Option<Unconserved>, b: Unconserved)
    ensures Breached(users + [user], verdict, b) <==> Breached(users, verdict, b) || verdict(user) == Some(b)
  {
    if Breached(users, verdict, b) {
      var u :| u in users && verdict(u) == Some(b);
      assert u in users + [user];
    }
    assert user in users + [user];
  }

  /** All a user's readable balances are one figure exactly when nothing disagrees. */
  lemma AgreementIsOneFigure(rows: seq<Row>, apiCash: map<int, CashReading>, shadowCash: map<int, string>, user: int)
    ensures Disagreement(rows, apiCash, shadowCash, user).None? <==>
            (user in apiCash && apiCash[user].Read? ==>
              && apiCash[user].cash == MoneyOf(CashFold(rows, user))
              && (user in shadowCash ==> shadowCash[user] == apiCash[user].cash))
  {
  }

  lemma NoneDisagrees(rows: seq<Row>, apiCash: map<int, CashReading>, shadowCash: map<int, string>)
    ensures (forall k :: 0 <= k < |rows| ==> Disagreement(rows, apiCash, shadowCash, rows[k].userId).None?) <==>
            forall k :: 0 <= k < |rows| && rows[k].userId in apiCash && apiCash[rows[k].userId].Read? ==>
              var (u, api) := (rows[k].userId, apiCash[rows[k].userId].cash);
              api == MoneyOf(CashFold(rows, u)) && (u in shadowCash ==> shadowCash[u] == api)
  {
    forall k | 0 <= k < |rows|
      ensures Disagreement(rows, apiCash, shadowCash, rows[k].userId).None? <==>
              (rows[k].userId in apiCash && apiCash[rows[k].userId].Read? ==>
                var (u, api) := (rows[k].userId, apiCash[rows[k].userId].cash);
                api == MoneyOf(CashFold(rows, u)) && (u in shadowCash ==> shadowCash[u] == api))
    {
      AgreementIsOneFigure(rows, apiCash, shadowCash, rows[k].userId);
    }
  }

  /** The check passes exactly when every user's readable balances are one figure, and otherwise reports each
      user's API figure that is not the fold, or else the shadow's, beside it. */
  method Conservation(rows: seq<Row>, apiCash: map<int, CashReading>, shadowCash: map<int, string>)
    returns (pass: bool, breaches: seq<Unconserved>)
    ensures pass <==> forall k :: 0 <= k < |rows| && rows[k].userId in apiCash && apiCash[rows[k].userId].Read? ==>
              var (u, api) := (rows[k].userId, apiCash[rows[k].userId].cash);
              api == MoneyOf(CashFold(rows, u)) && (u in shadowCash ==> shadowCash[u] == api)
    ensures forall u, api, db :: ApiDiffers(u, api, db) in breaches <==>
              && (exists k :: 0 <= k < |rows| && rows[k].userId == u)
              && u in apiCash && apiCash[u] == Read(api) && db == MoneyOf(CashFold(rows, u)) && api != db
    ensures forall u, shadow, db :: ShadowDiffers(u, shadow, db) in breaches <==>
              && (exists k :: 0 <= k < |rows| && rows[k].userId == u)
              && u in apiCash && apiCash[u] == Read(db) && db == MoneyOf(CashFold(rows, u))
              && u in shadowCash && shadowCash[u] == shadow && shadow != db
  {
    var order, grouped := ByUser(rows);
    ghost var verdict := (u: int) => Disagreement(rows, apiCash, shadowCash, u);
    breaches := [];
    for n := 0 to |order|
      invariant forall b :: b in breaches <==> Breached(order[..n], verdict, b)
    {
      var user := order[n];
      var total := CashOfOwned(grouped[user], rows, user);
      var db := MoneyOf(total);
      var reading := ReadingOf(apiCash, user);
      var found: Option<Unconserved> := None;
      if reading.Read? {
        if reading.cash != db {
          found := Some(ApiDiffers(user, reading.cash, db));
        } else if user in shadowCash && shadowCash[user] != db {
          found := Some(ShadowDiffers(user, shadowCash[user], db));
        }
      }
      assert order[..n + 1] == order[..n] + [user];
      forall b ensures Breached(order[..n + 1], verdict, b) <==> Breached(order[..n], verdict, b) || found == Some(b) {
        BreachedAppend(order[..n], user, verdict, b);
      }
      breaches := breaches + if found.Some? then [found.value] else [];
    }
    assert order[..|order|] == order;
    pass := breaches == [];
    SameUsers(rows, order, verdict, breaches);
    NoneDisagrees(rows, apiCash, shadowCash);
    BreachesNamed(rows, apiCash, shadowCash, breaches);
  }

  lemma BreachesNamed(rows: seq<Row>, apiCash: map<int, CashReading>, shadowCash: map<int, string>,
                      breaches: seq<Unconserved>)
    requires forall b :: b in breaches <==>
               exists k :: 0 <= k < |rows| && Disagreement(rows, apiCash, shadowCash, rows[k].userId) == Some(b)
    ensures forall u, api, db :: ApiDiffers(u, api, db) in breaches <==>
              && (exists k :: 0 <= k < |rows| && rows[k].userId == u)
              && u in apiCash && apiCash[u] == Read(api) && db == MoneyOf(CashFold(rows, u)) && api != db
    ensures forall u, shadow, db :: ShadowDiffers(u, shadow, db) in breaches <==>
              && (exists k :: 0 <= k < |rows| && rows[k].userId == u)
              && u in apiCash && apiCash[u] == Read(db) && db == MoneyOf(CashFold(rows, u))
              && u in shadowCash && shadowCash[u] == shadow && shadow != db
  {
  }

  /** Asking each user once is asking every row's owner. */
  lemma SameUsers(rows: seq<Row>, order: seq<int>, verdict: int -> Option<Unconserved>, breaches: seq<Unconserved>)
    requires forall u :: u in order <==> exists i :: 0 <= i < |rows| && rows[i].userId == u
    requires forall b :: b in breaches <==> Breached(order, verdict, b)
    ensures forall b :: b in breaches <==> exists k :: 0 <= k < |rows| && verdict(rows[k].userId) == Some(b)
    ensures breaches == [] <==> forall k :: 0 <= k < |rows| ==> verdict(rows[k].userId).None?
  {
    forall b ensures b in breaches <==> exists k :: 0 <= k < |rows| && verdict(rows[k].userId) == Some(b) {
      if b in breaches {
        var u :| u in order && verdict(u) == Some(b);
        var k :| 0 <= k < |rows| && rows[k].userId == u;
        assert verdict(rows[k].userId) == Some(b);
      }
      if k :| 0 <= k < |rows| && verdict(rows[k].userId) == Some(b) {
        assert rows[k].userId in order;
      }
    }
    if breaches != [] {
      assert breaches[0] in breaches;
    }
    forall k | 0 <= k < |rows| && verdict(rows[k].userId).Some? ensures breaches != [] {
      assert verdict(rows[k].userId).value in breaches;
    }
  }

  lemma OwnTotal(rows: seq<Row>, user: int)
    ensures Sum(OfUser(rows, user), CashDelta) == CashFold(rows, user)
  {
    OwnedByUser(rows, user);
    OfUserFolds(rows, user, 0);
    forall i | 0 <= i < |OfUser(rows, user)|
      ensures CashDelta(OfUser(rows, user)[i]) == CashOf(user)(OfUser(rows, user)[i])
    {
      assert OfUser(rows, user)[i] in OfUser(rows, user);
    }
    SumPointwise(OfUser(rows, user), OfUser(rows, user), CashDelta, CashOf(user));
  }

  /* ---- response_db_agreement ---- */

  datatype PlacedResponse = PlacedResponse(orderId: int, status: Status, size: int, price: int)

  /** The row says what the response said; NEW to CANCELLED is excused if the run asked for it. */
  predicate RowAgrees(row: Row, p: PlacedResponse, cancelled: set<int>) {
    && (row.status == p.status || (p.status == New && row.status == Cancelled && row.id in cancelled))
    && row.size == p.size && row.price == p.price
  }

  predicate HeldAndAgrees(rows: seq<Row>, p: PlacedResponse, cancelled: set<int>) {
    exists i :: 0 <= i < |rows| && rows[i].id == p.orderId && RowAgrees(rows[i], p, cancelled)
  }

  /** Rows of the run nobody was answered for. */
  function Unmatched(rows: seq<Row>, mark: int, acknowledged: set<int>): seq<Row> {
    if rows == [] then []
    else
      var last := rows[|rows| - 1];
      Unmatched(rows[..|rows| - 1], mark, acknowledged)
      + if last.id > mark && last.id !in acknowledged then [last] else []
  }

  /** The rows past the mark that nobody acknowledged, counted once each. */
  lemma {:induction false} UnmatchedAreCounted(rows: seq<Row>, mark: int, acknowledged: set<int>)
    ensures |Unmatched(rows, mark, acknowledged)|
         == |Where(rows, (row: Row) => row.id > mark && row.id !in acknowledged)|
  {
    if rows != [] {
      var n := |rows| - 1;
      UnmatchedAreCounted(rows[..n], mark, acknowledged);
      assert rows == rows[..n] + [rows[n]];
      WhereAppend(rows[..n], rows[n], (row: Row) => row.id > mark && row.id !in acknowledged);
    }
  }

  method ResponseDbAgreement(placements: seq<PlacedResponse>, rows: seq<Row>, mark: int, acknowledged: set<int>,
                             unanswered: int, cancelled: seq<int>) returns (pass: bool, wrong: seq<int>, phantoms: bool)
    requires IdsUnique(rows)
    ensures pass <==> (forall k :: 0 <= k < |placements| ==> HeldAndAgrees(rows, placements[k], set c | c in cancelled))
                      && |Unmatched(rows, mark, acknowledged)| <= unanswered
    ensures forall id :: id in wrong <==>
              exists k :: 0 <= k < |placements| && placements[k].orderId == id
                          && !HeldAndAgrees(rows, placements[k], set c | c in cancelled)
    ensures phantoms <==> |Unmatched(rows, mark, acknowledged)| > unanswered
  {
    var held: map<int, Row> := map[];
    for n := 0 to |rows|
      invariant forall id :: id in held <==> exists i :: 0 <= i < n && rows[i].id == id
      invariant forall i :: 0 <= i < n ==> rows[i].id in held && held[rows[i].id] == rows[i]
    {
      held := held[rows[n].id := rows[n]];
    }
    var byRun := set c | c in cancelled;
    wrong := [];
    for k := 0 to |placements|
      invariant forall id :: id in wrong <==>
                  exists j :: 0 <= j < k && placements[j].orderId == id && !HeldAndAgrees(rows, placements[j], byRun)
    {
      var p := placements[k];
      assert HeldAndAgrees(rows, p, byRun) <==> p.orderId in held && RowAgrees(held[p.orderId], p, byRun);
      if p.orderId !in held || !RowAgrees(held[p.orderId], p, byRun) {
        wrong := wrong + [p.orderId];
      }
    }
    var unmatched: seq<Row> := [];
    for n := 0 to |rows|
      invariant unmatched == Unmatched(rows[..n], mark, acknowledged)
    {
      assert rows[..n + 1][..n] == rows[..n];
      if rows[n].id > mark && rows[n].id !in acknowledged {
        unmatched := unmatched + [rows[n]];
      }
    }
    assert rows[..|rows|] == rows;
    phantoms := |unmatched| > unanswered;
    pass := wrong == [] && !phantoms;
    NoneDisagreesIff(placements, rows, byRun, wrong);
  }

  lemma NoneDisagreesIff(placements: seq<PlacedResponse>, rows: seq<Row>, byRun: set<int>, wrong: seq<int>)
    requires forall id :: id in wrong <==>
               exists k :: 0 <= k < |placements| && placements[k].orderId == id
                 && !HeldAndAgrees(rows, placements[k], byRun)
    ensures wrong == [] <==> forall k :: 0 <= k < |placements| ==> HeldAndAgrees(rows, placements[k], byRun)
  {
    if wrong != [] {
      var id := wrong[0];
      assert id in wrong;
    } else {
      forall k | 0 <= k < |placements| ensures HeldAndAgrees(rows, placements[k], byRun) {
        assert placements[k].orderId !in wrong;
      }
    }
  }

  /* ---- cancel_safety ---- */

  predicate ReadsCancelled(rows: seq<Row>, id: int) {
    exists i :: 0 <= i < |rows| && rows[i].id == id && rows[i].status == Cancelled
  }

  /** The check reports exactly the cancelled orders that do not read CANCELLED; the other half,
      that dropping CANCELLED rows moves a fold, can never fire. */
  method CancelSafety(rows: seq<Row>, cancelled: seq<int>) returns (pass: bool, wrong: seq<int>, moved: bool)
    requires IdsUnique(rows)
    ensures pass <==> forall id :: id in cancelled ==> ReadsCancelled(rows, id)
    ensures forall id :: id in wrong <==>
              id in cancelled && !ReadsCancelled(rows, id)
    ensures !moved
  {
    wrong := [];
    for k := 0 to |cancelled|
      invariant forall id :: id in wrong <==>
                  id in cancelled[..k] && !ReadsCancelled(rows, id)
    {
      var at := FindId(rows, cancelled[k]);
      assert cancelled[..k + 1] == cancelled[..k] + [cancelled[k]];
      assert at.Some? ==> forall i :: 0 <= i < |rows| && rows[i].id == cancelled[k] ==> i == at.value;
      assert at.None? ==> forall i :: 0 <= i < |rows| ==> rows[i] in rows;
      if at.None? || rows[at.value].status != Cancelled {
        wrong := wrong + [cancelled[k]];
      }
    }
    assert cancelled[..|cancelled|] == cancelled;
    assert forall id :: id in wrong <==> id in cancelled && !ReadsCancelled(rows, id);
    var cash, cashWithout, shares, sharesWithout := 0, 0, 0, 0;
    for n := 0 to |rows|
      invariant cash == cashWithout == Sum(rows[..n], CashDelta)
      invariant shares == sharesWithout == Sum(rows[..n], ShareDelta)
    {
      assert rows[..n + 1][..n] == rows[..n];
      cash, shares := cash + CashDelta(rows[n]), shares + ShareDelta(rows[n]);
      if rows[n].status != Cancelled {
        cashWithout, sharesWithout := cashWithout + CashDelta(rows[n]), sharesWithout + ShareDelta(rows[n]);
      }
    }
    moved := MoneyOf(cash) != MoneyOf(cashWithout) || shares != sharesWithout;
    pass := wrong == [] && !moved;
    NoneWrongIff(rows, cancelled, wrong);
  }

  lemma NoneWrongIff(rows: seq<Row>, cancelled: seq<int>, wrong: seq<int>)
    requires forall id :: id in wrong <==> id in cancelled && !ReadsCancelled(rows, id)
    ensures wrong == [] <==> forall id :: id in cancelled ==> ReadsCancelled(rows, id)
  {
    if wrong != [] {
      var id := wrong[0];
      assert id in wrong;
    } else {
      forall id | id in cancelled ensures ReadsCancelled(rows, id) {
        assert id !in wrong;
      }
    }
  }

  /* ---- checkInvariants ---- */

  datatype Evidence = Evidence(
    rows: seq<Row>, mark: int, apiCash: map<int, CashReading>, shadowCash: map<int, string>,
    placements: seq<PlacedResponse>, acknowledged: set<int>, unanswered: int, cancelled: seq<int>)

  datatype Verdicts = Verdicts(conservation: bool, noOverdraft: bool, noOversell: bool,
                               responseDbAgreement: bool, cancelSafety: bool)

  /** The placement has its row, with the size and the price answered, and the status but for a cancel of the
      run's own. */
  predicate Answers(e: Evidence, p: PlacedResponse) {
    exists i :: 0 <= i < |e.rows| && e.rows[i].id == p.orderId
                && e.rows[i].size == p.size && e.rows[i].price == p.price
                && (e.rows[i].status == p.status ||
                    (p.status == New && e.rows[i].status == Cancelled && p.orderId in e.cancelled))
  }

  /** The five checks, one after the other. */
  method CheckEach(e: Evidence) returns (v: Verdicts)
    requires IdsUnique(e.rows)
    ensures v.conservation <==>
              forall k :: 0 <= k < |e.rows| ==> Disagreement(e.rows, e.apiCash, e.shadowCash, e.rows[k].userId).None?
    ensures v.noOverdraft <==> forall u :: Solvent(e.rows, u)
    ensures v.noOversell <==> forall n :: 0 <= n < |e.rows| ==> !Sinks(e.rows, n, e.mark)
    ensures v.responseDbAgreement <==>
              (forall k :: 0 <= k < |e.placements| ==> HeldAndAgrees(e.rows, e.placements[k], set c | c in e.cancelled))
              && |Unmatched(e.rows, e.mark, e.acknowledged)| <= e.unanswered
    ensures v.cancelSafety <==> forall id :: id in e.cancelled ==> ReadsCancelled(e.rows, id)
  {
    var conserved, _ := Conservation(e.rows, e.apiCash, e.shadowCash);
    var solvent, _ := NoOverdraft(e.rows);
    var floored, _ := NoOversell(e.rows, e.mark);
    var agreed, _, _ := ResponseDbAgreement(e.placements, e.rows, e.mark, e.acknowledged, e.unanswered, e.cancelled);
    var safe, _, _ := CancelSafety(e.rows, e.cancelled);
    NoneDisagrees(e.rows, e.apiCash, e.shadowCash);
    v := Verdicts(conserved, solvent, floored, agreed, safe);
  }

  /** The five verdicts, each exactly the property it is named for, said of the rows, the balances and the
      answers themselves. */
  method CheckInvariants(e: Evidence) returns (v: Verdicts)
    requires IdsUnique(e.rows) && SortedById(e.rows)
    ensures v.conservation <==>
              forall k :: 0 <= k < |e.rows| && e.rows[k].userId in e.apiCash && e.apiCash[e.rows[k].userId].Read? ==>
                var (u, api) := (e.rows[k].userId, e.apiCash[e.rows[k].userId].cash);
                api == MoneyOf(CashFold(e.rows, u)) && (u in e.shadowCash ==> e.shadowCash[u] == api)
    ensures v.noOverdraft <==> forall u, n :: 0 <= n <= |e.rows| ==> CashFold(e.rows[..n], u) >= 0
    ensures v.noOversell <==> forall n :: 0 <= n < |e.rows| ==> Afloat(e.rows, n, e.mark)
    ensures v.responseDbAgreement <==>
              && (forall k :: 0 <= k < |e.placements| ==> Answers(e, e.placements[k]))
              && |Where(e.rows, (row: Row) => row.id > e.mark && row.id !in e.acknowledged)| <= e.unanswered
    ensures v.cancelSafety <==>
              forall id :: id in e.cancelled ==>
                exists i :: 0 <= i < |e.rows| && e.rows[i].id == id && e.rows[i].status == Cancelled
  {
    v := CheckEach(e);
    NoneDisagrees(e.rows, e.apiCash, e.shadowCash);
    SolventAll(e.rows);
    NoneSinksIff(e.rows, e.mark);
    AllAnswered(e);
    UnmatchedAreCounted(e.rows, e.mark, e.acknowledged);
  }

  lemma NoneSinksIff(rows: seq<Row>, mark: int)
    requires SortedById(rows)
    ensures (forall n :: 0 <= n < |rows| ==> !Sinks(rows, n, mark)) <==>
            forall n :: 0 <= n < |rows| ==> Afloat(rows, n, mark)
  {
    forall n | 0 <= n < |rows| ensures !Sinks(rows, n, mark) <==> Afloat(rows, n, mark) {
      SinksMeans(rows, n, mark);
    }
  }

  lemma SolventAll(rows: seq<Row>)
    ensures (forall u :: Solvent(rows, u)) <==> forall u, n :: 0 <= n <= |rows| ==> CashFold(rows[..n], u) >= 0
  {
    if forall u, n :: 0 <= n <= |rows| ==> CashFold(rows[..n], u) >= 0 {
      forall u ensures Solvent(rows, u) {
      }
    } else {
      var u, n :| 0 <= n <= |rows| && CashFold(rows[..n], u) < 0;
      assert !Solvent(rows, u);
    }
  }

  lemma AllAnswered(e: Evidence)
    ensures (forall k :: 0 <= k < |e.placements| ==>
               HeldAndAgrees(e.rows, e.placements[k], set c | c in e.cancelled)) <==>
            forall k :: 0 <= k < |e.placements| ==> Answers(e, e.placements[k])
  {
    forall k | 0 <= k < |e.placements|
      ensures HeldAndAgrees(e.rows, e.placements[k], set c | c in e.cancelled) <==> Answers(e, e.placements[k])
    {
      AnswerAgrees(e, e.placements[k]);
    }
  }

  lemma AnswerAgrees(e: Evidence, p: PlacedResponse)
    ensures HeldAndAgrees(e.rows, p, set c | c in e.cancelled) <==> Answers(e, p)
  {
    var cancelled := set c | c in e.cancelled;
    if i :| 0 <= i < |e.rows| && e.rows[i].id == p.orderId && e.rows[i].size == p.size && e.rows[i].price == p.price
            && (e.rows[i].status == p.status ||
                (p.status == New && e.rows[i].status == Cancelled && p.orderId in e.cancelled)) {
      assert RowAgrees(e.rows[i], p, cancelled);
    }
  }
}
