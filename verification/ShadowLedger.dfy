/** The harness's own books: what it believes each user has, what its unsettled orders hold
    against that, and what it therefore expects the target to answer. Money is exact. */
module ShadowLedger {
  import opened Options
  import opened OrderRules
  import opened Portfolio

  datatype SimOrder = SimOrder(userId: int, instrumentId: int, side: TradeSide, size: int,
                               otype: OrderType, price: Option<int>)

  datatype Expectation = ExpectFilled | ExpectRejected | Unknown

  datatype Execution = Execution(status: Status, price: int)

  /** What one unsettled order holds, stamped with the generation it was reserved in. */
  datatype Reservation = Reservation(generation: int, order: SimOrder, expectation: Expectation,
                                     heldCash: int, heldShares: int)

  datatype ShadowUser = ShadowUser(cash: int, shares: map<int, int>, heldCash: int, heldShares: map<int, int>,
                                   outstanding: int, seeded: bool, uncertain: bool)

  const BLANK := ShadowUser(0, map[], 0, map[], 0, false, false)

  datatype Shadow = Shadow(users: map<int, ShadowUser>, prices: map<int, int>, current: int)

  /** A missing entry counts as zero. */
  function Get(m: map<int, int>, i: int): int { if i in m then m[i] else 0 }

  function Add(m: map<int, int>, i: int, n: int): map<int, int> { m[i := Get(m, i) + n] }

  /* ---- What each operation does, as a function of the state ---- */

  function Expect(sh: Shadow, order: SimOrder): Expectation {
    if order.otype.Limit? || order.userId !in sh.users || order.instrumentId !in sh.prices then Unknown
    else
      var user, price := sh.users[order.userId], sh.prices[order.instrumentId];
      if !user.seeded || user.uncertain then Unknown
      else
        var covered := if order.side.Buy? then user.cash - user.heldCash >= price * order.size
                       else
                         Get(user.shares, order.instrumentId) - Get(user.heldShares, order.instrumentId) >= order.size;
        if covered then ExpectFilled
        else if user.outstanding == 0 then ExpectRejected else Unknown
  }

  /** Only an expected fill holds anything. */
  function ReservationFor(sh: Shadow, order: SimOrder): Reservation {
    var expectation := Expect(sh, order);
    var holds := expectation.ExpectFilled?;
    Reservation(sh.current, order, expectation,
                if holds && order.side.Buy? then sh.prices[order.instrumentId] * order.size else 0,
                if holds && order.side.Sell? then order.size else 0)
  }

  function Reserve(sh: Shadow, order: SimOrder): Shadow {
    if order.userId !in sh.users then sh
    else
      var r, user := ReservationFor(sh, order), sh.users[order.userId];
      var holding := user.(outstanding := user.outstanding + 1, heldCash := user.heldCash + r.heldCash,
                           heldShares := if r.expectation.ExpectFilled? && order.side.Sell?
                                         then Add(user.heldShares, order.instrumentId, r.heldShares)
                                         else user.heldShares);
      sh.(users := sh.users[order.userId := holding])
  }

  /** A reservation still counts against its user only in the generation it was made in. */
  predicate Current(sh: Shadow, r: Reservation) {
    r.generation == sh.current && r.order.userId in sh.users
  }

  function Released(user: ShadowUser, r: Reservation): ShadowUser {
    user.(outstanding := user.outstanding - 1, heldCash := user.heldCash - r.heldCash,
          heldShares := if r.heldShares != 0 then Add(user.heldShares, r.order.instrumentId, -r.heldShares)
                        else user.heldShares)
  }

  function CashMove(order: SimOrder, price: int): int {
    if order.side.Buy? then -price * order.size else price * order.size
  }

  function ShareMove(order: SimOrder): int {
    if order.side.Buy? then order.size else -order.size
  }

  function Filling(user: ShadowUser, order: SimOrder, execution: Option<Execution>): ShadowUser {
    if execution.Some? && execution.value.status.Filled? then
      user.(cash := user.cash + CashMove(order, execution.value.price),
            shares := Add(user.shares, order.instrumentId, ShareMove(order)))
    else user
  }

  function Settle(sh: Shadow, r: Reservation, execution: Option<Execution>): Shadow {
    var id := r.order.userId;
    sh.(prices := if execution.Some? && r.order.otype.Market?
                  then sh.prices[r.order.instrumentId := execution.value.price] else sh.prices,
        users := if Current(sh, r) then sh.users[id := Filling(Released(sh.users[id], r), r.order, execution)]
                 else sh.users)
  }

  function Lose(sh: Shadow, r: Reservation): Shadow {
    var id := r.order.userId;
    if Current(sh, r) then sh.(users := sh.users[id := Released(sh.users[id], r).(uncertain := true)]) else sh
  }

  function Reseeded(sh: Shadow, ids: seq<int>): Shadow {
    Shadow(map id | id in ids :: BLANK, sh.prices, sh.current + 1)
  }

  function SharesOfPositions(positions: seq<Position>): map<int, int> {
    if positions == [] then map[]
    else
      var last := positions[|positions| - 1];
      SharesOfPositions(positions[..|positions| - 1])[last.instrumentId := last.quantity]
  }

  predicate Seeds(sh: Shadow, generation: int, id: int) { generation == sh.current && id in sh.users }

  function Seeded(sh: Shadow, generation: int, id: int, portfolio: Portfolio): Shadow {
    if !Seeds(sh, generation, id) then sh
    else
      var user := sh.users[id];
      sh.(users := sh.users[id := user.(cash := portfolio.availableCash,
                                        shares := SharesOfPositions(portfolio.positions),
                                        seeded := true, uncertain := user.outstanding > 0)])
  }

  /** Re-reading a portfolio helps only once every order that could change it has landed. */
  predicate NeedsReadBack(sh: Shadow, id: int) {
    id in sh.users && sh.users[id].outstanding == 0 && (sh.users[id].uncertain || !sh.users[id].seeded)
  }

  /** The ledger itself. */
  class ShadowLedger {
    var users: map<int, ShadowUser>
    var prices: map<int, int>
    var current: int

    constructor ()
      ensures State() == Shadow(map[], map[], 0)
    {
      users, prices, current := map[], map[], 0;
    }

    ghost function State(): Shadow
      reads this
    {
      Shadow(users, prices, current)
    }

    /** Opens a generation: every reservation made before it stops counting. */
    method Reseed(userIds: seq<int>)
      modifies this
      ensures State() == Reseeded(old(State()), userIds)
    {
      current := current + 1;
      users := map[];
      for i := 0 to |userIds|
        invariant users == map id | id in userIds[..i] :: BLANK
        invariant current == old(current) + 1 && prices == old(prices)
      {
        users := users[userIds[i] := BLANK];
        assert userIds[..i + 1] == userIds[..i] + [userIds[i]];
      }
      assert userIds[..|userIds|] == userIds;
    }

    method Seed(generation: int, userId: int, portfolio: Portfolio) returns (ok: bool)
      modifies this
      ensures ok == Seeds(old(State()), generation, userId)
      ensures State() == Seeded(old(State()), generation, userId, portfolio)
    {
      if generation != current || userId !in users {
        return false;
      }
      var user := users[userId];
      user := user.(cash := portfolio.availableCash, shares := SharesOfPositions(portfolio.positions));
      user := user.(seeded := true);
      user := user.(uncertain := user.outstanding > 0);
      users := users[userId := user];
      ok := true;
    }

    method ReserveOrder(order: SimOrder) returns (r: Reservation)
      modifies this
      ensures r == ReservationFor(old(State()), order)
      ensures State() == Reserve(old(State()), order)
    {
      var expectation := Expect(Shadow(users, prices, current), order);
      r := Reservation(current, order, expectation, 0, 0);
      if order.userId !in users {
        return;
      }
      var user := users[order.userId];
      user := user.(outstanding := user.outstanding + 1);
      if expectation.ExpectFilled? && order.instrumentId in prices {
        if order.side.Buy? {
          r := r.(heldCash := prices[order.instrumentId] * order.size);
          user := user.(heldCash := user.heldCash + r.heldCash);
        } else {
          r := r.(heldShares := order.size);
          user := user.(heldShares := Add(user.heldShares, order.instrumentId, order.size));
        }
      }
      users := users[order.userId := user];
    }

    method SettleReservation(r: Reservation, execution: Option<Execution>)
      modifies this
      ensures State() == Settle(old(State()), r, execution)
    {
      if execution.Some? && r.order.otype.Market? {
        prices := prices[r.order.instrumentId := execution.value.price];
      }
      var live := Release(r);
      if !live || execution.None? || !execution.value.status.Filled? {
        return;
      }
      var user := users[r.order.userId];
      var direction := if r.order.side.Buy? then 1 else -1;
      user := user.(cash := user.cash - direction * execution.value.price * r.order.size);
      user := user.(shares := Add(user.shares, r.order.instrumentId, direction * r.order.size));
      users := users[r.order.userId := user];
    }

    method LoseReservation(r: Reservation)
      modifies this
      ensures State() == Lose(old(State()), r)
    {
      var live := Release(r);
      if live {
        users := users[r.order.userId := users[r.order.userId].(uncertain := true)];
      }
    }

    method Release(r: Reservation) returns (live: bool)
      modifies this`users
      ensures live == Current(old(State()), r)
      ensures users ==
              if live then old(users)[r.order.userId := Released(old(users)[r.order.userId], r)] else old(users)
    {
      if r.generation != current || r.order.userId !in users {
        return false;
      }
      var user := users[r.order.userId];
      user := user.(outstanding := user.outstanding - 1, heldCash := user.heldCash - r.heldCash);
      if r.heldShares != 0 {
        user := user.(heldShares := Add(user.heldShares, r.order.instrumentId, -r.heldShares));
      }
      users := users[r.order.userId := user];
      live := true;
    }

    predicate NeedsReseed(userId: int)
      reads this
    {
      NeedsReadBack(Shadow(users, prices, current), userId)
    }
  }
}
