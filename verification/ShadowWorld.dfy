/** The harness and the target together: orders reserved against the shadow, carried to the
    target, applied there one whole placement at a time in any order, and their answers settled
    in any order. JointRuns shows that each step of the interleaved target is one of these acts. */
module ShadowWorld {
  import opened Options
  import opened SeqSum
  import opened Ledger
  import opened Placement
  import opened Protocol
  import opened Portfolio
  import opened ShadowLedger

  datatype Stage =
    | Sent                                // the target has not processed it yet
    | Heard(exec: Option<Execution>)      // processed or refused; the answer is on its way
    | Orphan                              // given up on: the target may still process it
    | Closed

  datatype Flight = Flight(res: Reservation, stage: Stage)

  datatype World = World(
    shadow: Shadow,
    rows: seq<Row>, users: set<int>, quotes: map<int, Quote>, catalog: Catalog,
    flights: seq<Flight>,
    clean: set<int>)          // users seeded by one atomic read with nothing in flight, and no order lost since

  datatype Act =
    | Send(order: SimOrder)
    | Process(k: nat, id: int, key: Key)
    | ProcessAt(k: nat, id: int, key: Key, quote: Quote)   // decided at a quote the market has left since
    | Refuse(k: nat)                       // shed, or an answer that places nothing
    | Deliver(k: nat)
    | Vanish(k: nat)                       // no answer: a timeout or a dropped response
    | NewGeneration(ids: seq<int>)
    | SeedUser(generation: int, user: int, portfolio: Portfolio)
    | CancelOrder(id: int)
    | MoveClose(instrument: int, close: nat)

  function ToRequest(order: SimOrder, key: Key): Request {
    Request(order.userId, order.instrumentId, order.side, order.otype, Some(order.size), None, order.price, key)
  }

  predicate InFlight(f: Flight) { f.stage.Sent? || f.stage.Heard? }

  predicate Grounded(w: World, user: int) {
    forall k :: 0 <= k < |w.flights| && w.flights[k].res.order.userId == user ==> w.flights[k].stage.Closed?
  }

  /** The target may still come to this order. */
  predicate Pending(w: World, k: nat) {
    k < |w.flights| && (w.flights[k].stage.Sent? || w.flights[k].stage.Orphan?)
  }

  /** The gateway mints a fresh key for each order. */
  predicate CanProcess(w: World, k: nat, key: Key) {
    Pending(w, k) && ByKey(w.rows, w.flights[k].res.order.userId, key).None?
  }

  predicate Can(w: World, act: Act) {
    match act
    case Send(order) => WellFormed(ToRequest(order, ""))
    case Process(k, _, key) => CanProcess(w, k, key)
    case ProcessAt(k, _, key, _) => CanProcess(w, k, key)
    case Refuse(k) => Pending(w, k)
    case Deliver(k) => k < |w.flights| && w.flights[k].stage.Heard?
    case Vanish(k) => k < |w.flights| && InFlight(w.flights[k])
    case NewGeneration(_) => true
    case SeedUser(_, _, _) => true
    case CancelOrder(_) => true
    case MoveClose(i, _) => i in w.quotes && w.quotes[i].Quote?
  }

  function AnswerAt(w: World, order: SimOrder, id: int, key: Key, quote: Quote): Answer {
    Place(w.rows, order.userId in w.users, quote, ToRequest(order, key), id)
  }

  function TargetAnswer(w: World, order: SimOrder, id: int, key: Key): Answer {
    AnswerAt(w, order, id, key, QuoteOf(w.quotes, order.instrumentId))
  }

  function ExecutionOf(answer: Answer): Option<Execution> {
    if Answered(answer) then Some(Execution(answer.row.status, answer.row.price)) else None
  }

  function SetStage(w: World, k: nat, stage: Stage): seq<Flight>
    requires k < |w.flights|
  {
    w.flights[k := Flight(w.flights[k].res, stage)]
  }

  function Processed(w: World, k: nat, id: int, key: Key, quote: Quote): World
    requires CanProcess(w, k, key)
  {
    var answer := AnswerAt(w, w.flights[k].res.order, id, key, quote);
    w.(rows := Placed(w.rows, answer),
       flights := SetStage(w, k, if w.flights[k].stage.Sent? then Heard(ExecutionOf(answer)) else Closed))
  }

  /** The portfolio has the user's cash and quantities as they are; what it says they are worth does
      not matter, so a close may move while it is on its way. */
  predicate ReadsBalances(w: World, user: int, portfolio: Portfolio) {
    && portfolio.availableCash == AvailableCash(w.rows, user)
    && SharesOfPositions(portfolio.positions) == SharesOfPositions(Positions(w.rows, w.quotes, w.catalog, user))
  }

  function After(w: World, act: Act): World {
    if !Can(w, act) then w else
    match act
    case Send(order) =>
      w.(shadow := Reserve(w.shadow, order), flights := w.flights + [Flight(ReservationFor(w.shadow, order), Sent)])
    case Process(k, id, key) => Processed(w, k, id, key, QuoteOf(w.quotes, w.flights[k].res.order.instrumentId))
    case ProcessAt(k, id, key, quote) => Processed(w, k, id, key, quote)
    case Refuse(k) => w.(flights := SetStage(w, k, if w.flights[k].stage.Sent? then Heard(None) else Closed))
    case Deliver(k) =>
      w.(shadow := Settle(w.shadow, w.flights[k].res, w.flights[k].stage.exec), flights := SetStage(w, k, Closed))
    case Vanish(k) =>
      w.(shadow := Lose(w.shadow, w.flights[k].res),
         flights := SetStage(w, k, if w.flights[k].stage.Sent? then Orphan else Closed),
         clean := w.clean - {w.flights[k].res.order.userId})
    case NewGeneration(ids) => w.(shadow := Reseeded(w.shadow, ids), clean := {})
    case SeedUser(generation, user, portfolio) =>
      var whole := ReadsBalances(w, user, portfolio) && Grounded(w, user);
      if !Seeds(w.shadow, generation, user) then w
      else w.(shadow := Seeded(w.shadow, generation, user, portfolio),
              clean := if whole then w.clean + {user} else w.clean - {user})
    case CancelOrder(id) => w.(rows := Cancel(w.rows, id).1)
    case MoveClose(i, close) => w.(quotes := w.quotes[i := w.quotes[i].(close := Some(close))])
  }

  function Acts(w: World, acts: seq<Act>): World {
    if acts == [] then w else After(Acts(w, acts[..|acts| - 1]), acts[|acts| - 1])
  }

  /** A ledger nobody has used yet, beside any orders table whatever. */
  predicate Fresh(w: World) {
    && w.shadow == Shadow(map[], map[], 0) && w.flights == [] && w.clean == {}
    && Distinct(w.catalog) && (forall i :: i in w.quotes ==> i in w.catalog)
  }

  /* ---- What the reservations of one user add up to ---- */

  predicate Live(f: Flight, user: int, generation: int) {
    InFlight(f) && f.res.order.userId == user && f.res.generation == generation
  }

  function CountOf(user: int, generation: int): Flight -> int {
    (f: Flight) => if Live(f, user, generation) then 1 else 0
  }

  function HeldCashOf(user: int, generation: int): Flight -> int {
    (f: Flight) => if Live(f, user, generation) then f.res.heldCash else 0
  }

  function HeldSharesOf(user: int, generation: int, instrument: int): Flight -> int {
    (f: Flight) => if Live(f, user, generation) && f.res.order.instrumentId == instrument then f.res.heldShares else 0
  }

  predicate FillHeard(f: Flight, user: int) {
    f.stage.Heard? && f.stage.exec.Some? && f.stage.exec.value.status.Filled? && f.res.order.userId == user
  }

  /** Cash and shares the target has moved and the shadow has not heard of. */
  function DueCash(user: int): Flight -> int {
    (f: Flight) => if FillHeard(f, user) then CashMove(f.res.order, f.stage.exec.value.price) else 0
  }

  function DueShares(user: int, instrument: int): Flight -> int {
    (f: Flight) => if FillHeard(f, user) && f.res.order.instrumentId == instrument then ShareMove(f.res.order) else 0
  }

  /** The user's books are the sums over its live reservations. */
  ghost predicate Booked(flights: seq<Flight>, user: ShadowUser, id: int, generation: int) {
    && user.outstanding == Sum(flights, CountOf(id, generation))
    && user.heldCash == Sum(flights, HeldCashOf(id, generation))
    && (forall i :: Get(user.heldShares, i) == Sum(flights, HeldSharesOf(id, generation, i)))
  }

  /** Shadow plus what is due is the database. */
  ghost predicate Agrees(w: World, id: int) {
    && id in w.shadow.users && w.shadow.users[id].seeded && !w.shadow.users[id].uncertain
    && (forall k :: 0 <= k < |w.flights| && w.flights[k].res.order.userId == id ==>
          w.flights[k].stage.Closed? || Live(w.flights[k], id, w.shadow.current))
    && w.shadow.users[id].cash + Sum(w.flights, DueCash(id)) == CashFold(w.rows, id)
    && (forall i :: Listed(w.quotes, i) ==>
          Get(w.shadow.users[id].shares, i) + Sum(w.flights, DueShares(id, i)) == SharesFold(w.rows, id, i))
  }

  ghost predicate WorldInv(w: World) {
    && (forall k :: 0 <= k < |w.flights| ==>
          w.flights[k].res.generation <= w.shadow.current && WellFormed(ToRequest(w.flights[k].res.order, "")))
    && (forall id :: id in w.shadow.users ==> Booked(w.flights, w.shadow.users[id], id, w.shadow.current))
    && (forall id :: id in w.clean ==> Agrees(w, id))
    && Distinct(w.catalog) && (forall i :: i in w.quotes ==> i in w.catalog)
  }

  /* ---- One flight added or changed ---- */

  lemma AddFlight(flights: seq<Flight>, f: Flight, id: int, generation: int)
    ensures Sum(flights + [f], CountOf(id, generation))
            == Sum(flights, CountOf(id, generation)) + CountOf(id, generation)(f)
    ensures Sum(flights + [f], HeldCashOf(id, generation))
            == Sum(flights, HeldCashOf(id, generation)) + HeldCashOf(id, generation)(f)
    ensures forall i ::
              Sum(flights + [f], HeldSharesOf(id, generation, i))
              == Sum(flights, HeldSharesOf(id, generation, i)) + HeldSharesOf(id, generation, i)(f)
    ensures Sum(flights + [f], DueCash(id)) == Sum(flights, DueCash(id)) + DueCash(id)(f)
    ensures forall i :: Sum(flights + [f], DueShares(id, i)) == Sum(flights, DueShares(id, i)) + DueShares(id, i)(f)
  {
    SumAppend(flights, f, CountOf(id, generation));
    SumAppend(flights, f, HeldCashOf(id, generation));
    SumAppend(flights, f, DueCash(id));
    forall i
      ensures Sum(flights + [f], HeldSharesOf(id, generation, i))
           == Sum(flights, HeldSharesOf(id, generation, i)) + HeldSharesOf(id, generation, i)(f)
      ensures Sum(flights + [f], DueShares(id, i)) == Sum(flights, DueShares(id, i)) + DueShares(id, i)(f)
    {
      SumAppend(flights, f, HeldSharesOf(id, generation, i));
      SumAppend(flights, f, DueShares(id, i));
    }
  }

  lemma ChangeFlight(flights: seq<Flight>, k: nat, f: Flight, id: int, generation: int)
    requires k < |flights|
    ensures Sum(flights[k := f], CountOf(id, generation))
         == Sum(flights, CountOf(id, generation)) - CountOf(id, generation)(flights[k]) + CountOf(id, generation)(f)
    ensures Sum(flights[k := f], HeldCashOf(id, generation))
         == Sum(flights, HeldCashOf(id, generation)) - HeldCashOf(id, generation)(flights[k])
           + HeldCashOf(id, generation)(f)
    ensures forall i ::
              Sum(flights[k := f], HeldSharesOf(id, generation, i))
              == Sum(flights, HeldSharesOf(id, generation, i)) - HeldSharesOf(id, generation, i)(flights[k])
                 + HeldSharesOf(id, generation, i)(f)
    ensures Sum(flights[k := f], DueCash(id)) == Sum(flights, DueCash(id)) - DueCash(id)(flights[k]) + DueCash(id)(f)
    ensures forall i ::
              Sum(flights[k := f], DueShares(id, i))
              == Sum(flights, DueShares(id, i)) - DueShares(id, i)(flights[k]) + DueShares(id, i)(f)
  {
    SumUpdate(flights, k, f, CountOf(id, generation));
    SumUpdate(flights, k, f, HeldCashOf(id, generation));
    SumUpdate(flights, k, f, DueCash(id));
    forall i
      ensures Sum(flights[k := f], HeldSharesOf(id, generation, i))
           == Sum(flights, HeldSharesOf(id, generation, i))
              - HeldSharesOf(id, generation, i)(flights[k]) + HeldSharesOf(id, generation, i)(f)
      ensures Sum(flights[k := f], DueShares(id, i))
           == Sum(flights, DueShares(id, i)) - DueShares(id, i)(flights[k]) + DueShares(id, i)(f)
    {
      SumUpdate(flights, k, f, HeldSharesOf(id, generation, i));
      SumUpdate(flights, k, f, DueShares(id, i));
    }
  }

  /* ---- Acts ---- */

  lemma SendKeeps(w: World, order: SimOrder)
    requires WorldInv(w) && Can(w, Send(order))
    ensures WorldInv(After(w, Send(order)))
  {
    var w' := After(w, Send(order));
    forall id | id in w'.shadow.users ensures Booked(w'.flights, w'.shadow.users[id], id, w'.shadow.current) {
      SendKeepsBooks(w, order, id);
    }
    forall id | id in w'.clean ensures Agrees(w', id) {
      SendKeepsAgreement(w, order, id);
    }
  }

  lemma SendKeepsBooks(w: World, order: SimOrder, id: int)
    requires Can(w, Send(order)) && id in w.shadow.users && Booked(w.flights, w.shadow.users[id], id, w.shadow.current)
    ensures var w' := After(w, Send(order)); Booked(w'.flights, w'.shadow.users[id], id, w.shadow.current)
  {
    AddFlight(w.flights, Flight(ReservationFor(w.shadow, order), Sent), id, w.shadow.current);
  }

  lemma SendKeepsAgreement(w: World, order: SimOrder, id: int)
    requires Can(w, Send(order)) && Agrees(w, id)
    ensures Agrees(After(w, Send(order)), id)
  {
    AddFlight(w.flights, Flight(ReservationFor(w.shadow, order), Sent), id, w.shadow.current);
  }

  /** The stage alone moves: the shadow's books do not see it. */
  lemma StageKeepsBooks(w: World, k: nat, stage: Stage, id: int)
    requires k < |w.flights| && id in w.shadow.users
    requires Booked(w.flights, w.shadow.users[id], id, w.shadow.current)
    requires InFlight(w.flights[k]) <==> InFlight(Flight(w.flights[k].res, stage))
    ensures Booked(SetStage(w, k, stage), w.shadow.users[id], id, w.shadow.current)
  {
    ChangeFlight(w.flights, k, Flight(w.flights[k].res, stage), id, w.shadow.current);
  }

  lemma DeltaIsTheMove(row: Row, order: SimOrder)
    requires row.side == order.side && row.size == order.size
    ensures CashDelta(row) == if row.status.Filled? then CashMove(order, row.price) else 0
    ensures ShareDelta(row) == if row.status.Filled? then ShareMove(order) else 0
  {
    assert -row.size * row.price == -row.price * row.size;
  }

  /** What a placement does to the folds is what its answer says it did. */
  lemma AnswerIsTheMove(w: World, f: Flight, id: int, key: Key, quote: Quote, user: int, instrument: int)
    requires ByKey(w.rows, f.res.order.userId, key).None?
    requires f.stage == Heard(ExecutionOf(AnswerAt(w, f.res.order, id, key, quote)))
    ensures var rows' := Placed(w.rows, AnswerAt(w, f.res.order, id, key, quote));
            && CashFold(rows', user) == CashFold(w.rows, user) + DueCash(user)(f)
            && SharesFold(rows', user, instrument)
               == SharesFold(w.rows, user, instrument) + DueShares(user, instrument)(f)
  {
    var order := f.res.order;
    var answer := AnswerAt(w, order, id, key, quote);
    StoredAsAsked(w.rows, order.userId in w.users, quote, ToRequest(order, key), id);
    if answer.Created? {
      DeltaIsTheMove(answer.row, order);
      SumAppend(w.rows, answer.row, CashOf(user));
      SumAppend(w.rows, answer.row, SharesOf(user, instrument));
    }
  }

  /** The order with the answer the target gives it. */
  function HeardOf(w: World, k: nat, id: int, key: Key, quote: Quote): Flight
    requires k < |w.flights|
  {
    Flight(w.flights[k].res, Heard(ExecutionOf(AnswerAt(w, w.flights[k].res.order, id, key, quote))))
  }

  /** The target's side of an order: nothing in the shadow moves, and what the database moves
      is due to it. */
  lemma ProcessKeeps(w: World, k: nat, id: int, key: Key, quote: Quote)
    requires WorldInv(w) && CanProcess(w, k, key)
    ensures WorldInv(Processed(w, k, id, key, quote))
  {
    var w' := Processed(w, k, id, key, quote);
    var stage := w'.flights[k].stage;
    forall u | u in w'.shadow.users ensures Booked(w'.flights, w'.shadow.users[u], u, w'.shadow.current) {
      StageKeepsBooks(w, k, stage, u);
    }
    forall u | u in w'.clean ensures Agrees(w', u) {
      var heard := HeardOf(w, k, id, key, quote);
      ChangeFlight(w.flights, k, w'.flights[k], u, w.shadow.current);
      forall i ensures SharesFold(w'.rows, u, i) == SharesFold(w.rows, u, i) + DueShares(u, i)(heard) {
        AnswerIsTheMove(w, heard, id, key, quote, u, i);
      }
      AnswerIsTheMove(w, heard, id, key, quote, u, 0);
    }
  }

  lemma RefuseKeeps(w: World, k: nat)
    requires WorldInv(w) && Can(w, Refuse(k))
    ensures WorldInv(After(w, Refuse(k)))
  {
    var w' := After(w, Refuse(k));
    forall u | u in w'.shadow.users ensures Booked(w'.flights, w'.shadow.users[u], u, w'.shadow.current) {
      StageKeepsBooks(w, k, w'.flights[k].stage, u);
    }
    forall u | u in w'.clean ensures Agrees(w', u) {
      ChangeFlight(w.flights, k, w'.flights[k], u, w.shadow.current);
    }
  }

  /** Landing an order, however it lands, takes exactly its own holds off its user's books. */
  lemma LandingKeepsBooks(w: World, k: nat, stage: Stage, id: int)
    requires k < |w.flights| && InFlight(w.flights[k]) && (stage.Closed? || stage.Orphan?)
    requires id in w.shadow.users && Booked(w.flights, w.shadow.users[id], id, w.shadow.current)
    ensures var r := w.flights[k].res;
            Booked(SetStage(w, k, stage),
                   if Current(w.shadow, r) && r.order.userId == id then Released(w.shadow.users[id], r)
                   else w.shadow.users[id],
                   id, w.shadow.current)
  {
    ChangeFlight(w.flights, k, Flight(w.flights[k].res, stage), id, w.shadow.current);
  }

  /** A settlement releases what its order held and takes in what the target did with it;
      one from an older generation touches nobody. */
  lemma DeliverKeeps(w: World, k: nat)
    requires WorldInv(w) && Can(w, Deliver(k))
    ensures WorldInv(After(w, Deliver(k)))
    ensures w.flights[k].res.generation != w.shadow.current ==> After(w, Deliver(k)).shadow.users == w.shadow.users
  {
    var w' := After(w, Deliver(k));
    forall u | u in w'.shadow.users ensures Booked(w'.flights, w'.shadow.users[u], u, w'.shadow.current) {
      LandingKeepsBooks(w, k, Closed, u);
    }
    forall u | u in w'.clean ensures Agrees(w', u) {
      DeliverKeepsAgreement(w, k, u);
    }
  }

  lemma DeliverKeepsAgreement(w: World, k: nat, u: int)
    requires Can(w, Deliver(k)) && Agrees(w, u)
    ensures Agrees(After(w, Deliver(k)), u)
  {
    ChangeFlight(w.flights, k, Flight(w.flights[k].res, Closed), u, w.shadow.current);
    SettlePaysWhatWasDue(w, k, u);
  }

  /** What a settlement adds to a figure is what was due for the order. */
  lemma SettlePaysWhatWasDue(w: World, k: nat, u: int)
    requires Can(w, Deliver(k)) && u in w.shadow.users
    requires w.flights[k].res.order.userId == u ==> Live(w.flights[k], u, w.shadow.current)
    ensures u in After(w, Deliver(k)).shadow.users
    ensures var before, after := w.shadow.users[u], After(w, Deliver(k)).shadow.users[u];
            && after.seeded == before.seeded && after.uncertain == before.uncertain
            && after.cash == before.cash + DueCash(u)(w.flights[k])
            && forall i :: Get(after.shares, i) == Get(before.shares, i) + DueShares(u, i)(w.flights[k])
  {
  }

  lemma VanishKeeps(w: World, k: nat)
    requires WorldInv(w) && Can(w, Vanish(k))
    ensures WorldInv(After(w, Vanish(k)))
  {
    var w' := After(w, Vanish(k));
    forall u | u in w'.shadow.users ensures Booked(w'.flights, w'.shadow.users[u], u, w'.shadow.current) {
      LandingKeepsBooks(w, k, w'.flights[k].stage, u);
    }
    forall u | u in w'.clean ensures Agrees(w', u) {
      VanishKeepsAgreement(w, k, u);
    }
  }

  lemma VanishKeepsAgreement(w: World, k: nat, u: int)
    requires Can(w, Vanish(k)) && Agrees(w, u) && w.flights[k].res.order.userId != u
    ensures Agrees(After(w, Vanish(k)), u)
  {
    ChangeFlight(w.flights, k, After(w, Vanish(k)).flights[k], u, w.shadow.current);
  }

  lemma NewGenerationKeeps(w: World, ids: seq<int>)
    requires WorldInv(w)
    ensures WorldInv(After(w, NewGeneration(ids)))
  {
    var generation := w.shadow.current + 1;
    forall u | u in ids ensures Booked(w.flights, BLANK, u, generation) {
      SumZero(w.flights, CountOf(u, generation));
      SumZero(w.flights, HeldCashOf(u, generation));
      forall i ensures Sum(w.flights, HeldSharesOf(u, generation, i)) == 0 {
        SumZero(w.flights, HeldSharesOf(u, generation, i));
      }
    }
  }

  /** The shares a seed reads are the position folds of every listed instrument. */
  lemma {:induction false} SeedReadsFolds(rows: seq<Row>, quotes: map<int, Quote>, catalog: Catalog, user: int, i: int)
    requires Distinct(catalog) && Listed(quotes, i)
    ensures Get(SharesOfPositions(Positions(rows, quotes, catalog, user)), i)
         == if i in catalog then SharesFold(rows, user, i) else 0
  {
    if catalog != [] {
      var n := |catalog| - 1;
      SeedReadsFolds(rows, quotes, catalog[..n], user, i);
      assert catalog == catalog[..n] + [catalog[n]];
      ViewsAreFolds(rows, user, catalog[n]);
      var rest, all := Positions(rows, quotes, catalog[..n], user), Positions(rows, quotes, catalog, user);
      assert |all| > |rest| ==> all[..|rest|] == rest && |all| == |rest| + 1;
    }
  }

  lemma SeedKeeps(w: World, generation: int, user: int, portfolio: Portfolio)
    requires WorldInv(w)
    ensures WorldInv(After(w, SeedUser(generation, user, portfolio)))
  {
    var w' := After(w, SeedUser(generation, user, portfolio));
    forall u | u in w'.shadow.users ensures Booked(w'.flights, w'.shadow.users[u], u, w'.shadow.current) {
      assert Booked(w.flights, w.shadow.users[u], u, w.shadow.current);
    }
    forall u | u in w'.clean ensures Agrees(w', u) {
      if u == user && Seeds(w.shadow, generation, user) {
        WholeSeedAgrees(w, u, portfolio);
      } else {
        assert Agrees(w, u);
      }
    }
  }

  /** The quantities a read reports are the same at any closes. */
  lemma {:induction false} QuantitiesStand(rows: seq<Row>, quotes: map<int, Quote>, quotes': map<int, Quote>,
                                           catalog: Catalog, user: int)
    requires forall j :: Listed(quotes, j) <==> Listed(quotes', j)
    ensures |Positions(rows, quotes, catalog, user)| == |Positions(rows, quotes', catalog, user)|
    ensures SharesOfPositions(Positions(rows, quotes, catalog, user))
         == SharesOfPositions(Positions(rows, quotes', catalog, user))
  {
    if catalog != [] {
      var n := |catalog| - 1;
      QuantitiesStand(rows, quotes, quotes', catalog[..n], user);
      var (rest, all) := (Positions(rows, quotes, catalog[..n], user), Positions(rows, quotes, catalog, user));
      var (rest', all') := (Positions(rows, quotes', catalog[..n], user), Positions(rows, quotes', catalog, user));
      assert |all| > |rest| ==> all[..|rest|] == rest && all'[..|rest'|] == rest';
    }
  }

  /** So a close that moves between the read and the seed costs the seed nothing. */
  lemma ClosesMayMove(w: World, i: int, close: nat, user: int, portfolio: Portfolio)
    ensures ReadsBalances(After(w, MoveClose(i, close)), user, portfolio) <==> ReadsBalances(w, user, portfolio)
  {
    var w' := After(w, MoveClose(i, close));
    assert forall j :: Listed(w'.quotes, j) <==> Listed(w.quotes, j);
    QuantitiesStand(w.rows, w.quotes, w'.quotes, w.catalog, user);
  }

  /** A read of the balances as they are, with nothing in flight, is the database. */
  lemma WholeSeedAgrees(w: World, u: int, portfolio: Portfolio)
    requires WorldInv(w) && u in w.shadow.users && Grounded(w, u) && ReadsBalances(w, u, portfolio)
    ensures Agrees(After(w, SeedUser(w.shadow.current, u, portfolio)), u)
  {
    var w' := After(w, SeedUser(w.shadow.current, u, portfolio));
    assert Booked(w.flights, w.shadow.users[u], u, w.shadow.current);
    SumZero(w.flights, CountOf(u, w.shadow.current));
    SumZero(w.flights, DueCash(u));
    ViewsAreFolds(w.rows, u, 0);
    forall i | Listed(w.quotes, i)
      ensures Get(w'.shadow.users[u].shares, i) + Sum(w.flights, DueShares(u, i)) == SharesFold(w.rows, u, i)
    {
      SumZero(w.flights, DueShares(u, i));
      SeedReadsFolds(w.rows, w.quotes, w.catalog, u, i);
    }
  }

  lemma CancelKeeps(w: World, id: int)
    requires WorldInv(w)
    ensures WorldInv(After(w, CancelOrder(id)))
  {
    var w' := After(w, CancelOrder(id));
    var (answer, rows') := Cancel(w.rows, id);
    forall u | u in w'.clean ensures Agrees(w', u) {
      if answer.CancelOk? {
        var at := FindId(w.rows, id).value;
        SumUpdate(w.rows, at, answer.row, CashOf(u));
        forall i ensures SharesFold(rows', u, i) == SharesFold(w.rows, u, i) {
          SumUpdate(w.rows, at, answer.row, SharesOf(u, i));
        }
      }
      assert Agrees(w, u);
    }
  }

  lemma MoveCloseKeeps(w: World, i: int, close: nat)
    requires WorldInv(w) && Can(w, MoveClose(i, close))
    ensures WorldInv(After(w, MoveClose(i, close)))
  {
    var w' := After(w, MoveClose(i, close));
    assert forall j :: Listed(w'.quotes, j) ==> Listed(w.quotes, j);
    forall u | u in w'.clean ensures Agrees(w', u) {
      assert Agrees(w, u);
    }
  }

  lemma AfterKeeps(w: World, act: Act)
    requires WorldInv(w)
    ensures WorldInv(After(w, act))
  {
    if Can(w, act) {
      match act
      case Send(order) => SendKeeps(w, order);
      case Process(k, id, key) => ProcessKeeps(w, k, id, key, QuoteOf(w.quotes, w.flights[k].res.order.instrumentId));
      case ProcessAt(k, id, key, quote) => ProcessKeeps(w, k, id, key, quote);
      case Refuse(k) => RefuseKeeps(w, k);
      case Deliver(k) => DeliverKeeps(w, k);
      case Vanish(k) => VanishKeeps(w, k);
      case NewGeneration(ids) => NewGenerationKeeps(w, ids);
      case SeedUser(generation, user, portfolio) => SeedKeeps(w, generation, user, portfolio);
      case CancelOrder(id) => CancelKeeps(w, id);
      case MoveClose(i, close) => MoveCloseKeeps(w, i, close);
    }
  }

  lemma {:induction false} ActsKeep(w: World, acts: seq<Act>)
    requires WorldInv(w)
    ensures WorldInv(Acts(w, acts))
  {
    if acts != [] {
      ActsKeep(w, acts[..|acts| - 1]);
      AfterKeeps(Acts(w, acts[..|acts| - 1]), acts[|acts| - 1]);
    }
  }
}
