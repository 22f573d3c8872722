/** By how much a trusted shadow is off: by what its seed misread, and by the moves of the orders
    that landed since and that it will never be told of. */
module ShadowStrays {
  import opened SeqSum
  import opened Ledger
  import opened Placement
  import opened Protocol
  import opened Portfolio
  import opened ShadowLedger
  import opened ShadowWorld
  import opened ShadowSoundness

  /** One figure of a user: the cash, or the shares of one instrument. */
  datatype Figure = Cash | Shares(instrument: int)

  function FoldOf(m: Figure, rows: seq<Row>, u: int): int {
    match m case Cash => CashFold(rows, u) case Shares(i) => SharesFold(rows, u, i)
  }

  function Believed(m: Figure, user: ShadowUser): int {
    match m case Cash => user.cash case Shares(i) => Get(user.shares, i)
  }

  function ReadIn(m: Figure, portfolio: Portfolio): int {
    match m case Cash => portfolio.availableCash case Shares(i) => Get(SharesOfPositions(portfolio.positions), i)
  }

  function MoveOf(m: Figure, order: SimOrder, price: int): int {
    match m
    case Cash => CashMove(order, price)
    case Shares(i) => if order.instrumentId == i then ShareMove(order) else 0
  }

  /** What a flight filled for the user, once its answer is on the way. */
  function Fill(m: Figure, f: Flight, u: int): int {
    if FillHeard(f, u) then MoveOf(m, f.res.order, f.stage.exec.value.price) else 0
  }

  /** What the shadow is still going to be told. */
  function Telling(m: Figure, u: int, generation: int): Flight -> int {
    (f: Flight) => if Live(f, u, generation) then Fill(m, f, u) else 0
  }

  /** One act's part: a seed starts over with what it misread; an order the target processes after
      its generation has passed, or after it was given up on, is one the shadow never hears of. */
  function NextStray(m: Figure, w: World, act: Act, u: int, stray: int): int {
    if !Can(w, act) then stray else
    match act
    case SeedUser(generation, user, portfolio) =>
      if user == u && Seeds(w.shadow, generation, user) then FoldOf(m, w.rows, u) - ReadIn(m, portfolio) else stray
    case Process(k, id, key) =>
      Unheard(m, w, k, id, key, QuoteOf(w.quotes, w.flights[k].res.order.instrumentId), u, stray)
    case ProcessAt(k, id, key, quote) => Unheard(m, w, k, id, key, quote, u, stray)
    case _ => stray
  }

  function Unheard(m: Figure, w: World, k: nat, id: int, key: Key, quote: Quote, u: int, stray: int): int
    requires k < |w.flights|
  {
    if Live(w.flights[k], u, w.shadow.current) then stray else stray + Fill(m, HeardOf(w, k, id, key, quote), u)
  }

  function Stray(m: Figure, w: World, acts: seq<Act>, u: int): int {
    if acts == [] then 0
    else
      var n := |acts| - 1;
      NextStray(m, Acts(w, acts[..n]), acts[n], u, Stray(m, w, acts[..n], u))
  }

  /** A trusted shadow, with what it is going to be told and what strayed, is the database. */
  ghost predicate Tracked(m: Figure, w: World, u: int, stray: int) {
    u in w.shadow.users && w.shadow.users[u].seeded && !w.shadow.users[u].uncertain ==>
      Believed(m, w.shadow.users[u]) + Sum(w.flights, Telling(m, u, w.shadow.current)) + stray == FoldOf(m, w.rows, u)
  }

  lemma FillIsDue(m: Figure, f: Flight, u: int)
    ensures Fill(m, f, u) == match m case Cash => DueCash(u)(f) case Shares(i) => DueShares(u, i)(f)
  {
  }

  lemma LandingIsTheMove(m: Figure, w: World, k: nat, id: int, key: Key, quote: Quote, u: int)
    requires CanProcess(w, k, key)
    ensures FoldOf(m, Processed(w, k, id, key, quote).rows, u)
         == FoldOf(m, w.rows, u) + Fill(m, HeardOf(w, k, id, key, quote), u)
  {
    var heard := HeardOf(w, k, id, key, quote);
    FillIsDue(m, heard, u);
    AnswerIsTheMove(w, heard, id, key, quote, u, if m.Shares? then m.instrument else 0);
  }

  lemma ProcessTracks(m: Figure, w: World, k: nat, id: int, key: Key, quote: Quote, u: int, stray: int)
    requires CanProcess(w, k, key) && Tracked(m, w, u, stray)
    ensures Tracked(m, Processed(w, k, id, key, quote), u, Unheard(m, w, k, id, key, quote, u, stray))
  {
    LandingIsTheMove(m, w, k, id, key, quote, u);
    SumUpdate(w.flights, k, Processed(w, k, id, key, quote).flights[k], Telling(m, u, w.shadow.current));
  }

  lemma DeliverTracks(m: Figure, w: World, k: nat, u: int, stray: int)
    requires Can(w, Deliver(k)) && Tracked(m, w, u, stray)
    ensures Tracked(m, After(w, Deliver(k)), u, stray)
  {
    SumUpdate(w.flights, k, Flight(w.flights[k].res, Closed), Telling(m, u, w.shadow.current));
  }

  lemma VanishTracks(m: Figure, w: World, k: nat, u: int, stray: int)
    requires Can(w, Vanish(k)) && Tracked(m, w, u, stray)
    ensures Tracked(m, After(w, Vanish(k)), u, stray)
  {
    SumUpdate(w.flights, k, After(w, Vanish(k)).flights[k], Telling(m, u, w.shadow.current));
  }

  lemma RefuseTracks(m: Figure, w: World, k: nat, u: int, stray: int)
    requires Can(w, Refuse(k)) && Tracked(m, w, u, stray)
    ensures Tracked(m, After(w, Refuse(k)), u, stray)
  {
    SumUpdate(w.flights, k, After(w, Refuse(k)).flights[k], Telling(m, u, w.shadow.current));
  }

  lemma SendTracks(m: Figure, w: World, order: SimOrder, u: int, stray: int)
    requires Can(w, Send(order)) && Tracked(m, w, u, stray)
    ensures Tracked(m, After(w, Send(order)), u, stray)
  {
    SumAppend(w.flights, Flight(ReservationFor(w.shadow, order), Sent), Telling(m, u, w.shadow.current));
  }

  lemma SeedTracks(m: Figure, w: World, generation: int, user: int, portfolio: Portfolio, u: int, stray: int)
    requires WorldInv(w) && Tracked(m, w, u, stray)
    ensures var act := SeedUser(generation, user, portfolio);
            Tracked(m, After(w, act), u, NextStray(m, w, act, u, stray))
  {
    if user == u && Seeds(w.shadow, generation, user) && w.shadow.users[u].outstanding <= 0 {
      assert Booked(w.flights, w.shadow.users[u], u, w.shadow.current);
      NoneLiveIffNoneOutstanding(w.flights, u, w.shadow.current);
      NothingToTell(m, w, u);
    }
  }

  lemma NothingToTell(m: Figure, w: World, u: int)
    requires forall k :: 0 <= k < |w.flights| ==> !Live(w.flights[k], u, w.shadow.current)
    ensures Sum(w.flights, Telling(m, u, w.shadow.current)) == 0
  {
    SumZero(w.flights, Telling(m, u, w.shadow.current));
  }

  lemma CancelTracks(m: Figure, w: World, id: int, u: int, stray: int)
    requires Tracked(m, w, u, stray)
    ensures Tracked(m, After(w, CancelOrder(id)), u, stray)
  {
    if Cancel(w.rows, id).0.CancelOk? {
      var at := FindId(w.rows, id).value;
      SumUpdate(w.rows, at, Cancel(w.rows, id).0.row, CashOf(u));
      if m.Shares? {
        SumUpdate(w.rows, at, Cancel(w.rows, id).0.row, SharesOf(u, m.instrument));
      }
    }
  }

  lemma AfterTracks(m: Figure, w: World, act: Act, u: int, stray: int)
    requires WorldInv(w) && Tracked(m, w, u, stray)
    ensures Tracked(m, After(w, act), u, NextStray(m, w, act, u, stray))
  {
    if Can(w, act) {
      match act
      case Send(order) => SendTracks(m, w, order, u, stray);
      case Process(k, id, key) =>
        ProcessTracks(m, w, k, id, key, QuoteOf(w.quotes, w.flights[k].res.order.instrumentId), u, stray);
      case ProcessAt(k, id, key, quote) => ProcessTracks(m, w, k, id, key, quote, u, stray);
      case Refuse(k) => RefuseTracks(m, w, k, u, stray);
      case Deliver(k) => DeliverTracks(m, w, k, u, stray);
      case Vanish(k) => VanishTracks(m, w, k, u, stray);
      case NewGeneration(_) =>
      case SeedUser(generation, user, portfolio) => SeedTracks(m, w, generation, user, portfolio, u, stray);
      case CancelOrder(id) => CancelTracks(m, w, id, u, stray);
      case MoveClose(_, _) =>
    }
  }

  lemma {:induction false} ActsTrack(m: Figure, w: World, acts: seq<Act>, u: int)
    requires Fresh(w)
    ensures WorldInv(Acts(w, acts)) && Tracked(m, Acts(w, acts), u, Stray(m, w, acts, u))
  {
    ActsKeep(w, acts);
    if acts != [] {
      var n := |acts| - 1;
      ActsTrack(m, w, acts[..n], u);
      AfterTracks(m, Acts(w, acts[..n]), acts[n], u, Stray(m, w, acts[..n], u));
    }
  }

  /** In any run from a fresh ledger, whatever was lost, re-read or left behind by a generation: a
      trusted shadow with nothing outstanding is off by exactly what strayed since its seed. */
  lemma StrayIsTheGap(m: Figure, w: World, acts: seq<Act>, u: int)
    requires Fresh(w) && u in Acts(w, acts).shadow.users
    requires var user := Acts(w, acts).shadow.users[u]; user.seeded && !user.uncertain && user.outstanding == 0
    ensures FoldOf(m, Acts(w, acts).rows, u) - Believed(m, Acts(w, acts).shadow.users[u]) == Stray(m, w, acts, u)
  {
    ActsTrack(m, w, acts, u);
    var w' := Acts(w, acts);
    NoneLiveIffNoneOutstanding(w'.flights, u, w'.shadow.current);
    NothingToTell(m, w', u);
  }

  /** So it agrees with the database exactly when nothing did; and for a user seeded by one atomic
      read with nothing in flight, and nothing lost since, nothing has. */
  lemma TrustedIsRightIffNothingStrayed(w: World, acts: seq<Act>, u: int)
    requires Fresh(w) && u in Acts(w, acts).shadow.users
    requires var user := Acts(w, acts).shadow.users[u]; user.seeded && !user.uncertain && user.outstanding == 0
    ensures var w' := Acts(w, acts);
            && (w'.shadow.users[u].cash == AvailableCash(w'.rows, u) <==> Stray(Cash, w, acts, u) == 0)
            && (forall i :: Get(w'.shadow.users[u].shares, i) == HeldShares(w'.rows, u, i)
                            <==> Stray(Shares(i), w, acts, u) == 0)
            && (u in w'.clean ==> Stray(Cash, w, acts, u) == 0
                                  && forall i :: Listed(w'.quotes, i) ==> Stray(Shares(i), w, acts, u) == 0)
  {
    var w' := Acts(w, acts);
    StrayIsTheGap(Cash, w, acts, u);
    ViewsAreFolds(w'.rows, u, 0);
    forall i
      ensures Get(w'.shadow.users[u].shares, i) == HeldShares(w'.rows, u, i) <==> Stray(Shares(i), w, acts, u) == 0
    {
      StrayIsTheGap(Shares(i), w, acts, u);
      ViewsAreFolds(w'.rows, u, i);
    }
    if u in w'.clean {
      ShadowAgrees(w, acts, u);
    }
  }
}
