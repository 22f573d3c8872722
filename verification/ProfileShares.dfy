/** How a load profile spreads what it sends: over its users, its instruments, its sides, and its ramp. */
module ProfileShares {
  import opened OrderRules
  import opened SeqSum
  import opened Ledger
  import opened Placement
  import opened ShadowWorld
  import opened Rings
  import opened Profiles

  /** How many of the first n indexes fall to slot j of m. */
  function Share(n: nat, m: nat, j: nat): nat
    requires m > 0
  {
    n / m + if j < n % m then 1 else 0
  }

  lemma NextShare(n: nat, m: nat, j: nat)
    requires j < m
    ensures Share(n + 1, m, j) == Share(n, m, j) + if n % m == j then 1 else 0
  {
    var q, r := n / m, n % m;
    assert n == q * m + r;
    if r + 1 < m {
      QuotientIs(n + 1, q, r + 1, m);
    } else {
      assert n + 1 == (q + 1) * m;
      QuotientIs(n + 1, q + 1, 0, m);
    }
  }

  lemma QuotientIs(n: nat, q: nat, r: nat, m: nat)
    requires r < m && n == q * m + r
    ensures n / m == q && n % m == r
  {
    Quotient(n, q, r, m);
    var d := n / m - q;
    assert n == n / m * m + n % m;
    assert d * m == 0;
    MultipleIsFar(d, m);
  }

  /** Steps told apart by their index alone come up as often as their slot does. */
  lemma {:induction false} SlotShare(p: LoadProfile, n: nat, m: nat, j: nat, f: Plan -> bool)
    requires p.users != [] && j < m && forall i: nat :: i < n ==> (f(StepAt(p, i)) <==> i % m == j)
    ensures |Where(Steps(p, 0, n), f)| == Share(n, m, j)
  {
    if n == 0 {
      assert Where(Steps(p, 0, n), f) == {};
      QuotientIs(0, 0, 0, m);
    } else {
      SlotShare(p, n - 1, m, j, f);
      WhereAppend(Steps(p, 0, n - 1), StepAt(p, n - 1), f);
      NextShare(n - 1, m, j);
    }
  }

  /** Outside contention each user of the profile is sent the same share of any stretch from its start, to
      within one order. */
  lemma EveryUserGetsAShare(p: LoadProfile, n: nat, j: nat)
    requires Startable(p) && !p.mode.Contention? && j < |p.users|
    requires forall a, b :: 0 <= a < b < |p.users| ==> p.users[a] != p.users[b]
    ensures |Where(Steps(p, 0, n), (step: Plan) => OrderOf(step).userId == p.users[j])| == Share(n, |p.users|, j)
  {
    SlotShare(p, n, |p.users|, j, (step: Plan) => OrderOf(step).userId == p.users[j]);
  }

  /** So is each tradable instrument, unless the profile asks for one. */
  lemma EveryInstrumentGetsAShare(p: LoadProfile, n: nat, j: nat)
    requires Startable(p) && !p.sameInstrument && j < 7
    ensures var instruments := [47, 54, 31, 45, 34, 50, 61];
            |Where(Steps(p, 0, n), (step: Plan) => OrderOf(step).instrumentId == instruments[j])| == Share(n, 7, j)
  {
    var instruments := [47, 54, 31, 45, 34, 50, 61];
    SlotShare(p, n, 7, j, (step: Plan) => OrderOf(step).instrumentId == instruments[j]);
  }

  /** Where nothing is cancelled every order is a MARKET one, every other a sale, and the sizes one to three
      take turns. */
  lemma SidesAndSizesTakeTurns(p: LoadProfile, n: nat, size: nat)
    requires Startable(p) && !(p.mode.Contention? && p.cancelMix > 0.0) && 1 <= size <= 3
    ensures |Where(Steps(p, 0, n), (step: Plan) => OrderOf(step).side.Buy?)| == Share(n, 2, 0)
    ensures |Where(Steps(p, 0, n), (step: Plan) => OrderOf(step).size == size)| == Share(n, 3, size - 1)
    ensures |Where(Steps(p, 0, n), (step: Plan) => OrderOf(step).otype.Market? && step.PlaceStep?)| == n
  {
    SlotShare(p, n, 2, 0, (step: Plan) => OrderOf(step).side.Buy?);
    SlotShare(p, n, 3, size - 1, (step: Plan) => OrderOf(step).size == size);
    SlotShare(p, n, 1, 0, (step: Plan) => OrderOf(step).otype.Market? && step.PlaceStep?);
    QuotientIs(n, n, 0, 1);
  }

  /** A cancelling profile asks for one cancel in every period, and for one order to rest before it. */
  lemma OneCancelEachPeriod(p: LoadProfile, n: nat)
    requires Startable(p) && Period(p) >= 2
    ensures |Where(Steps(p, 0, n), (step: Plan) => step.CancelStep?)| == Share(n, Period(p), 1)
    ensures |Where(Steps(p, 0, n), (step: Plan) => step.PlaceStep? && step.order.otype.Limit?)|
         == Share(n, Period(p), 0)
  {
    SlotShare(p, n, Period(p), 1, (step: Plan) => step.CancelStep?);
    SlotShare(p, n, Period(p), 0, (step: Plan) => step.PlaceStep? && step.order.otype.Limit?);
  }

  /** No other whole period is nearer to the mix: one cancel in a period is the mix asked for, to within half
      a step. */
  lemma PeriodIsNearest(p: LoadProfile)
    requires Startable(p) && p.mode.Contention? && p.cancelMix > 0.0
    ensures var cancels := Period(p) as real * p.cancelMix; 1.0 - 0.5 * p.cancelMix < cancels <= 1.0 + 0.5 * p.cancelMix
  {
    var mix := p.cancelMix;
    var whole := 1.0 / mix;
    Nearest(Period(p) as real, whole, mix);
  }

  lemma Nearest(n: real, whole: real, mix: real)
    requires mix > 0.0 && whole * mix == 1.0 && n <= whole + 0.5 < n + 1.0
    ensures 1.0 - 0.5 * mix < n * mix <= 1.0 + 0.5 * mix
  {
    var (least, most) := (whole + 0.5, n + 1.0);
    ScaledBy(n, least, mix);
    ScaledBy(least, most, mix);
    assert least * mix == whole * mix + 0.5 * mix;
    assert most * mix == n * mix + 1.0 * mix;
    assert n * mix <= 1.0 + 0.5 * mix;
    assert least * mix < most * mix;
    assert least * mix == 1.0 + 0.5 * mix;
    assert 1.0 + 0.5 * mix < n * mix + mix;
  }

  lemma ScaledBy(x: real, y: real, mix: real)
    requires mix > 0.0
    ensures x <= y ==> x * mix <= y * mix
    ensures x < y ==> x * mix < y * mix
  {
  }

  /** The width of a ramp, in whole numbers: it climbs by the share of half the run that was sent. */
  lemma RampIsLinear(p: LoadProfile, sent: nat)
    requires Startable(p) && p.mode.Ramp?
    ensures ConcurrencyAt(p, sent) ==
            if 2 * sent >= p.totalOrders then p.concurrency
            else 1 + (p.concurrency - 1) * (2 * sent) / p.totalOrders
  {
    var (k, t) := (p.concurrency - 1, p.totalOrders);
    if 2 * sent >= t {
      ConcurrencyGrows(p, sent, sent);
    } else {
      var share := sent as real / (t as real * 0.5);
      assert share * t as real == (2 * sent) as real by {
        assert share * (t as real * 0.5) == sent as real;
      }
      FloorOfShare(k, 2 * sent, t, share);
      DividingKeepsOrder(sent as real, t as real * 0.5, t as real * 0.5);
      BelowHalf(sent, t, share);
    }
  }

  lemma BelowHalf(sent: nat, t: nat, share: real)
    requires t > 0 && 2 * sent < t && share * t as real == (2 * sent) as real
    ensures share < 1.0
  {
    ScaledBy(1.0, share, t as real);
  }

  lemma FloorOfShare(k: nat, twice: nat, t: nat, share: real)
    requires t > 0 && share * t as real == twice as real
    ensures Scaled(k, share) == k * twice / t
  {
    var (q, r) := (k * twice / t, k * twice % t);
    assert k * twice == q * t + r;
    var x := k as real * share;
    assert x * t as real == (k * twice) as real;
    assert x * t as real == q as real * t as real + r as real;
    var d := x - q as real;
    assert d * t as real == r as real;
    ScaledBy(d, 0.0, t as real);
    ScaledBy(1.0, d, t as real);
  }

  /** A resting order of the plan is stored, and rests, exactly while its user has a peso; it never fills. */
  lemma RestingOrderRests(p: LoadProfile, index: nat, rows: seq<Row>, quote: Quote, key: Key, id: int)
    requires Startable(p) && ByKey(rows, RestingOrder(p, index).userId, key).None?
    ensures var a := Place(rows, true, quote, ToRequest(RestingOrder(p, index), key), id);
            a.Created? ==>
              && a.row.side.Buy? && a.row.otype.Limit? && a.row.price == 100 && a.row.size == 1
              && a.row.status != Filled && (a.row.status == New <==> CashFold(rows, a.row.userId) >= 100)
  {
    ViewsAreFolds(rows, RestingOrder(p, index).userId, RestingOrder(p, index).instrumentId);
  }
}
