/** A load profile as waves of requests: a pure function of the profile, planned by one loop. */
module Profiles {
  import opened Options
  import opened OrderRules
  import opened Ledger
  import opened Placement
  import opened ShadowLedger
  import opened ShadowWorld
  import opened Rings

  datatype LoadMode = Burst | Ramp | Contention

  datatype LoadProfile = LoadProfile(mode: LoadMode, concurrency: nat, totalOrders: nat, users: seq<int>,
                                     sameInstrument: bool, cancelMix: real)

  /** What the validation of a start request and the default profile leave possible. */
  predicate Startable(p: LoadProfile) {
    1 <= p.concurrency <= 3_000 && 1 <= p.totalOrders <= 5_000 && p.users != [] && 0.0 <= p.cancelMix <= 0.5
  }

  datatype Plan = PlaceStep(order: SimOrder) | CancelStep(fallback: SimOrder)

  const HOT_INSTRUMENT: int := 31
  const TRADABLE_INSTRUMENTS: seq<int> := [47, 54, 31, 45, 34, 50, 61]
  const SIZES: seq<int> := [1, 2, 3]
  const LIMIT_PRICE: int := 100

  function InstrumentAt(p: LoadProfile, index: nat): int {
    if p.sameInstrument then HOT_INSTRUMENT else TRADABLE_INSTRUMENTS[index % |TRADABLE_INSTRUMENTS|]
  }

  function UserAt(p: LoadProfile, index: nat): int
    requires p.users != []
  {
    if p.mode.Contention? then p.users[0] else p.users[index % |p.users|]
  }

  /** Rounds half up, as the engine's Math.round does. */
  function Round(x: real): int { (x + 0.5).Floor }

  function Period(p: LoadProfile): int {
    if p.mode.Contention? && p.cancelMix > 0.0 then Round(1.0 / p.cancelMix) else 0
  }

  function MarketStep(p: LoadProfile, index: nat): Plan
    requires p.users != []
  {
    PlaceStep(SimOrder(UserAt(p, index), InstrumentAt(p, index), if index % 2 == 0 then Buy else Sell,
                       SIZES[index % |SIZES|], Market, None))
  }

  function RestingOrder(p: LoadProfile, index: nat): SimOrder
    requires p.users != []
  {
    SimOrder(UserAt(p, index), InstrumentAt(p, index), Buy, 1, Limit, Some(LIMIT_PRICE))
  }

  function StepAt(p: LoadProfile, index: nat): Plan
    requires p.users != []
  {
    var period := Period(p);
    if period < 2 then MarketStep(p, index)
    else if index % period == 0 then PlaceStep(RestingOrder(p, index))
    else if index % period == 1 then CancelStep(RestingOrder(p, index))
    else MarketStep(p, index)
  }

  /** A mix of at most a half leaves every cancel a resting order in front of it. */
  lemma PeriodAtLeastTwo(p: LoadProfile)
    requires Startable(p) && p.mode.Contention? && p.cancelMix > 0.0
    ensures Period(p) >= 2
  {
    var over := (1.0 - 2.0 * p.cancelMix) / p.cancelMix;
    assert over >= 0.0 && 1.0 / p.cancelMix == 2.0 + over;
  }

  function OrderOf(step: Plan): SimOrder { if step.PlaceStep? then step.order else step.fallback }

  /** Whatever a step places, the target's validation lets it through, and it is for one of the
      profile's users in an instrument that can be traded. */
  lemma EveryStepIsAccepted(p: LoadProfile, index: nat, key: Key)
    requires Startable(p)
    ensures var order := OrderOf(StepAt(p, index));
            && WellFormed(ToRequest(order, key)) && order.userId in p.users
            && order.instrumentId in TRADABLE_INSTRUMENTS
            && (p.mode.Contention? ==> order.userId == p.users[0])
            && (p.sameInstrument ==> order.instrumentId == HOT_INSTRUMENT)
  {
    assert TRADABLE_INSTRUMENTS[2] == HOT_INSTRUMENT;
    assert SIZES[index % 3] in SIZES && forall size :: size in SIZES ==> 1 <= size <= 3;
  }

  /* ---- The ramp ---- */

  function Climbed(p: LoadProfile, sent: nat): real
    requires p.totalOrders > 0
  {
    var share := sent as real / (p.totalOrders as real * 0.5);
    if share < 1.0 then share else 1.0
  }

  function Scaled(k: nat, x: real): int { (k as real * x).Floor }

  function ConcurrencyAt(p: LoadProfile, sent: nat): int
    requires p.totalOrders > 0 && p.concurrency > 0
  {
    if p.mode.Ramp? then 1 + Scaled(p.concurrency - 1, Climbed(p, sent)) else p.concurrency
  }

  lemma StrictScaling(x: real, y: real, d: real)
    requires d > 0.0
    ensures x < y ==> x * d < y * d
  {
  }

  lemma DividingKeepsOrder(x: real, y: real, d: real)
    requires 0.0 <= x <= y && d > 0.0
    ensures 0.0 <= x / d <= y / d
  {
    var u, v := x / d, y / d;
    assert u * d == x && v * d == y;
    StrictScaling(v, u, d);
    StrictScaling(u, 0.0, d);
  }

  lemma ClimbOnly(p: LoadProfile, a: nat, b: nat)
    requires p.totalOrders > 0 && a <= b
    ensures 0.0 <= Climbed(p, a) <= Climbed(p, b) <= 1.0
    ensures 2 * b >= p.totalOrders ==> Climbed(p, b) == 1.0
    ensures Climbed(p, 0) == 0.0
  {
    var half := p.totalOrders as real * 0.5;
    DividingKeepsOrder(a as real, b as real, half);
    if 2 * b >= p.totalOrders {
      DividingKeepsOrder(half, b as real, half);
    }
  }

  lemma FloorClimbs(k: nat, x: real, y: real)
    requires 0.0 <= x <= y <= 1.0
    ensures 0 <= Scaled(k, x) <= Scaled(k, y) <= k
    ensures (x == 0.0 ==> Scaled(k, x) == 0) && (y == 1.0 ==> Scaled(k, y) == k)
  {
    var r := k as real;
    assert 0.0 <= r * x <= r * y <= r * 1.0;
  }

  /** The width never falls as a run goes on, stays between one and the profile's, and from half
      the run on is the profile's. */
  lemma ConcurrencyGrows(p: LoadProfile, a: nat, b: nat)
    requires Startable(p) && a <= b
    ensures 1 <= ConcurrencyAt(p, a) <= ConcurrencyAt(p, b) <= p.concurrency
    ensures 2 * b >= p.totalOrders ==> ConcurrencyAt(p, b) == p.concurrency
    ensures p.mode.Ramp? ==> ConcurrencyAt(p, 0) == 1
  {
    if p.mode.Ramp? {
      ClimbOnly(p, a, b);
      FloorClimbs(p.concurrency - 1, Climbed(p, a), Climbed(p, b));
      FloorClimbs(p.concurrency - 1, Climbed(p, 0), Climbed(p, b));
    }
  }

  /* ---- The plan ---- */

  function Flatten(waves: seq<seq<Plan>>): seq<Plan> {
    if waves == [] then [] else Flatten(waves[..|waves| - 1]) + waves[|waves| - 1]
  }

  lemma FlattenLast(waves: seq<seq<Plan>>, wave: seq<Plan>)
    ensures Flatten(waves + [wave]) == Flatten(waves) + wave
  {
    assert (waves + [wave])[..|waves|] == waves;
  }

  /** Steps `from` to `to` of the profile. */
  function Steps(p: LoadProfile, from: nat, to: nat): seq<Plan>
    requires p.users != [] && from <= to
  {
    if from == to then [] else Steps(p, from, to - 1) + [StepAt(p, to - 1)]
  }

  lemma {:induction false} StepsJoin(p: LoadProfile, from: nat, mid: nat, to: nat)
    requires p.users != [] && from <= mid <= to
    ensures Steps(p, from, mid) + Steps(p, mid, to) == Steps(p, from, to)
  {
    if mid == to {
      assert Steps(p, from, mid) + [] == Steps(p, from, mid);
    } else {
      StepsJoin(p, from, mid, to - 1);
      assert Steps(p, from, mid) + Steps(p, mid, to)
             == Steps(p, from, mid) + Steps(p, mid, to - 1) + [StepAt(p, to - 1)];
    }
  }

  lemma {:induction false} StepsCount(p: LoadProfile, from: nat, to: nat)
    requires p.users != [] && from <= to
    ensures |Steps(p, from, to)| == to - from
    ensures forall k :: from <= k < to ==> Steps(p, from, to)[k - from] == StepAt(p, k)
  {
    if from < to {
      StepsCount(p, from, to - 1);
    }
  }

  predicate Sized(waves: seq<seq<Plan>>, least: nat, most: int) {
    forall w :: 0 <= w < |waves| ==> least <= |waves[w]| <= most
  }

  predicate Climbing(waves: seq<seq<Plan>>) {
    forall v, w :: 0 <= v < w < |waves| ==> |waves[v]| <= |waves[w]|
  }

  /** How the waves so far stand to the width the next may have. */
  ghost predicate Rising(p: LoadProfile, waves: seq<seq<Plan>>, width: int) {
    && Climbing(waves) && Sized(waves, if p.mode.Ramp? then 1 else p.concurrency, width)
    && (p.mode.Ramp? && waves != [] ==> |waves[0]| == 1)
  }

  lemma RisingNext(p: LoadProfile, waves: seq<seq<Plan>>, width: int, wave: seq<Plan>, wider: int)
    requires Rising(p, waves, width) && |wave| == width <= wider && width >= 1
    requires !p.mode.Ramp? ==> width == p.concurrency
    requires p.mode.Ramp? && waves == [] ==> width == 1
    ensures Rising(p, waves + [wave], wider)
  {
  }

  function WidthAt(p: LoadProfile, sent: nat): int
    requires Startable(p) && sent < p.totalOrders
  {
    if ConcurrencyAt(p, sent) < p.totalOrders - sent then ConcurrencyAt(p, sent) else p.totalOrders - sent
  }

  lemma WidthFits(p: LoadProfile, sent: nat)
    requires Startable(p) && sent < p.totalOrders
    ensures var width := WidthAt(p, sent);
            && 1 <= width <= p.totalOrders - sent
            && width <= ConcurrencyAt(p, sent) <= ConcurrencyAt(p, sent + width) <= p.concurrency
            && (sent + width < p.totalOrders ==> width == ConcurrencyAt(p, sent))
            && (p.mode.Ramp? && sent == 0 ==> width == 1)
            && (!p.mode.Ramp? ==> ConcurrencyAt(p, sent) == p.concurrency)
  {
    ConcurrencyGrows(p, sent, sent);
    ConcurrencyGrows(p, sent, sent + WidthAt(p, sent));
  }

  /** How far the plan has got after `sent` steps, the next wave being `width` wide at the most. */
  ghost predicate Planned(p: LoadProfile, waves: seq<seq<Plan>>, sent: nat, width: int)
    requires Startable(p)
  {
    && sent <= p.totalOrders && Flatten(waves) == Steps(p, 0, sent)
    && (sent > 0 <==> waves != []) && Sized(waves, 1, p.concurrency)
    && (sent < p.totalOrders ==> Rising(p, waves, width))
    && (waves != [] ==> Rising(p, waves[..|waves| - 1], p.concurrency))
    && (waves != [] && p.mode.Ramp? ==> |waves[0]| == 1)
  }

  lemma PlannedNext(p: LoadProfile, waves: seq<seq<Plan>>, sent: nat, width: int, cut: int, wider: int)
    requires Startable(p) && Planned(p, waves, sent, width) && sent < p.totalOrders
    requires 1 <= cut <= p.totalOrders - sent && cut <= width <= wider <= p.concurrency
    requires sent + cut < p.totalOrders ==> cut == width
    requires !p.mode.Ramp? ==> width == p.concurrency
    requires p.mode.Ramp? && sent == 0 ==> cut == 1
    ensures Planned(p, waves + [Steps(p, sent, sent + cut)], sent + cut, wider)
  {
    var wave := Steps(p, sent, sent + cut);
    FlattenNext(p, waves, sent, sent + cut);
    RisingWider(p, waves, width, p.concurrency);
    assert (waves + [wave])[..|waves|] == waves;
    if sent + cut < p.totalOrders {
      RisingNext(p, waves, width, wave, wider);
    }
  }

  lemma FlattenNext(p: LoadProfile, waves: seq<seq<Plan>>, sent: nat, to: nat)
    requires p.users != [] && sent <= to && Flatten(waves) == Steps(p, 0, sent)
    ensures Flatten(waves + [Steps(p, sent, to)]) == Steps(p, 0, to) && |Steps(p, sent, to)| == to - sent
  {
    FlattenLast(waves, Steps(p, sent, to));
    StepsJoin(p, 0, sent, to);
    StepsCount(p, sent, to);
  }

  lemma RisingWider(p: LoadProfile, waves: seq<seq<Plan>>, width: int, wider: int)
    requires Rising(p, waves, width) && width <= wider
    ensures Rising(p, waves, wider)
  {
  }

  /** The waves are the profile's steps, all of them, in order, cut into waves that are never
      empty, never wider than asked, and never narrower than an earlier one but for the last. */
  method PlanWaves(p: LoadProfile) returns (waves: seq<seq<Plan>>)
    requires Startable(p)
    ensures Planned(p, waves, p.totalOrders, p.concurrency)
  {
    waves := [];
    var sent := 0;
    while sent < p.totalOrders
      invariant Planned(p, waves, sent, if sent < p.totalOrders then ConcurrencyAt(p, sent) else p.concurrency)
    {
      WidthFits(p, sent);
      var width := WidthAt(p, sent);
      PlannedNext(p, waves, sent, ConcurrencyAt(p, sent), width,
                  if sent + width < p.totalOrders then ConcurrencyAt(p, sent + width) else p.concurrency);
      var wave := Steps(p, sent, sent + width);
      waves, sent := waves + [wave], sent + width;
    }
  }

  /* ---- The cancel dance ---- */

  function Resting(steps: seq<Plan>): nat {
    if steps == [] then 0
    else
      var last := steps[|steps| - 1];
      Resting(steps[..|steps| - 1]) + if Rests(last) then 1 else 0
  }

  function Cancels(steps: seq<Plan>): nat {
    if steps == [] then 0
    else Cancels(steps[..|steps| - 1]) + if steps[|steps| - 1].CancelStep? then 1 else 0
  }

  predicate Rests(step: Plan) { step.PlaceStep? && step.order.otype.Limit? }

  lemma OneMoreStep(steps: seq<Plan>, step: Plan)
    ensures Resting(steps + [step]) == Resting(steps) + if Rests(step) then 1 else 0
    ensures Cancels(steps + [step]) == Cancels(steps) + if step.CancelStep? then 1 else 0
  {
    assert (steps + [step])[..|steps|] == steps;
  }

  /** In every prefix of a cancelling plan the resting orders number the cancels, or one more. */
  lemma {:induction false} EveryCancelHasItsOrder(p: LoadProfile, n: nat)
    requires Startable(p) && Period(p) >= 2
    ensures Resting(Steps(p, 0, n)) == Cancels(Steps(p, 0, n)) + if n % Period(p) == 1 then 1 else 0
  {
    if n > 0 {
      EveryCancelHasItsOrder(p, n - 1);
      OneMoreStep(Steps(p, 0, n - 1), StepAt(p, n - 1));
      StepOfPeriod(p, n - 1);
      NextSlot(n - 1, Period(p));
      Wraps((n - 1) % Period(p) + 1, Period(p));
    }
  }

  lemma StepOfPeriod(p: LoadProfile, index: nat)
    requires Startable(p) && Period(p) >= 2
    ensures Rests(StepAt(p, index)) <==> index % Period(p) == 0
    ensures StepAt(p, index).CancelStep? <==> index % Period(p) == 1
  {
  }

  lemma Wraps(r: nat, period: nat)
    requires 0 < r <= period
    ensures r % period == if r == period then 0 else r
  {
    if r == period { Quotient(r, 1, 0, period); } else { Quotient(r, 0, r, period); }
  }

  /** Outside a cancelling contention profile nothing rests and nothing is cancelled. */
  lemma {:induction false} NoDance(p: LoadProfile, n: nat)
    requires Startable(p) && !(p.mode.Contention? && p.cancelMix > 0.0)
    ensures Resting(Steps(p, 0, n)) == 0 && Cancels(Steps(p, 0, n)) == 0
  {
    if n > 0 {
      NoDance(p, n - 1);
      OneMoreStep(Steps(p, 0, n - 1), StepAt(p, n - 1));
    }
  }
}
