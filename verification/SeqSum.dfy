/** Sums of an integer measure over a sequence: the shape of every balance in this
    model, which is never stored and always folded out of rows. */
module SeqSum {

  function Sum<T>(xs: seq<T>, f: T -> int): int {
    if xs == [] then 0 else Sum(xs[..|xs| - 1], f) + f(xs[|xs| - 1])
  }

  lemma SumAppend<T>(xs: seq<T>, x: T, f: T -> int)
    ensures Sum(xs + [x], f) == Sum(xs, f) + f(x)
  {
    assert (xs + [x])[..|xs|] == xs;
  }

  /** Replacing one element moves the sum by the difference of the two measures. */
  lemma {:induction false} SumUpdate<T>(xs: seq<T>, i: nat, y: T, f: T -> int)
    requires i < |xs|
    ensures Sum(xs[i := y], f) == Sum(xs, f) - f(xs[i]) + f(y)
  {
    var n := |xs| - 1;
    if i == n {
      assert xs[i := y][..n] == xs[..n];
    } else {
      SumUpdate(xs[..n], i, y, f);
      assert xs[i := y][..n] == xs[..n][i := y];
    }
  }

  lemma {:induction false} SumPointwise<T>(xs: seq<T>, ys: seq<T>, f: T -> int, g: T -> int)
    requires |xs| == |ys|
    requires forall i :: 0 <= i < |xs| ==> f(xs[i]) == g(ys[i])
    ensures Sum(xs, f) == Sum(ys, g)
  {
    if xs != [] {
      SumPointwise(xs[..|xs| - 1], ys[..|ys| - 1], f, g);
    }
  }

  lemma {:induction false} SumPlus<T>(xs: seq<T>, f: T -> int, g: T -> int, h: T -> int)
    requires forall i :: 0 <= i < |xs| ==> h(xs[i]) == f(xs[i]) + g(xs[i])
    ensures Sum(xs, h) == Sum(xs, f) + Sum(xs, g)
  {
    if xs != [] {
      SumPlus(xs[..|xs| - 1], f, g, h);
    }
  }

  /** A sum of non-negative measures is at least any one of them. */
  lemma {:induction false} SumAtLeast<T>(xs: seq<T>, f: T -> int)
    requires forall i :: 0 <= i < |xs| ==> f(xs[i]) >= 0
    ensures Sum(xs, f) >= 0
    ensures forall i :: 0 <= i < |xs| ==> Sum(xs, f) >= f(xs[i])
  {
    if xs != [] {
      SumAtLeast(xs[..|xs| - 1], f);
      forall i | 0 <= i < |xs| ensures Sum(xs, f) >= f(xs[i]) {
        if i < |xs| - 1 {
          assert xs[..|xs| - 1][i] == xs[i];
        }
      }
    }
  }

  lemma {:induction false} SumZero<T>(xs: seq<T>, f: T -> int)
    requires forall i :: 0 <= i < |xs| ==> f(xs[i]) == 0
    ensures Sum(xs, f) == 0
  {
    if xs != [] {
      SumZero(xs[..|xs| - 1], f);
    }
  }

  /** Where in a sequence a condition holds. */
  function Where<T>(xs: seq<T>, f: T -> bool): set<nat> { set k | 0 <= k < |xs| && f(xs[k]) }

  lemma WhereAppend<T>(xs: seq<T>, x: T, f: T -> bool)
    ensures |Where(xs + [x], f)| == |Where(xs, f)| + if f(x) then 1 else 0
  {
    var n := |xs|;
    assert forall k :: 0 <= k < n ==> (xs + [x])[k] == xs[k];
    assert Where(xs + [x], f) == Where(xs, f) + if f(x) then {n} else {};
    assert n !in Where(xs, f);
  }

  lemma {:induction false} WherePrepend<T>(x: T, xs: seq<T>, f: T -> bool)
    ensures |Where([x] + xs, f)| == |Where(xs, f)| + if f(x) then 1 else 0
  {
    if xs == [] {
      WhereAppend([], x, f);
      assert [x] + xs == [] + [x];
    } else {
      var n := |xs| - 1;
      WherePrepend(x, xs[..n], f);
      WhereAppend([x] + xs[..n], xs[n], f);
      WhereAppend(xs[..n], xs[n], f);
      assert [x] + xs == [x] + xs[..n] + [xs[n]] && xs == xs[..n] + [xs[n]];
    }
  }
}
