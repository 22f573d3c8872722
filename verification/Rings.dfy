/** The arithmetic of a ring addressed by a cursor. */
module Rings {

  /** Where a ring keeps a position. */
  function Slot(k: nat, capacity: nat): nat
    requires capacity > 0
  {
    k % capacity
  }

  lemma MultipleIsFar(d: int, capacity: nat)
    ensures d >= 1 ==> d * capacity >= capacity
    ensures d <= -1 ==> d * capacity <= -(capacity as int)
  {
  }

  lemma Quotient(n: nat, q: nat, r: nat, capacity: nat)
    requires capacity > 0 && r < capacity && n == q * capacity + r
    ensures n % capacity == r
  {
    assert n == n / capacity * capacity + n % capacity;
    var d := n / capacity - q;
    assert d * capacity == r - n % capacity;
    MultipleIsFar(d, capacity);
  }

  /** Two positions less than a lap apart sit in different slots. */
  lemma SlotsDiffer(a: nat, b: nat, capacity: nat)
    requires a < b < a + capacity
    ensures a % capacity != b % capacity
  {
    var q, r := a / capacity, a % capacity;
    assert a == q * capacity + r;
    var s := r + (b - a);
    if s < capacity {
      Quotient(b, q, s, capacity);
    } else {
      assert b == (q + 1) * capacity + (s - capacity);
      Quotient(b, q + 1, s - capacity, capacity);
    }
  }

  lemma NextSlot(n: nat, capacity: nat)
    requires capacity > 0
    ensures (n % capacity + 1) % capacity == (n + 1) % capacity
  {
    var q, r := n / capacity, n % capacity;
    assert n == q * capacity + r;
    if r + 1 < capacity {
      Quotient(n + 1, q, r + 1, capacity);
      Quotient(r + 1, 0, r + 1, capacity);
    } else {
      assert n + 1 == (q + 1) * capacity;
      Quotient(n + 1, q + 1, 0, capacity);
      Quotient(r + 1, 1, 0, capacity);
    }
  }

  /** The position of the last lap that a slot keeps. */
  lemma LastInSlot(n: nat, j: nat, capacity: nat) returns (k: nat)
    requires j < capacity <= n
    ensures n - capacity <= k < n && Slot(k, capacity) == j
  {
    var q, r := n / capacity, n % capacity;
    assert n == q * capacity + r && q >= 1;
    if j < r {
      k := q * capacity + j;
      Quotient(k, q, j, capacity);
    } else {
      k := n - r - capacity + j;
      assert k == (q - 1) * capacity + j;
      Quotient(k, q - 1, j, capacity);
    }
  }

  /** Counting back from the cursor of a full or a filling ring. */
  lemma BackSlot(n: nat, size: nat, back: nat, capacity: nat)
    requires capacity > 0 && size == (if n < capacity then n else capacity) && 1 <= back <= size
    ensures (n % capacity + size - back) % size == (n - back) % capacity
  {
    if n < capacity {
      Quotient(n, 0, n, capacity);
      Quotient(n - back, 0, n - back, capacity);
      Quotient(n + size - back, 1, n - back, size);
    } else {
      var q, r := n / capacity, n % capacity;
      assert n == q * capacity + r;
      if back <= r {
        Quotient(n - back, q, r - back, capacity);
        Quotient(r + size - back, 1, r - back, size);
      } else {
        assert q >= 1;
        assert n - back == (q - 1) * capacity + (r + capacity - back);
        Quotient(n - back, q - 1, r + capacity - back, capacity);
        Quotient(r + size - back, 0, r + size - back, size);
      }
    }
  }
}
