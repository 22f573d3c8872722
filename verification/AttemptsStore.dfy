/** The recorder: a ring of the newest calls, whose rows are completed after the fact by id. */
module AttemptsStore {
  import opened Options
  import opened OrderRules
  import opened Ledger
  import opened ShadowLedger
  import opened Rings

  const ATTEMPTS_CAPACITY: nat := 5000

  /** What was done to a call: the answer hidden from the caller, and the two ends of a retry. */
  datatype ChaosMark = ChaosMark(droppedStatus: Option<int>, retryOf: Option<nat>, retriedBy: Option<nat>)

  const UNMARKED := ChaosMark(None, None, None)

  /** One call. `placement` is the user a POST to the orders path was for; `note` is a row the
      harness wrote about itself. Status 0 is an answer that never came. */
  datatype Attempt = Attempt(id: nat, at: int, latencyMs: int, status: int, placement: Option<int>, note: bool,
                             key: Option<Key>, expected: Option<Expectation>, actual: Option<Status>,
                             orderId: Option<int>, chaos: ChaosMark)

  /** The fields an annotation carries; those it leaves out stay. */
  datatype Details = Details(expected: Option<Expectation>, actual: Option<Status>, orderId: Option<int>,
                             chaos: Option<ChaosMark>)

  function Or<T>(given: Option<T>, kept: Option<T>): Option<T> { if given.Some? then given else kept }

  function Annotated(row: Attempt, details: Details): (r: Attempt)
    ensures r.id == row.id && r.status == row.status && r.at == row.at && r.latencyMs == row.latencyMs
    ensures r.placement == row.placement && r.note == row.note && r.key == row.key
    ensures details.expected.Some? ==> r.expected == details.expected
    ensures details.actual.Some? ==> r.actual == details.actual
    ensures details.orderId.Some? ==> r.orderId == details.orderId
    ensures details.chaos.Some? ==> r.chaos == details.chaos.value
    ensures details.expected.None? ==> r.expected == row.expected
    ensures details.actual.None? ==> r.actual == row.actual
    ensures details.orderId.None? ==> r.orderId == row.orderId
    ensures details.chaos.None? ==> r.chaos == row.chaos
  {
    row.(expected := Or(details.expected, row.expected), actual := Or(details.actual, row.actual),
         orderId := Or(details.orderId, row.orderId),
         chaos := if details.chaos.Some? then details.chaos.value else row.chaos)
  }

  /** The remainder that keeps the dividend's sign. */
  function Rem(a: int, b: int): int
    requires b > 0
  {
    if a >= 0 then a % b else -((-a) % b)
  }

  /** A negative index counts from the end; past either end there is nothing. */
  function At(rows: seq<Attempt>, i: int): Option<Attempt> {
    if 0 <= i < |rows| then Some(rows[i])
    else if i < 0 && 0 <= |rows| + i then Some(rows[|rows| + i])
    else None
  }

  /** The log later on: every call it held is there under its id, with the status it was answered. */
  predicate Grown(log: seq<Attempt>, log': seq<Attempt>) {
    |log| <= |log'| && forall i :: 0 <= i < |log| ==> log'[i].id == log[i].id && log'[i].status == log[i].status
  }

  class AttemptsStore {
    const capacity: nat
    var buffer: seq<Attempt>
    var cursor: nat
    var nextId: nat
    ghost var log: seq<Attempt>      // every call ever recorded; what is retained is as annotated

    constructor (capacity: nat)
      requires capacity > 0
      ensures Valid() && this.capacity == capacity && log == []
    {
      this.capacity := capacity;
      buffer, cursor, nextId := [], 0, 1;
      log := [];
    }

    /** The ring is the tail of the log, attempt N in slot (N - 1) modulo the capacity. */
    ghost predicate Valid()
      reads this
    {
      && capacity > 0
      && |buffer| == Size(|log|)
      && nextId == |log| + 1
      && cursor == Slot(|log|, capacity)
      && (forall k :: 0 <= k < |log| ==> log[k].id == k + 1)
      && (forall k {:trigger Slot(k, capacity)} :: |log| - |buffer| <= k < |log| ==>
            Slot(k, capacity) < |buffer| && buffer[Slot(k, capacity)] == log[k])
    }

    function Size(n: nat): nat { if n < capacity then n else capacity }

    /** The oldest position the ring still holds. */
    ghost function Oldest(): nat
      requires Valid()
      reads this
    {
      |log| - |buffer|
    }

    ghost predicate Retained(id: int)
      requires Valid()
      reads this
    {
      Oldest() < id <= |log|
    }

    method Record(attempt: Attempt) returns (id: nat)
      requires Valid()
      modifies this
      ensures Valid()
      ensures id == old(nextId) && log == old(log) + [attempt.(id := id)]
    {
      var row := attempt.(id := nextId);
      id := nextId;
      nextId := nextId + 1;
      ghost var n := |log|;
      if |buffer| < capacity {
        Quotient(n, 0, n, capacity);
        buffer := buffer + [row];
        forall k | 0 <= k <= n ensures Slot(k, capacity) == k { Quotient(k, 0, k, capacity); }
      } else {
        forall k | n - capacity < k < n ensures Slot(k, capacity) != Slot(n, capacity) { SlotsDiffer(k, n, capacity); }
        buffer := buffer[cursor := row];
      }
      NextSlot(n, capacity);
      cursor := (cursor + 1) % capacity;
      log := log + [row];
    }

    /** Completes exactly the named row if the ring still holds it, and nothing otherwise. */
    method Annotate(id: int, details: Details)
      requires Valid()
      modifies this`buffer, this`log
      ensures Valid()
      ensures old(Retained(id)) ==> log == old(log)[id - 1 := Annotated(old(log)[id - 1], details)]
      ensures !old(Retained(id)) ==> log == old(log) && buffer == old(buffer)
    {
      var slot := Rem(id - 1, capacity);
      var row := At(buffer, slot);
      RowsAreTheirIds();
      if row.Some? && row.value.id == id {
        assert id >= 1;
        SlotHoldsItsRow(id);
        buffer := buffer[slot := Annotated(row.value, details)];
        log := log[id - 1 := Annotated(row.value, details)];
        forall k | |log| - |buffer| <= k < |log| && k != id - 1 ensures Slot(k, capacity) != Slot(id - 1, capacity) {
          if k < id - 1 { SlotsDiffer(k, id - 1, capacity); } else { SlotsDiffer(id - 1, k, capacity); }
        }
      } else if Retained(id) {
        RetainedIsThere(id);
      }
    }

    lemma RowsAreTheirIds()
      requires Valid()
      ensures forall j :: 0 <= j < |buffer| ==> buffer[j].id >= 1
    {
      forall j | 0 <= j < |buffer| ensures buffer[j].id >= 1 {
        var k := PositionOf(j);
      }
    }

    /** The position of the row a slot holds. */
    lemma PositionOf(j: nat) returns (k: nat)
      requires Valid() && j < |buffer|
      ensures Oldest() <= k < |log| && Slot(k, capacity) == j && buffer[j] == log[k]
    {
      if |log| < capacity {
        k := j;
        Quotient(j, 0, j, capacity);
      } else {
        k := LastInSlot(|log|, j, capacity);
      }
    }

    /** A retained row is where its id says. */
    lemma RetainedIsThere(id: int)
      requires Valid() && Retained(id)
      ensures At(buffer, Rem(id - 1, capacity)) == Some(log[id - 1])
    {
      assert Slot(id - 1, capacity) < |buffer|;
    }

    lemma SlotHoldsItsRow(id: int)
      requires Valid() && id >= 1
      requires Slot(id - 1, capacity) < |buffer| && buffer[Slot(id - 1, capacity)].id == id
      ensures Retained(id)
    {
      var k := PositionOf(Slot(id - 1, capacity));
    }

    lemma CountingBack(back: nat)
      requires Valid() && 1 <= back <= |buffer|
      ensures var slot := (cursor - back + |buffer|) % |buffer|; slot < |buffer| && buffer[slot] == log[|log| - back]
    {
      BackSlot(|log|, |buffer|, back, capacity);
      assert Slot(|log| - back, capacity) < |buffer|;
    }

    /** The newest rows, newest first. */
    method Recent(limit: int) returns (newest: seq<Attempt>)
      requires Valid()
      ensures |newest| == if limit <= 0 then 0 else if limit < |buffer| then limit else |buffer|
      ensures forall j :: 0 <= j < |newest| ==> newest[j] == log[|log| - 1 - j]
    {
      var size := |buffer|;
      var wanted := if limit < size then limit else size;
      newest := [];
      var back := 1;
      while back <= wanted
        invariant 1 <= back && (wanted >= 0 ==> back <= wanted + 1) && (wanted < 0 ==> back == 1)
        invariant |newest| == back - 1
        invariant forall j :: 0 <= j < |newest| ==> newest[j] == log[|log| - 1 - j]
      {
        CountingBack(back);
        newest := newest + [buffer[(cursor - back + size) % size]];
        back := back + 1;
      }
    }
  }
}
