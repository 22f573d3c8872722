/** The findings: a ring that can be emptied, and whose ids are never handed out twice. */
module AnomaliesStore {
  import opened Rings

  const ANOMALIES_CAPACITY: nat := 500

  datatype Anomaly<F> = Anomaly(id: nat, finding: F)

  class AnomaliesStore<F> {
    const capacity: nat
    var buffer: seq<Anomaly<F>>
    var cursor: nat
    var nextId: nat
    ghost var kept: seq<Anomaly<F>>    // every finding since the last clear
    ghost var issued: nat              // ids handed out, ever

    constructor (capacity: nat)
      requires capacity > 0
      ensures Valid() && this.capacity == capacity && kept == [] && issued == 0
    {
      this.capacity := capacity;
      buffer, cursor, nextId := [], 0, 1;
      kept, issued := [], 0;
    }

    ghost predicate Valid()
      reads this
    {
      && capacity > 0
      && |buffer| == (if |kept| < capacity then |kept| else capacity)
      && nextId == issued + 1 && |kept| <= issued
      && cursor == Slot(|kept|, capacity)
      && (forall k :: 0 <= k < |kept| ==> kept[k].id == issued - |kept| + k + 1)
      && (forall k {:trigger Slot(k, capacity)} :: |kept| - |buffer| <= k < |kept| ==>
            Slot(k, capacity) < |buffer| && buffer[Slot(k, capacity)] == kept[k])
    }

    method Record(finding: F) returns (anomaly: Anomaly<F>)
      requires Valid()
      modifies this
      ensures Valid()
      ensures issued == old(issued) + 1 && anomaly == Anomaly(issued, finding)
      ensures kept == old(kept) + [anomaly]
    {
      anomaly := Anomaly(nextId, finding);
      nextId := nextId + 1;
      ghost var n := |kept|;
      if |buffer| < capacity {
        forall k | 0 <= k <= n ensures Slot(k, capacity) == k { Quotient(k, 0, k, capacity); }
        buffer := buffer + [anomaly];
      } else {
        forall k | n - capacity < k < n ensures Slot(k, capacity) != Slot(n, capacity) { SlotsDiffer(k, n, capacity); }
        buffer := buffer[cursor := anomaly];
      }
      NextSlot(n, capacity);
      cursor := (cursor + 1) % capacity;
      kept, issued := kept + [anomaly], issued + 1;
    }

    /** Ids keep counting: what is recorded after a clear is never taken for what came before. */
    method Clear() returns (dropped: nat)
      requires Valid()
      modifies this
      ensures Valid() && kept == [] && issued == old(issued)
      ensures dropped == |old(buffer)|
    {
      dropped := |buffer|;
      buffer, cursor := [], 0;
      kept := [];
    }

    lemma CountingBack(back: nat)
      requires Valid() && 1 <= back <= |buffer|
      ensures var slot := (cursor - back + |buffer|) % |buffer|; slot < |buffer| && buffer[slot] == kept[|kept| - back]
    {
      BackSlot(|kept|, |buffer|, back, capacity);
      assert Slot(|kept| - back, capacity) < |buffer|;
    }

    method Recent(limit: int) returns (newest: seq<Anomaly<F>>)
      requires Valid()
      ensures |newest| == if limit <= 0 then 0 else if limit < |buffer| then limit else |buffer|
      ensures forall j :: 0 <= j < |newest| ==> newest[j] == kept[|kept| - 1 - j]
      ensures forall i, j :: 0 <= i < j < |newest| ==> newest[i].id > newest[j].id
    {
      var size := |buffer|;
      var wanted := if limit < size then limit else size;
      newest := [];
      var back := 1;
      while back <= wanted
        invariant 1 <= back && (wanted >= 0 ==> back <= wanted + 1) && (wanted < 0 ==> back == 1)
        invariant |newest| == back - 1
        invariant forall j :: 0 <= j < |newest| ==> newest[j] == kept[|kept| - 1 - j]
      {
        CountingBack(back);
        newest := newest + [buffer[(cursor - back + size) % size]];
        back := back + 1;
      }
    }
  }
}
