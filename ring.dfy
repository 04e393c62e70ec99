/**
 * The fixed-capacity circular history buffer of the two Tkinter trackers:
 * a preallocated array written at `history_index`, the index advancing
 * modulo the capacity, and a count that saturates at the capacity.
 */
module Ring {
  import opened Bounded

  /** `(index + 1) % capacity` for an index inside the buffer. */
  function Advance(index: nat, capacity: nat): (r: nat)
    requires index < capacity
    ensures r == (index + 1) % capacity && r < capacity
  {
    if index + 1 == capacity then 0 else index + 1
  }

  /**
   * The oldest-to-newest reading of the buffer used when drawing the line
   * history: the first `count` slots while the buffer is not full, else the
   * rotation that starts at the write index.
   */
  function Linear<T>(data: seq<T>, index: nat, count: nat): seq<T>
    requires index <= |data| && count <= |data|
  {
    if count < |data| then data[..count] else data[index..] + data[..index]
  }

  lemma RecordNotFull<T>(data: seq<T>, count: nat, x: T)
    requires count < |data|
    ensures var d := data[count := x];
      Linear(d, Advance(count, |data|), count + 1) == Last(data[..count] + [x], |data|)
  {
    var d := data[count := x];
    assert d[..count + 1] == data[..count] + [x];
    if count + 1 == |data| {
      assert d[0..] + d[..0] == d;
    }
  }

  lemma RecordFullAtEnd<T>(data: seq<T>, x: T)
    requires 0 < |data|
    ensures var n := |data|; var d := data[n - 1 := x];
      Linear(d, 0, n) == Last(data[n - 1..] + data[..n - 1] + [x], n)
  {
    var n := |data|;
    var d := data[n - 1 := x];
    var s := data[n - 1..] + data[..n - 1] + [x];
    assert d[0..] + d[..0] == d;
    assert s[1..] == d;
  }

  lemma RecordFullInside<T>(data: seq<T>, index: nat, x: T)
    requires index + 1 < |data|
    ensures var n := |data|; var d := data[index := x];
      Linear(d, index + 1, n) == Last(data[index..] + data[..index] + [x], n)
  {
    var n := |data|;
    var d := data[index := x];
    var s := data[index..] + data[..index] + [x];
    assert d[index + 1..] == data[index + 1..];
    assert d[..index + 1] == data[..index] + [x];
    assert s[1..] == data[index + 1..] + (data[..index] + [x]);
  }

  /**
   * Writing one sample at the write index and advancing index and count
   * turns the linear reading into the newest `|data|` samples of the old
   * reading followed by the new sample.
   */
  lemma RecordStep<T>(data: seq<T>, index: nat, count: nat, x: T)
    requires 0 < |data| && index < |data| && count <= |data|
    requires count < |data| ==> index == count
    ensures Linear(data[index := x], Advance(index, |data|), if count < |data| then count + 1 else count)
         == Last(Linear(data, index, count) + [x], |data|)
  {
    if count < |data| {
      RecordNotFull(data, count, x);
    } else if index + 1 == |data| {
      RecordFullAtEnd(data, x);
    } else {
      RecordFullInside(data, index, x);
    }
  }

  class HistoryRing<T(0)> {
    const capacity: nat
    const blank: T
    var points: array<T>
    var index: nat
    var count: nat
    /** Every sample recorded since the buffer was created or last reset. */
    ghost var Recorded: seq<T>

    ghost predicate Valid()
      reads this, points
    {
      && points.Length == capacity
      && 0 < capacity
      && index < capacity
      && count <= capacity
      && (count < capacity ==> index == count)
      && Linear(points[..], index, count) == Last(Recorded, capacity)
    }

    constructor (capacity: nat, blank: T)
      requires 0 < capacity
      ensures Valid() && fresh(points)
      ensures this.capacity == capacity && this.blank == blank
      ensures Recorded == [] && count == 0 && index == 0
    {
      this.capacity := capacity;
      this.blank := blank;
      points := new T[capacity](_ => blank);
      index, count := 0, 0;
      Recorded := [];
    }

    /** `history_points[history_index] = x`, then advance index and count. */
    method Record(x: T)
      requires Valid()
      modifies this, points
      ensures Valid() && points == old(points)
      ensures Recorded == old(Recorded) + [x]
      ensures index == (old(index) + 1) % capacity
      ensures count == if old(count) < capacity then old(count) + 1 else capacity
    {
      ghost var before := points[..];
      RecordStep(before, index, count, x);
      LastOfSuffix(Recorded, [x], capacity);
      points[index] := x;
      assert points[..] == before[index := x];
      index := Advance(index, capacity);
      if count < capacity {
        count := count + 1;
      }
      Recorded := Recorded + [x];
    }

    /** `reset_history_points`: zero the array in place, count and index back to 0. */
    method Reset()
      requires Valid()
      modifies this, points
      ensures Valid() && points == old(points)
      ensures Recorded == [] && count == 0 && index == 0
      ensures forall i :: 0 <= i < points.Length ==> points[i] == blank
    {
      forall i | 0 <= i < points.Length {
        points[i] := blank;
      }
      index, count := 0, 0;
      Recorded := [];
    }

    /** The draw-time linearisation: the newest `capacity` samples, oldest first. */
    function Ordered(): (r: seq<T>)
      reads this, points
      requires Valid()
      ensures r == Last(Recorded, capacity)
      ensures |r| == count
    {
      if count < capacity then points[..count] else points[index..] + points[..index]
    }
  }
}
