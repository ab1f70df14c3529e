/** The ring buffer: a bounded first-in first-out queue of at most one less than its capacity. */
module Queue {
  import opened Values

  /** What the ring holds, oldest first. */
  function Ring<T>(data: seq<T>, back: nat, front: nat): seq<T>
    requires back <= |data| && front <= |data|
  {
    if back <= front then data[back..front] else data[back..] + data[..front]
  }

  function After(i: nat, capacity: nat): nat {
    if i + 1 >= capacity then 0 else i + 1
  }

  /** Writing at the front adds at the end, across the wrap too, unless the ring is full. */
  lemma {:induction false} RingPush<T>(data: seq<T>, back: nat, front: nat, x: T)
    requires back < |data| && front < |data|
    ensures After(front, |data|) == back <==> |Ring(data, back, front)| == |data| - 1
    ensures After(front, |data|) != back ==>
              Ring(data[front := x], back, After(front, |data|)) == Ring(data, back, front) + [x]
  {
    var n := |data|;
    var next := After(front, n);
    var after := data[front := x];
    if next != back {
      if back <= front {
        assert after[back..front + 1] == data[back..front] + [x];
        if next == 0 {
          assert after[..0] == [] && after[back..] == after[back..front + 1];
        }
      } else {
        assert after[back..] == data[back..] && after[..front + 1] == data[..front] + [x];
      }
    }
  }

  /** Reading at the back takes the first, across the wrap too. */
  lemma {:induction false} RingPop<T>(data: seq<T>, back: nat, front: nat)
    requires back < |data| && front < |data| && back != front
    ensures Ring(data, back, front) == [data[back]] + Ring(data, After(back, |data|), front)
  {
    if back > front {
      if back + 1 == |data| {
        assert data[back..] == [data[back]];
        assert data[0..front] == data[..front];
      } else {
        assert data[back..] == [data[back]] + data[back + 1..];
      }
    } else {
      assert data[back..front] == [data[back]] + data[back + 1..front];
    }
  }

  class StaticQueue<T(0)> {
    var data: array<T>
    const capacity: nat
    var back: nat
    var front: nat

    ghost predicate Valid()
      reads this
    {
      data.Length == capacity && (if capacity == 0 then back == 0 == front else back < capacity && front < capacity)
    }

    ghost function Contents(): seq<T>
      reads this, data
      requires Valid()
    {
      Ring(data[..], back, front)
    }

    constructor (capacity: nat)
      ensures Valid() && fresh(data) && this.capacity == capacity && Contents() == []
    {
      this.capacity := capacity;
      data := new T[capacity];
      back, front := 0, 0;
    }

    /** False is the error return: one slot always stays free. */
    method Push(x: T) returns (ok: bool)
      requires Valid()
      modifies this, data
      ensures Valid() && data == old(data)
      ensures ok <==> |old(Contents())| + 1 < capacity
      ensures Contents() == if ok then old(Contents()) + [x] else old(Contents())
    {
      if capacity > 0 {
        RingPush(data[..], back, front, x);
      }
      var next := front + 1;
      if next >= capacity {
        next := 0;
      }
      if next == back {
        return false;
      }
      data[front] := x;
      assert data[..] == old(data[..])[old(front) := x];
      front := next;
      ok := true;
    }

    method Size() returns (n: nat)
      requires Valid()
      ensures n == |Contents()|
    {
      n := if front >= back then front - back else (capacity - back) + front;
    }

    method Pop() returns (x: Option<T>)
      requires Valid()
      modifies this
      ensures Valid() && data == old(data)
      ensures x.Some? <==> old(Contents()) != []
      ensures x.Some? ==> old(Contents()) == [x.value] + Contents()
      ensures x.None? ==> Contents() == old(Contents())
    {
      if back == front {
        return None;
      }
      RingPop(data[..], back, front);
      x := Some(data[back]);
      var next := back + 1;
      if next >= capacity {
        next := 0;
      }
      back := next;
    }
  }
}
