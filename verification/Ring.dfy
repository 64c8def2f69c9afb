/** The fixed-size ring behind both queues of the SDK: `queue.c` stores messages in one,
    `core_job.c` stores job pointers. */
module Ring {

  /** An index of at most one turn, folded into the buffer. */
  function Wrap(i: nat, n: nat): (r: nat)
    requires i < 2 * n
    ensures r < n
  {
    if i < n then i else i - n
  }

  lemma ModIsWrap(i: nat, n: nat)
    requires i < 2 * n
    ensures i % n == Wrap(i, n)
  {
    var q, r := i / n, i % n;
    assert i == q * n + r;
    assert q < 2 by {
      if q >= 2 {
        assert false;
      }
    }
  }

  class RingBuffer<T(0)> {
    const buffer: array<T>
    var head: nat
    var tail: nat
    var size: nat

    ghost predicate Valid()
      reads this
    {
      && head < buffer.Length
      && size <= buffer.Length
      && tail == Wrap(head + size, buffer.Length)
    }

    /** Oldest first. */
    ghost function Contents(): (s: seq<T>)
      requires Valid()
      reads this, buffer
      ensures |s| == size
    {
      seq(size, i requires 0 <= i < size && Valid() reads this, buffer => buffer[Wrap(head + i, buffer.Length)])
    }

    constructor (capacity: nat)
      requires capacity > 0
      ensures Valid() && fresh(buffer) && buffer.Length == capacity && Contents() == []
    {
      buffer := new T[capacity];
      head, tail, size := 0, 0, 0;
    }

    /** Store at the tail. */
    method Put(x: T)
      requires Valid() && size < buffer.Length
      modifies this, buffer
      ensures Valid() && Contents() == old(Contents()) + [x]
    {
      ghost var before := Contents();
      buffer[tail] := x;
      ModIsWrap(tail + 1, buffer.Length);
      tail := (tail + 1) % buffer.Length;
      size := size + 1;
      forall i | 0 <= i < size
        ensures Contents()[i] == (before + [x])[i]
      {
        assert Contents()[i] == buffer[Wrap(head + i, buffer.Length)];
      }
    }

    /** Remove at the head. */
    method Get() returns (x: T)
      requires Valid() && size > 0
      modifies this
      ensures Valid() && old(Contents()) == [x] + Contents()
    {
      ghost var before := Contents();
      x := buffer[head];
      assert before[0] == buffer[Wrap(head + 0, buffer.Length)];
      ModIsWrap(head + 1, buffer.Length);
      head := (head + 1) % buffer.Length;
      size := size - 1;
      forall i | 0 <= i < size
        ensures Contents()[i] == before[i + 1]
      {
        assert before[i + 1] == buffer[Wrap(old(head) + (i + 1), buffer.Length)];
        assert Contents()[i] == buffer[Wrap(head + i, buffer.Length)];
      }
    }
  }
}
