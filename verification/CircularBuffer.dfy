/** The growing ring that queues use in place of a list. */
module CircularBuffer {
  import opened Arith

  const INITIAL_SIZE: nat := 256

  /** A position that has gone at most once past the end of a ring of `n` slots. */
  function Wrap(x: nat, n: nat): (i: nat)
    requires x < 2 * n
    ensures i < n
  {
    if x < n then x else x - n
  }

  /** The `count` elements of a ring, from the slot at `first` onwards: the sequence the ring stands for. */
  function Unroll<T>(data: seq<T>, first: nat, count: nat): (s: seq<T>)
    requires first < |data| && count <= |data|
    ensures |s| == count
    ensures forall i :: 0 <= i < count ==> s[i] == data[Wrap(first + i, |data|)]
  {
    seq(count, i requires 0 <= i < count => data[Wrap(first + i, |data|)])
  }

  lemma WriteAppends<T>(data: seq<T>, first: nat, count: nat, x: T)
    requires first < |data| && count < |data|
    ensures Unroll(data[Wrap(first + count, |data|) := x], first, count + 1) == Unroll(data, first, count) + [x]
  {
  }

  lemma AdvanceDropsFirst<T>(data: seq<T>, first: nat, count: nat)
    requires first < |data| && 0 < count <= |data|
    ensures Unroll(data, Wrap(first + 1, |data|), count - 1) == Unroll(data, first, count)[1..]
  {
  }

  /** Growing a ring that wraps around: the part that had wrapped moves behind the old end. */
  lemma GrowthKeepsContents<T>(data: seq<T>, grown: seq<T>, first: nat, count: nat)
    requires first < |data| && count < |data| && |grown| == 2 * |data|
    requires grown[..|data|] == data
    requires first + count >= |data| ==>
               grown[|data|..first + count] == data[..first + count - |data|]
    ensures Unroll(grown, first, count) == Unroll(data, first, count)
  {
    var s, t := Unroll(data, first, count), Unroll(grown, first, count);
    forall i | 0 <= i < count ensures t[i] == s[i] {
      if first + i < |data| {
        assert grown[..|data|][first + i] == data[first + i];
      } else {
        assert grown[|data|..first + count][first + i - |data|] == data[first + i - |data|];
      }
    }
  }

  class CircularBuffer<T(0)> {
    var queue: seq<T>         // a vector, resized by growth
    var nextPush: nat
    var nextPop: nat
    var count: nat
    var size: nat
    ghost var pushes: nat     // elements pushed so far
    ghost var moved: nat      // elements copied by growth so far

    ghost predicate Valid()
      reads this
    {
      && size == |queue| >= INITIAL_SIZE
      && nextPop < size && count < size
      && nextPush == Wrap(nextPop + count, size)
      && count <= pushes
      && moved + INITIAL_SIZE <= size
      && (size == INITIAL_SIZE || size <= 2 * pushes)
    }

    /** The queued elements, oldest first. */
    ghost function Contents(): (s: seq<T>)
      reads this
      requires Valid()
      ensures |s| == count
    {
      Unroll(queue, nextPop, count)
    }

    /** The size asked for is ignored. */
    constructor (startingSize: int := 0)
      ensures Valid()
      ensures Contents() == [] && pushes == 0 && moved == 0
    {
      count, nextPush, nextPop := 0, 0, 0;
      size := INITIAL_SIZE;
      var blank: T := *;
      queue := seq(INITIAL_SIZE, _ => blank);
      pushes, moved := 0, 0;
    }

    /** Doubles the ring and moves what had wrapped around. */
    method Grow()
      requires Valid()
      requires count + 1 == size <= pushes + 1
      modifies this
      ensures |queue| == size == 2 * old(size)
      ensures nextPop == old(nextPop) && count == old(count) && pushes == old(pushes)
      ensures nextPush == Wrap(nextPop + count, size)
      ensures Unroll(queue, nextPop, count) == old(Contents())
      ensures moved + INITIAL_SIZE <= size
    {
      var newSize := size * 2;
      ghost var data := queue;
      var blank: T := *;
      queue := queue + seq(newSize - size, _ => blank);
      if nextPush < nextPop {
        for i := 0 to nextPush
          invariant |queue| == newSize && nextPush == old(nextPush) && size == old(size) && nextPop == old(nextPop)
          invariant count == old(count) && pushes == old(pushes) && moved == old(moved)
          invariant queue[..size] == data
          invariant queue[size..size + i] == data[..i]
        {
          assert queue[i] == queue[..size][i];
          queue := queue[size + i := queue[i]];
          assert queue[size..size + i + 1] == queue[size..size + i] + [data[i]];
        }
        moved := moved + nextPush;
        nextPush := nextPush + size;
      }
      GrowthKeepsContents(data, queue, nextPop, count);
      size := newSize;
    }

    method Push(item: T)
      requires Valid()
      modifies this
      ensures Valid()
      ensures Contents() == old(Contents()) + [item]
      ensures pushes == old(pushes) + 1
    {
      if count + 1 == size {
        Grow();
      }
      WriteAppends(queue, nextPop, count, item);
      queue := queue[nextPush := item];
      ModWrap(nextPush + 1, size);
      nextPush := (nextPush + 1) % size;
      count := count + 1;
      pushes := pushes + 1;
    }

    /** Removes the oldest element. */
    method Pop() returns (item: T)
      requires Valid() && Contents() != []
      modifies this
      ensures Valid()
      ensures item == old(Contents())[0] && Contents() == old(Contents())[1..]
      ensures pushes == old(pushes) && moved == old(moved)
    {
      AdvanceDropsFirst(queue, nextPop, count);
      var oldIndex := nextPop;
      ModWrap(nextPop + 1, size);
      nextPop := (nextPop + 1) % size;
      count := count - 1;
      item := queue[oldIndex];
    }

    /** Removes the newest element. */
    method PopFront() returns (item: T)
      requires Valid() && Contents() != []
      modifies this
      ensures Valid()
      ensures item == old(Contents())[|old(Contents())| - 1]
      ensures Contents() == old(Contents())[..|old(Contents())| - 1]
      ensures pushes == old(pushes) && moved == old(moved)
    {
      ModWrap(nextPush + size - 1, size);
      var oldIndex := (nextPush + size - 1) % size;
      nextPush := oldIndex;
      count := count - 1;
      item := queue[oldIndex];
    }

    /** The oldest element, left in place. */
    method Back() returns (item: T)
      requires Valid() && Contents() != []
      ensures item == Contents()[0]
    {
      item := queue[nextPop];
    }

    method IsEmpty() returns (empty: bool)
      requires Valid()
      ensures empty <==> Contents() == []
    {
      empty := count == 0;
    }

    /** Growth is amortized: over any run it has copied at most two elements per push. */
    lemma GrowthIsAmortized()
      requires Valid()
      ensures moved <= 2 * pushes
    {
    }
  }
}
