/** The bounded sample queue between the USB side and the publisher (src/iq.c). */
module IqRing {

  /** Wrapping an index that has run at most once past the end. */
  lemma WrapOnce(a: nat, n: nat)
    requires 0 < n && a < 2 * n
    ensures a % n == if a < n then a else a - n
  {
    if a >= n {
      assert a / n == 1;
    }
  }

  function Wrap(a: nat, n: nat): (r: nat)
    requires 0 < n && a < 2 * n
    ensures r == if a < n then a else a - n
  {
    WrapOnce(a, n);
    a % n
  }

  class Ring<T> {
    const samples: array<T>
    var readIndex: nat
    var size: nat
    var dropped: nat

    ghost predicate Valid()
      reads this
    {
      0 < samples.Length && readIndex < samples.Length && size <= samples.Length
    }

    /** The queued samples, oldest first. */
    ghost function Contents(): (r: seq<T>)
      requires Valid()
      reads this, samples
      ensures |r| == size
    {
      Stored(samples[..], readIndex, size)
    }

    constructor (capacity: nat, filler: T)
      requires 0 < capacity
      ensures Valid() && fresh(samples) && samples.Length == capacity
      ensures Contents() == [] && dropped == 0
    {
      samples := new T[capacity](_ => filler);
      readIndex, size, dropped := 0, 0, 0;
    }

    /** Queues what fits; the rest is dropped and counted. */
    method Push(input: seq<T>) returns (accepted: nat)
      requires Valid()
      modifies this`size, this`dropped, samples
      ensures Valid()
      ensures accepted == if |input| <= samples.Length - old(size) then |input| else samples.Length - old(size)
      ensures Contents() == old(Contents()) + input[..accepted]
      ensures dropped == old(dropped) + |input| - accepted
    {
      hide Stored, Wrap;
      accepted := |input|;
      var available := samples.Length - size;
      if accepted > available {
        dropped := dropped + (accepted - available);
        accepted := available;
      }
      for index := 0 to accepted
        invariant Valid() && size == old(size) && dropped == old(dropped) + |input| - accepted
        invariant Stored(samples[..], readIndex, size + index) == old(Contents()) + input[..index]
      {
        var writeIndex := Wrap(readIndex + size + index, samples.Length);
        ghost var before := samples[..];
        samples[writeIndex] := input[index];
        StoreNext(before, readIndex, size + index, input[index]);
        assert samples[..] == before[writeIndex := input[index]];
      }
      size := size + accepted;
    }

    /** Takes up to `count` of the oldest samples. */
    method Pop(count: nat) returns (output: seq<T>)
      requires Valid()
      modifies this`readIndex, this`size
      ensures Valid()
      ensures |output| == if count <= old(size) then count else old(size)
      ensures output == old(Contents())[..|output|]
      ensures Contents() == old(Contents())[|output|..]
    {
      hide Wrap;
      var n := if count > size then size else count;
      output := [];
      for index := 0 to n
        invariant output == Contents()[..index]
      {
        output := output + [samples[Wrap(readIndex + index, samples.Length)]];
      }
      TakeFirst(samples[..], readIndex, size, n);
      readIndex := Wrap(readIndex + n, samples.Length);
      size := size - n;
    }

    /** Discards the queued samples; the drop count is kept. */
    method Clear()
      requires Valid()
      modifies this`readIndex, this`size
      ensures Valid() && Contents() == []
    {
      readIndex, size := 0, 0;
    }
  }

  /** `count` consecutive slots of a circular buffer. */
  ghost function Stored<T>(slots: seq<T>, start: nat, count: nat): (r: seq<T>)
    requires start < |slots| && count <= |slots|
    ensures |r| == count
  {
    seq(count, k requires 0 <= k < count => slots[Wrap(start + k, |slots|)])
  }

  lemma StoreNext<T>(slots: seq<T>, start: nat, count: nat, value: T)
    requires start < |slots| && count < |slots|
    ensures Stored(slots[Wrap(start + count, |slots|) := value], start, count + 1) ==
            Stored(slots, start, count) + [value]
  {
    var longer := Stored(slots[Wrap(start + count, |slots|) := value], start, count + 1);
    forall k | 0 <= k < count + 1
      ensures longer[k] == (Stored(slots, start, count) + [value])[k]
    {
      assert k < count ==> Wrap(start + k, |slots|) != Wrap(start + count, |slots|);
    }
  }

  lemma TakeFirst<T>(slots: seq<T>, start: nat, count: nat, n: nat)
    requires start < |slots| && n <= count <= |slots|
    ensures Stored(slots, Wrap(start + n, |slots|), count - n) == Stored(slots, start, count)[n..]
  {
    var rest := Stored(slots, Wrap(start + n, |slots|), count - n);
    forall k | 0 <= k < count - n
      ensures rest[k] == Stored(slots, start, count)[n + k]
    {
      assert Wrap(Wrap(start + n, |slots|) + k, |slots|) == Wrap(start + (n + k), |slots|);
    }
  }
}
