/** What became of queued samples: each one taken off a queue was either passed
    on or thrown away. */
module Fates {

  datatype Fate = Delivered | Discarded

  /** The samples that were passed on, in order. */
  function Kept<T>(samples: seq<T>, fates: seq<Fate>): (r: seq<T>)
    requires |samples| == |fates|
    ensures |r| <= |samples|
  {
    if fates == [] then []
    else
      var n := |fates| - 1;
      Kept(samples[..n], fates[..n]) + if fates[n].Delivered? then [samples[n]] else []
  }

  function Repeat(fate: Fate, n: nat): (r: seq<Fate>)
    ensures |r| == n
  {
    seq(n, _ => fate)
  }

  lemma RepeatOnce(fate: Fate)
    ensures Repeat(fate, 1) == [fate]
  {
  }

  /** No samples are missing when none was thrown away. */
  lemma {:induction false} AllKept<T>(samples: seq<T>, fates: seq<Fate>)
    requires |samples| == |fates|
    ensures (forall f <- fates :: f.Delivered?) ==> Kept(samples, fates) == samples
  {
    if fates != [] {
      var n := |fates| - 1;
      AllKept(samples[..n], fates[..n]);
      assert samples == samples[..n] + [samples[n]];
    }
  }

  /** Everything from position `n` on was passed on. */
  predicate DeliveredSince(fates: seq<Fate>, n: nat) {
    n <= |fates| && forall k :: n <= k < |fates| ==> fates[k].Delivered?
  }

  /** Then nothing from there on is missing. */
  lemma KeptSince<T>(samples: seq<T>, fates: seq<Fate>, n: nat)
    requires |fates| <= |samples| && DeliveredSince(fates, n)
    ensures Kept(samples[..|fates|], fates) == Kept(samples[..n], fates[..n]) + samples[n..|fates|]
  {
    hide Kept, Repeat;
    DeliverMore(samples, fates[..n], |fates| - n);
    RepeatedSince(fates, n);
  }

  lemma RepeatedSince(fates: seq<Fate>, n: nat)
    requires DeliveredSince(fates, n)
    ensures fates == fates[..n] + Repeat(Delivered, |fates| - n)
  {
  }

  /** Passing on the next `n` samples of a queue. */
  lemma {:induction false} DeliverMore<T>(samples: seq<T>, fates: seq<Fate>, n: nat)
    requires |fates| + n <= |samples|
    ensures Kept(samples[..|fates| + n], fates + Repeat(Delivered, n)) ==
            Kept(samples[..|fates|], fates) + samples[|fates|..|fates| + n]
  {
    var longer := fates + Repeat(Delivered, n);
    if n == 0 {
      assert longer == fates;
    } else {
      DeliverMore(samples, fates, n - 1);
      assert longer[..|fates| + n - 1] == fates + Repeat(Delivered, n - 1);
      assert samples[..|fates| + n][..|fates| + n - 1] == samples[..|fates| + n - 1];
    }
  }

  /** Throwing away the next `n` samples of a queue. */
  lemma {:induction false} DiscardMore<T>(samples: seq<T>, fates: seq<Fate>, n: nat)
    requires |fates| + n <= |samples|
    ensures Kept(samples[..|fates| + n], fates + Repeat(Discarded, n)) == Kept(samples[..|fates|], fates)
  {
    var longer := fates + Repeat(Discarded, n);
    if n == 0 {
      assert longer == fates;
    } else {
      DiscardMore(samples, fates, n - 1);
      assert longer[..|fates| + n - 1] == fates + Repeat(Discarded, n - 1);
      assert samples[..|fates| + n][..|fates| + n - 1] == samples[..|fates| + n - 1];
    }
  }
}
