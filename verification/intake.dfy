/**
 The message intake queue: an arrival-ordered buffer with a size bound.
 An arrival is appended, and when the buffer then exceeds the bound the
 oldest entries are dropped until it fits; draining hands out everything
 buffered, oldest first, and leaves the buffer empty.
 */
module Intake {
  import opened Base

  /** The default bound on buffered messages. */
  const DefaultMaxQueueSize: nat := 1000

  /** `r` is a suffix of `s`. */
  ghost predicate IsSuffix<T>(r: seq<T>, s: seq<T>)
  {
    |r| <= |s| && s[|s| - |r|..] == r
  }

  /** The newest `Min(|s|, n)` entries of `s`, in their original order. */
  function Last<T>(s: seq<T>, n: nat): (r: seq<T>)
    ensures |r| == Min(|s|, n)
    ensures IsSuffix(r, s)
  {
    s[|s| - Min(|s|, n)..]
  }

  /** One arrival: append, then evict oldest-first down to the bound. */
  function Enqueue<T>(q: seq<T>, x: T, bound: nat): (r: seq<T>)
    ensures |r| == Min(|q| + 1, bound)
    ensures IsSuffix(r, q + [x])
    ensures bound > 0 ==> r[|r| - 1] == x
  {
    Last(q + [x], bound)
  }

  /** The eviction loop as the client runs it: drop the front entry while
      the buffer is over its bound. */
  method EnqueueByEviction<T>(q: seq<T>, x: T, bound: nat) returns (r: seq<T>)
    ensures r == Enqueue(q, x, bound)
  {
    r := q + [x];
    while |r| > bound
      invariant Min(|q| + 1, bound) <= |r| <= |q| + 1
      invariant r == (q + [x])[|q| + 1 - |r|..]
      decreases |r|
    {
      r := r[1..];
    }
  }

  /** A sequence of arrivals, one `Enqueue` after another. */
  function Feed<T>(q: seq<T>, xs: seq<T>, bound: nat): (r: seq<T>)
    ensures |xs| > 0 || |q| <= bound ==> |r| <= bound
    decreases |xs|
  {
    if |xs| == 0 then q else Feed(Enqueue(q, xs[0], bound), xs[1..], bound)
  }

  /** `drain()`: everything buffered, oldest first, and the now empty buffer. */
  function Drain<T>(q: seq<T>): (r: (seq<T>, seq<T>))
    ensures r.0 == q && r.1 == []
  {
    (q, [])
  }

  lemma LastOfLast<T>(a: seq<T>, b: seq<T>, n: nat)
    ensures Last(Last(a, n) + b, n) == Last(a + b, n)
  {
  }

  /** After any run of arrivals into a buffer within its bound, the buffer
      holds exactly the newest `bound` entries of history + arrivals. */
  lemma {:induction false} FeedKeepsNewest<T>(q: seq<T>, xs: seq<T>, bound: nat)
    requires |q| <= bound
    ensures Feed(q, xs, bound) == Last(q + xs, bound)
    decreases |xs|
  {
    if xs == [] {
      assert q + xs == q;
    } else {
      var q' := Enqueue(q, xs[0], bound);
      FeedKeepsNewest(q', xs[1..], bound);
      LastOfLast(q + [xs[0]], xs[1..], bound);
      assert (q + [xs[0]]) + xs[1..] == q + xs;
    }
  }

  /** From an empty buffer: the buffer holds the last `min(n, bound)` of the
      `n` arrivals, in arrival order, and never more than `bound`. */
  lemma ArrivalsFromEmpty<T>(xs: seq<T>, bound: nat)
    ensures Feed([], xs, bound) == Last(xs, bound)
    ensures |Feed([], xs, bound)| <= bound
  {
    var none: seq<T> := [];
    assert none + xs == xs;
    FeedKeepsNewest(none, xs, bound);
    assert Feed(none, xs, bound) == Last(xs, bound);
  }

  /** Draining right after `n <= bound` arrivals into an empty buffer gives
      back exactly those arrivals in order; a second drain gives nothing. */
  lemma DrainAfterArrivals<T>(xs: seq<T>, bound: nat)
    requires |xs| <= bound
    ensures Drain(Feed([], xs, bound)).0 == xs
    ensures Drain(Drain(Feed([], xs, bound)).1).0 == []
  {
    ArrivalsFromEmpty(xs, bound);
  }

  /** The overflow scenario: bound 5 and ten arrivals leave arrivals 5..9. */
  lemma OverflowKeepsLastFive<T>(xs: seq<T>)
    requires |xs| == 10
    ensures Feed([], xs, 5) == xs[5..]
  {
    ArrivalsFromEmpty(xs, 5);
  }
}
