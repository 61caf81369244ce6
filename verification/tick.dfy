/** The tick clock: millisecond stamps that wrap at 1000, and the two
    wraparound-aware "has this cadence elapsed" predicates of the accept loop
    (50 ms fine cadence, 500 ms coarse cadence). */
module Tick {

  /** Stamps are milliseconds modulo this value. */
  const Wrap: int := 1000
  /** The fine cadence: gates dispatch opportunities. */
  const FineMs: int := 50
  /** The coarse cadence: gates rate re-estimation. */
  const CoarseMs: int := 500

  predicate IsStamp(t: int) {
    0 <= t < Wrap
  }

  /** The true elapsed time from `oldStamp` to `newStamp` on the wrapping
      clock; this is the reference both predicates are proved against. */
  function WrappedDistance(oldStamp: int, newStamp: int): (d: int)
    ensures 0 <= d < Wrap
  {
    (newStamp - oldStamp) % Wrap
  }

  /** The shape shared by both predicates: the signed difference, and when it
      is negative, the difference taken once around the clock. */
  function Exceeds(oldStamp: int, newStamp: int, limit: int): (r: bool)
    ensures IsStamp(oldStamp) && IsStamp(newStamp) ==>
              (r <==> WrappedDistance(oldStamp, newStamp) > limit)
  {
    var differ := newStamp - oldStamp;
    if differ > limit then true
    else if differ < 0 && Wrap + differ > limit then true
    else false
  }

  /** More than 50 ms between the two stamps. */
  function FineElapsed(oldStamp: int, newStamp: int): (r: bool)
    ensures IsStamp(oldStamp) && IsStamp(newStamp) ==>
              (r <==> WrappedDistance(oldStamp, newStamp) > FineMs)
  {
    Exceeds(oldStamp, newStamp, FineMs)
  }

  /** More than 500 ms between the two stamps. */
  function CoarseElapsed(oldStamp: int, newStamp: int): (r: bool)
    ensures IsStamp(oldStamp) && IsStamp(newStamp) ==>
              (r <==> WrappedDistance(oldStamp, newStamp) > CoarseMs)
  {
    Exceeds(oldStamp, newStamp, CoarseMs)
  }

  /** Equal stamps never count as elapsed, and both comparisons are strict. */
  lemma BoundaryCases(t: int)
    requires IsStamp(t)
    ensures !FineElapsed(t, t) && !CoarseElapsed(t, t)
    ensures !FineElapsed(t, (t + FineMs) % Wrap)
    ensures FineElapsed(t, (t + FineMs + 1) % Wrap)
    ensures !CoarseElapsed(t, (t + CoarseMs) % Wrap)
    ensures CoarseElapsed(t, (t + CoarseMs + 1) % Wrap)
  {
  }

  /** The wrapped examples: from 990 to 45 is 55 ms, from 990 to 10 is 20 ms. */
  lemma WrappedExamples()
    ensures FineElapsed(990, 45)
    ensures !FineElapsed(990, 10)
    ensures !CoarseElapsed(990, 45)
    ensures CoarseElapsed(400, 901) && !CoarseElapsed(400, 900)
  {
  }

  /** Whenever the coarse cadence has elapsed, so has the fine one. */
  lemma CoarseImpliesFine(oldStamp: int, newStamp: int)
    requires IsStamp(oldStamp) && IsStamp(newStamp)
    ensures CoarseElapsed(oldStamp, newStamp) ==> FineElapsed(oldStamp, newStamp)
  {
  }
}
