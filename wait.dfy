/**
 * How the pacing helpers resolve their sleep bounds. The sleep itself is not
 * modelled: a call resolves to the inclusive range `randint` draws from, or
 * to the ValueError `randint` raises when the low bound exceeds the high one.
 * An argument is `None` when omitted; Python treats both `None` and `0` as
 * "not given".
 */
module Wait {
  import opened Wrappers

  const DefaultLow := 2
  const DefaultHigh := 3

  /** A resolved sleep: seconds drawn uniformly from [lo, hi], or randint's ValueError. */
  datatype Sleep = Between(lo: int, hi: int) | RandIntError

  /** Python's `not a` for an optional integer argument. */
  predicate Falsy(a: Option<int>)
  {
    a.None? || a.value == 0
  }

  /** A falsy bound is replaced by its default. */
  function Resolve(a: Option<int>, default: int): (r: int)
    ensures Falsy(a) ==> r == default
    ensures !Falsy(a) ==> r == a.value
  {
    if Falsy(a) then default else a.value
  }

  /** `rand_wait_sec(a, b)`. */
  function SecondsBounds(a: Option<int>, b: Option<int>): (r: Sleep)
    ensures r.Between? <==> Resolve(a, DefaultLow) <= Resolve(b, DefaultHigh)
    ensures r.Between? ==> r.lo != 0 && r.hi != 0
    ensures r.Between? ==> r.lo <= r.hi
  {
    var lo := Resolve(a, DefaultLow);
    var hi := Resolve(b, DefaultHigh);
    if lo <= hi then Between(lo, hi) else RandIntError
  }

  /** The minute-to-second conversion of `rand_wait_min`: a falsy bound is passed on unchanged. */
  function ToSeconds(a: Option<int>): (r: Option<int>)
    ensures Falsy(a) ==> r == a
    ensures !Falsy(a) ==> r == Some(a.value * 60)
  {
    if Falsy(a) then a else Some(a.value * 60)
  }

  /** `rand_wait_min(a, b)`. */
  function MinutesBounds(a: Option<int>, b: Option<int>): Sleep
  {
    SecondsBounds(ToSeconds(a), ToSeconds(b))
  }

  /** A duration that a resolved sleep can last. */
  predicate CanLast(s: Sleep, seconds: int)
  {
    s.Between? && s.lo <= seconds <= s.hi
  }

  /** With no arguments the bounds are [2, 3]. */
  lemma NoArgumentsDefault()
    ensures SecondsBounds(None, None) == Between(2, 3)
  {
  }

  /** An explicit 0 behaves exactly like an omitted bound, on either side. */
  lemma ZeroMeansDefault(a: Option<int>, b: Option<int>)
    ensures SecondsBounds(Some(0), b) == SecondsBounds(None, b)
    ensures SecondsBounds(a, Some(0)) == SecondsBounds(a, None)
  {
  }

  /** A low bound above the default high bound makes randint raise: `rand_wait_sec(5)`. */
  lemma LowAboveDefaultHighRaises(a: int)
    requires a > DefaultHigh
    ensures SecondsBounds(Some(a), None) == RandIntError
  {
  }

  /** The back-off before a retry, `rand_wait_min(w, w + 1)`: always a valid range inside
      [w, w + 1] minutes; exactly that range when w >= 1, and [2, 60] seconds when w == 0,
      because the 0 bound falls back to the seconds default. */
  lemma {:induction false} BackoffWithin(w: nat)
    ensures MinutesBounds(Some(w), Some(w + 1)).Between?
    ensures 60 * w <= MinutesBounds(Some(w), Some(w + 1)).lo
    ensures MinutesBounds(Some(w), Some(w + 1)).hi == 60 * (w + 1)
    ensures w >= 1 ==> MinutesBounds(Some(w), Some(w + 1)) == Between(60 * w, 60 * w + 60)
    ensures w == 0 ==> MinutesBounds(Some(w), Some(w + 1)) == Between(2, 60)
  {
    if w == 0 {
      assert ToSeconds(Some(0)) == Some(0);
      assert ToSeconds(Some(1)) == Some(60);
    } else {
      assert ToSeconds(Some(w)) == Some(w * 60);
      assert ToSeconds(Some(w + 1)) == Some((w + 1) * 60);
    }
  }

  /** The pause between cross-upvote iterations and between sequential upvotes. */
  lemma FixedPauses()
    ensures SecondsBounds(Some(25), Some(35)) == Between(25, 35)
    ensures SecondsBounds(Some(1), Some(2)) == Between(1, 2)
    ensures MinutesBounds(Some(1), Some(2)) == Between(60, 120)
  {
  }
}
