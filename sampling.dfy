/**
 * Sample sizes and the constraints on random samples. `random.sample` and
 * `random.shuffle` are oracles: the model accepts any draw that meets the
 * constraints stated here.
 */
module Sampling {
  import opened Reddit

  /** `round(n * 0.75)`: n * 0.75 is exact in floating point, and Python rounds half to even. */
  function SweepSize(n: nat): (r: nat)
    ensures -2 <= 4 * r - 3 * n <= 2
    ensures (4 * r - 3 * n == 2 || 4 * r - 3 * n == -2) ==> r % 2 == 0
    ensures r <= n
  {
    var q := 3 * n / 4;
    var rem := 3 * n % 4;
    if rem < 2 then q else if rem > 2 then q + 1 else if q % 2 == 0 then q else q + 1
  }

  /** `round(n * 0.35)` for the comment counts that reach it (fewer than 12): for those n
      the floating-point product rounds to the same integer as the exact 35n/100, n = 10
      being the one tie (3.5, rounded to the even 4). */
  function ReplyCount(n: nat): (r: nat)
    requires n < 12
    ensures -50 <= 100 * r - 35 * n <= 50
    ensures (100 * r - 35 * n == 50 || 100 * r - 35 * n == -50) ==> r % 2 == 0
    ensures r <= n && r <= 4
  {
    var q := 35 * n / 100;
    var rem := 35 * n % 100;
    if rem < 50 then q else if rem > 50 then q + 1 else if q % 2 == 0 then q else q + 1
  }

  /** The contract of SweepSize pins the result down: it is Python's round(). */
  lemma SweepSizeUnique(n: nat, r: int)
    requires -2 <= 4 * r - 3 * n <= 2
    requires (4 * r - 3 * n == 2 || 4 * r - 3 * n == -2) ==> r % 2 == 0
    ensures r == SweepSize(n)
  {
  }

  /** For 0 <= n <= 11 the count is (35n + 50) div 100. */
  lemma ReplyCountFormula(n: nat)
    requires n < 12
    ensures ReplyCount(n) == (35 * n + 50) / 100
  {
  }

  /** `random.sample(range(n), k)`: k distinct positions below n. */
  predicate IsSample(picks: seq<nat>, n: nat, k: nat)
  {
    && |picks| == k
    && (forall i :: 0 <= i < k ==> picks[i] < n)
    && NoDup(picks)
  }

  function FirstPositions(k: nat): (r: seq<nat>)
    ensures |r| == k && forall i :: 0 <= i < k ==> r[i] == i
  {
    seq(k, i => i)
  }

  /** A sample exists whenever it is not larger than the population. */
  lemma SampleExists(n: nat, k: nat)
    requires k <= n
    ensures IsSample(FirstPositions(k), n, k)
  {
  }

  /** `random.sample(pool, k)` on a pool without repeats: k distinct phrases of the pool. */
  predicate IsDraw(texts: seq<string>, pool: seq<string>, k: nat)
  {
    && |texts| == k
    && NoDup(texts)
    && (forall i :: 0 <= i < k ==> texts[i] in pool)
  }

  /** The first k phrases are a draw when they are distinct. */
  lemma DrawExists(pool: seq<string>, k: nat)
    requires k <= |pool| && NoDup(pool[..k])
    ensures IsDraw(pool[..k], pool, k)
  {
  }

  /** `random.shuffle(list(keys))`: the keys, each once, in some order. */
  predicate IsOrdering(order: seq<Id>, keys: set<Id>)
  {
    NoDup(order) && ToSet(order) == keys
  }

  ghost function SomeOrdering(keys: set<Id>): (r: seq<Id>)
    ensures IsOrdering(r, keys)
  {
    if keys == {} then []
    else
      var k :| k in keys;
      var rest := SomeOrdering(keys - {k});
      assert ToSet([k] + rest) == {k} + ToSet(rest);
      [k] + rest
  }
}
