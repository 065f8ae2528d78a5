/**
 * The rate-limit message parser of `_retry_rate_limited_failure`, which is the
 * same in all three bot versions: lower-case the error text, find the first
 * "try again in ", and read the one or two ASCII digits after it as minutes.
 * Indexing one past the end of the text raises IndexError, as Python does.
 */
module RateLimit {
  import opened Wrappers

  const Marker := "try again in "

  /** What the parser makes of an error message. */
  datatype Parse = NoRetry | Wait(minutes: nat) | IndexError

  predicate IsDigit(c: char)
  {
    '0' <= c <= '9'
  }

  function Digit(c: char): (d: nat)
    requires IsDigit(c)
    ensures d < 10
  {
    (c as int) - ('0' as int)
  }

  /** `str.lower()` on the ASCII letters. */
  function LowerChar(c: char): (r: char)
    ensures IsDigit(r) <==> IsDigit(c)
    ensures !('A' <= c <= 'Z') ==> r == c
  {
    if 'A' <= c <= 'Z' then (c as int + 32) as char else c
  }

  function Lower(s: string): (r: string)
    ensures |r| == |s|
    ensures forall i :: 0 <= i < |s| ==> r[i] == LowerChar(s[i])
  {
    seq(|s|, i requires 0 <= i < |s| => LowerChar(s[i]))
  }

  predicate OccursAt(s: string, p: string, i: nat)
  {
    i + |p| <= |s| && s[i..i + |p|] == p
  }

  /** The first occurrence of `p` in `s` at or after `i`, as `str.index` finds it. */
  function FindFrom(s: string, p: string, i: nat): (r: Option<nat>)
    requires i <= |s|
    decreases |s| - i
    ensures r.Some? ==> i <= r.value && OccursAt(s, p, r.value)
    ensures r.Some? ==> forall j: nat :: i <= j < r.value ==> !OccursAt(s, p, j)
    ensures r.None? ==> forall j: nat :: i <= j ==> !OccursAt(s, p, j)
  {
    if OccursAt(s, p, i) then Some(i)
    else if i == |s| then None
    else FindFrom(s, p, i + 1)
  }

  /** `p in s` together with `s.index(p)`. */
  function Find(s: string, p: string): (r: Option<nat>)
    ensures r.Some? ==> OccursAt(s, p, r.value) && forall j: nat :: j < r.value ==> !OccursAt(s, p, j)
    ensures r.None? ==> forall j: nat :: !OccursAt(s, p, j)
  {
    FindFrom(s, p, 0)
  }

  /** The digit rule of `_retry_rate_limited_failure`. */
  function ParseWait(msg: string): (r: Parse)
    ensures r.Wait? ==> r.minutes < 100
    ensures Find(Lower(msg), Marker).None? ==> r == NoRetry
    ensures r.IndexError? ==> Find(Lower(msg), Marker).Some?
  {
    var low := Lower(msg);
    match Find(low, Marker)
    case None => NoRetry
    case Some(i) =>
      var m := i + |Marker|;
      if m >= |low| then IndexError
      else if !IsDigit(low[m]) then NoRetry
      else if m + 1 >= |low| then IndexError
      else if IsDigit(low[m + 1]) then Wait(10 * Digit(low[m]) + Digit(low[m + 1]))
      else Wait(Digit(low[m]))
  }

  lemma LowerConcat(a: string, b: string)
    ensures Lower(a + b) == Lower(a) + Lower(b)
  {
  }

  /** The only 't' of the marker is its first character. */
  lemma MarkerHasOneT()
    ensures forall d :: 0 < d < |Marker| ==> Marker[d] != 't'
  {
    assert Marker == ['t', 'r', 'y', ' ', 'a', 'g', 'a', 'i', 'n', ' ', 'i', 'n', ' '];
  }

  /** An occurrence starting inside `low` either lies inside it or overlaps the marker
      placed after it; the first is excluded by hypothesis, the second by MarkerHasOneT. */
  lemma {:induction false} NoOccurrenceBefore(low: string, rest: string, j: nat)
    requires Find(low, Marker).None?
    requires j < |low|
    ensures !OccursAt(low + Marker + rest, Marker, j)
  {
    var s := low + Marker + rest;
    if j + |Marker| <= |low| {
      assert !OccursAt(low, Marker, j);
      assert s[j..j + |Marker|] == low[j..j + |Marker|];
    } else if j + |Marker| <= |s| {
      var d := |low| - j;
      MarkerHasOneT();
      assert s[j..j + |Marker|][d] == s[|low|] == 't';
      assert Marker[d] != 't';
    }
  }

  /** No occurrence can start inside a marker-free prefix, so the marker placed after
      it is the first one. */
  lemma {:induction false} FirstMarkerAt(prefix: string, marker: string, rest: string)
    requires Lower(marker) == Marker
    requires Find(Lower(prefix), Marker).None?
    ensures Find(Lower(prefix + marker + rest), Marker) == Some(|prefix|)
  {
    var low := Lower(prefix + marker + rest);
    LowerConcat(prefix + marker, rest);
    LowerConcat(prefix, marker);
    assert low == Lower(prefix) + Marker + Lower(rest);
    assert OccursAt(low, Marker, |prefix|) by {
      assert low[|prefix|..|prefix| + |Marker|] == Marker;
    }
    forall j: nat | j < |prefix|
      ensures !OccursAt(low, Marker, j)
    {
      NoOccurrenceBefore(Lower(prefix), Lower(rest), j);
    }
    var r := Find(low, Marker);
    assert r.Some?;
    assert !(r.value < |prefix|) && !(|prefix| < r.value);
  }

  /** Two digits after the first marker are read as minutes, whatever follows:
      a third digit is never consulted. The marker may be in any letter case. */
  lemma {:induction false} ReadsTwoDigits(prefix: string, marker: string, a: char, b: char, tail: string)
    requires Lower(marker) == Marker
    requires Find(Lower(prefix), Marker).None?
    requires IsDigit(a) && IsDigit(b)
    ensures ParseWait(prefix + marker + [a, b] + tail) == Wait(10 * Digit(a) + Digit(b))
  {
    var s := prefix + marker + [a, b] + tail;
    assert s == prefix + marker + ([a, b] + tail);
    FirstMarkerAt(prefix, marker, [a, b] + tail);
    var m := |prefix| + |Marker|;
    assert s[m] == a && s[m + 1] == b;
  }

  /** One digit followed by a non-digit is read on its own. */
  lemma {:induction false} ReadsOneDigit(prefix: string, marker: string, a: char, c: char, tail: string)
    requires Lower(marker) == Marker
    requires Find(Lower(prefix), Marker).None?
    requires IsDigit(a) && !IsDigit(c)
    ensures ParseWait(prefix + marker + [a, c] + tail) == Wait(Digit(a))
  {
    var s := prefix + marker + [a, c] + tail;
    assert s == prefix + marker + ([a, c] + tail);
    FirstMarkerAt(prefix, marker, [a, c] + tail);
    var m := |prefix| + |Marker|;
    assert s[m] == a && s[m + 1] == c;
  }

  /** A non-digit after the first marker means no retry, even if digits come later. */
  lemma {:induction false} NonDigitNoRetry(prefix: string, marker: string, c: char, tail: string)
    requires Lower(marker) == Marker
    requires Find(Lower(prefix), Marker).None?
    requires !IsDigit(c)
    ensures ParseWait(prefix + marker + [c] + tail) == NoRetry
  {
    var s := prefix + marker + [c] + tail;
    assert s == prefix + marker + ([c] + tail);
    FirstMarkerAt(prefix, marker, [c] + tail);
    assert s[|prefix| + |Marker|] == c;
  }

  /** A message that ends right after the marker, or right after one digit, raises IndexError. */
  lemma {:induction false} IndexPastEndRaises(prefix: string, marker: string, a: char)
    requires Lower(marker) == Marker
    requires Find(Lower(prefix), Marker).None?
    requires IsDigit(a)
    ensures ParseWait(prefix + marker) == IndexError
    ensures ParseWait(prefix + marker + [a]) == IndexError
  {
    assert prefix + marker == prefix + marker + "";
    FirstMarkerAt(prefix, marker, "");
    FirstMarkerAt(prefix, marker, [a]);
    assert (prefix + marker + [a])[|prefix| + |Marker|] == a;
  }

  function DigitChar(n: nat): (c: char)
    requires n < 10
    ensures IsDigit(c) && Digit(c) == n
  {
    ('0' as int + n) as char
  }

  /** The decimal text of a number of minutes below 100. */
  function Decimal(m: nat): (s: string)
    requires m < 100
  {
    if m < 10 then [DigitChar(m)] else [DigitChar(m / 10), DigitChar(m % 10)]
  }

  /** Round trip: the minutes written after the marker in an error text are the minutes
      the parser reads back, for every value the parser can return. */
  lemma {:induction false} ParseDecimal(prefix: string, marker: string, m: nat, tail: string)
    requires Lower(marker) == Marker
    requires Find(Lower(prefix), Marker).None?
    requires m < 100
    requires tail != [] && !IsDigit(tail[0])
    ensures ParseWait(prefix + marker + Decimal(m) + tail) == Wait(m)
  {
    var d := Decimal(m);
    if m < 10 {
      assert prefix + marker + d + tail == prefix + marker + [d[0], tail[0]] + tail[1..];
      ReadsOneDigit(prefix, marker, d[0], tail[0], tail[1..]);
    } else {
      assert prefix + marker + d + tail == prefix + marker + [d[0], d[1]] + tail;
      ReadsTwoDigits(prefix, marker, d[0], d[1], tail);
    }
  }
}
