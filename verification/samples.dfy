/** Sample rings and medians (internal/gateway/telemetry.go, routing.go, operations.go). */
module Samples {
  import opened Common

  datatype Sample = Sample(duration: I64, observedAt: int)

  /** The last n elements, or all of them when there are fewer. */
  function LastOf<T>(s: seq<T>, n: nat): seq<T>
  {
    s[|s| - Min(n, |s|)..]
  }

  lemma ModWithin(x: nat, m: nat)
    requires 0 < m && x < 2 * m
    ensures x % m == if x < m then x else x - m
  {
  }

  function Rotated<T>(b: seq<T>, start: nat): seq<T>
    requires start <= |b|
  {
    b[start..] + b[..start]
  }

  /** Overwriting the oldest element and moving on drops it and appends the new one. */
  lemma RotateStep<T>(b: seq<T>, at: nat, x: T)
    requires at < |b|
    ensures Rotated(b[at := x], if at + 1 < |b| then at + 1 else 0) == Rotated(b, at)[1..] + [x]
  {
  }

  lemma LastOfSnoc<T>(s: seq<T>, n: nat, x: T)
    requires 0 < n <= |s|
    ensures LastOf(s + [x], n) == LastOf(s, n)[1..] + [x]
  {
  }

  /** latencyRing and durationRing: a fixed buffer overwritten in a circle. */
  class Ring<T(0)> {
    const values: array<T>
    var next: nat
    var count: nat

    /** Everything ever added, oldest first. */
    ghost var added: seq<T>

    ghost predicate Valid()
      reads this, values
    {
      && count == Min(values.Length, |added|)
      && (count < values.Length ==> next == count && values[..count] == added)
      && (count == values.Length ==> next <= count && (count > 0 ==> next < count)
                                     && values[next..] + values[..next] == LastOf(added, count))
    }

    constructor (capacity: nat)
      ensures Valid() && added == [] && values.Length == capacity && fresh(values)
    {
      values := new T[capacity];
      next, count := 0, 0;
      added := [];
    }

    method Add(x: T)
      requires Valid()
      modifies this, values
      ensures Valid() && added == old(added) + [x]
    {
      ghost var before := values[..];
      ghost var earlier := added;
      added := added + [x];
      if values.Length == 0 { return; }
      var at := next;
      values[at] := x;
      assert values[..] == before[at := x];
      ModWithin(at + 1, values.Length);
      next := (at + 1) % values.Length;
      if count < values.Length {
        count := count + 1;
        assert values[..count] == before[..at] + [x];
      } else {
        RotateStep(before, at, x);
        LastOfSnoc(earlier, count, x);
        assert values[next..] + values[..next] == Rotated(before[at := x], next);
      }
    }

    /** A snapshot is the last min(n, capacity) samples in arrival order, wherever
        the write position happens to be. */
    method Snapshot() returns (r: seq<T>)
      requires Valid()
      ensures r == LastOf(added, values.Length)
    {
      var start := if count == values.Length then next else 0;
      r := [];
      var i := 0;
      ghost var rotated := values[start..] + values[..start];
      while i < count
        invariant 0 <= i <= count
        invariant r == rotated[..i]
      {
        ModWithin(start + i, values.Length);
        r := r + [values[(start + i) % values.Length]];
        i := i + 1;
      }
    }
  }

  // ------------------------------------------------------------- medians

  ghost predicate Sorted(s: seq<int>) { forall i, j :: 0 <= i < j < |s| ==> s[i] <= s[j] }

  function Insert(x: int, s: seq<int>): (r: seq<int>)
    ensures multiset(r) == multiset(s) + multiset{x} && |r| == |s| + 1
    ensures forall y :: y in r ==> y == x || y in s
  {
    if s == [] || x <= s[0] then [x] + s
    else
      assert s == [s[0]] + s[1..];
      [s[0]] + Insert(x, s[1..])
  }

  lemma {:induction false} InsertSorted(x: int, s: seq<int>)
    requires Sorted(s)
    ensures Sorted(Insert(x, s))
  {
    if s == [] || x <= s[0] {
      assert forall i :: 0 <= i < |s| ==> x <= s[i];
    } else {
      InsertSorted(x, s[1..]);
      var rest := Insert(x, s[1..]);
      forall i | 0 <= i < |rest|
        ensures s[0] <= rest[i]
      {
        assert rest[i] in rest;
      }
    }
  }

  /** What sort.Slice leaves behind. */
  function SortedCopy(s: seq<int>): (r: seq<int>)
    ensures Sorted(r) && multiset(r) == multiset(s) && |r| == |s|
  {
    if s == [] then []
    else
      var rest := SortedCopy(s[1..]);
      assert s == [s[0]] + s[1..];
      InsertSorted(s[0], rest);
      Insert(s[0], rest)
  }

  /** The two middle values averaged, in int64 arithmetic. */
  function MidpointOf(lower: int, upper: int): I64
  {
    Wrap63(lower + TruncDiv(Wrap63(upper - lower), 2))
  }

  /** medianDuration, in int64 arithmetic. */
  function MedianDuration(samples: seq<int>): int
    requires samples != []
  {
    MiddleOf(SortedCopy(samples))
  }

  function MiddleOf(values: seq<int>): int
    requires values != []
  {
    var middle := |values| / 2;
    if |values| % 2 != 0 then values[middle] else MidpointOf(values[middle - 1], values[middle])
  }

  function CountBelow(s: seq<int>, v: int): nat
  {
    if s == [] then 0 else CountBelow(s[1..], v) + (if s[0] < v then 1 else 0)
  }

  /** v is the k-th smallest element (from zero), whatever the order of s. */
  ghost predicate OrderStatistic(s: seq<int>, k: nat, v: int)
  {
    CountBelow(s, v) <= k < CountBelow(s, v + 1)
  }

  lemma {:induction false} CountBelowConcat(s: seq<int>, t: seq<int>, v: int)
    ensures CountBelow(s + t, v) == CountBelow(s, v) + CountBelow(t, v)
  {
    if s == [] {
      assert s + t == t;
    } else {
      assert (s + t)[1..] == s[1..] + t;
      CountBelowConcat(s[1..], t, v);
    }
  }

  lemma MultisetWithout(t: seq<int>, k: nat)
    requires k < |t|
    ensures multiset(t[..k] + t[k + 1..]) + multiset{t[k]} == multiset(t)
  {
    assert t == t[..k] + [t[k]] + t[k + 1..];
  }

  lemma CountBelowWithout(t: seq<int>, k: nat, v: int)
    requires k < |t|
    ensures CountBelow(t, v) == CountBelow(t[..k] + t[k + 1..], v) + (if t[k] < v then 1 else 0)
  {
    CountBelowConcat(t[..k], t[k..], v);
    CountBelowConcat(t[..k], t[k + 1..], v);
    assert t == t[..k] + t[k..];
    assert t[k..][1..] == t[k + 1..];
  }

  lemma {:induction false} CountBelowPermutes(s: seq<int>, t: seq<int>, v: int)
    requires multiset(s) == multiset(t)
    ensures CountBelow(s, v) == CountBelow(t, v)
  {
    if s == [] {
      assert |multiset(t)| == 0;
    } else {
      assert s[0] in multiset(s);
      var k :| 0 <= k < |t| && t[k] == s[0];
      MultisetWithout(t, k);
      assert s == [s[0]] + s[1..];
      assert multiset(s[1..]) == multiset(s) - multiset{s[0]};
      assert multiset(t[..k] + t[k + 1..]) == multiset(t) - multiset{s[0]};
      CountBelowPermutes(s[1..], t[..k] + t[k + 1..], v);
      CountBelowWithout(t, k, v);
    }
  }

  lemma {:induction false} NoneBelow(s: seq<int>, v: int)
    requires forall i :: 0 <= i < |s| ==> v <= s[i]
    ensures CountBelow(s, v) == 0
  {
    if s != [] {
      NoneBelow(s[1..], v);
    }
  }

  lemma {:induction false} CountBelowMonotone(s: seq<int>, v: int, w: int)
    requires v <= w
    ensures CountBelow(s, v) <= CountBelow(s, w)
  {
    if s != [] {
      CountBelowMonotone(s[1..], v, w);
    }
  }

  /** In a sorted sequence, position k holds the k-th order statistic. */
  lemma {:induction false} SortedHoldsOrderStatistics(r: seq<int>, k: nat)
    requires Sorted(r) && k < |r|
    ensures OrderStatistic(r, k, r[k])
  {
    if k == 0 {
      NoneBelow(r, r[0]);
    } else {
      SortedHoldsOrderStatistics(r[1..], k - 1);
    }
  }

  lemma OrderStatisticUnique(s: seq<int>, k: nat, v: int, w: int)
    requires OrderStatistic(s, k, v) && OrderStatistic(s, k, w)
    ensures v == w
  {
    if v < w {
      CountBelowMonotone(s, v + 1, w);
    } else if w < v {
      CountBelowMonotone(s, w + 1, v);
    }
  }

  lemma SortedCopyHolds(samples: seq<int>, k: nat)
    requires k < |samples|
    ensures OrderStatistic(samples, k, SortedCopy(samples)[k])
  {
    var r := SortedCopy(samples);
    SortedHoldsOrderStatistics(r, k);
    StatisticPermutes(r, samples, k, r[k]);
  }

  lemma StatisticPermutes(s: seq<int>, t: seq<int>, k: nat, v: int)
    requires multiset(s) == multiset(t) && OrderStatistic(s, k, v)
    ensures OrderStatistic(t, k, v)
  {
    CountBelowPermutes(s, t, v);
    CountBelowPermutes(s, t, v + 1);
  }

  /** The median is the floor of the midpoint of the two middle order statistics
      exactly when they are less than 2^63 apart; further apart, the int64
      subtraction wraps and the answer is off by 2^63. */
  lemma MedianMeaning(samples: seq<int>, lower: I64, upper: I64)
    requires samples != []
    requires OrderStatistic(samples, (|samples| - 1) / 2, lower)
    requires OrderStatistic(samples, |samples| / 2, upper)
    ensures MedianDuration(samples) == (lower + upper) / 2 <==> upper - lower < TWO_63
  {
    MedianIsMidpoint(samples, lower, upper);
    Midpoint(lower, upper);
  }

  lemma MedianIsMidpoint(samples: seq<int>, lower: I64, upper: I64)
    requires samples != []
    requires OrderStatistic(samples, (|samples| - 1) / 2, lower)
    requires OrderStatistic(samples, |samples| / 2, upper)
    ensures lower <= upper && MedianDuration(samples) == MidpointOf(lower, upper)
  {
    var values := SortedCopy(samples);
    assert values[(|values| - 1) / 2] == lower by { SortedHolds(samples, (|samples| - 1) / 2, lower); }
    assert values[|values| / 2] == upper by { SortedHolds(samples, |samples| / 2, upper); }
    MedianOfMiddles(values, lower, upper);
  }

  lemma MedianOfMiddles(values: seq<int>, lower: I64, upper: I64)
    requires values != [] && Sorted(values)
    requires values[(|values| - 1) / 2] == lower && values[|values| / 2] == upper
    ensures lower <= upper && MiddleOf(values) == MidpointOf(lower, upper)
  {
    var n := |values|;
    if n % 2 != 0 {
      assert (n - 1) / 2 == n / 2;
    } else {
      assert (n - 1) / 2 == n / 2 - 1;
    }
  }

  /** The sorted copy holds every order statistic at its rank. */
  lemma SortedHolds(samples: seq<int>, k: nat, v: int)
    requires k < |samples| && OrderStatistic(samples, k, v)
    ensures SortedCopy(samples)[k] == v
  {
    SortedCopyHolds(samples, k);
    OrderStatisticUnique(samples, k, v, SortedCopy(samples)[k]);
  }

  lemma Midpoint(lower: I64, upper: I64)
    requires lower <= upper
    ensures MidpointOf(lower, upper) == (lower + upper) / 2 <==> upper - lower < TWO_63
  {
    var d := upper - lower;
    if d < TWO_63 {
      assert lower <= lower + d / 2 <= upper;
    } else {
      var half := TruncDiv(d - TWO_64, 2);
      assert half == d / 2 - TWO_63 + (if d % 2 == 0 then 0 else 1);
    }
  }

  /** The wrap-around happens: two durations at the ends of the int64 range. */
  lemma MedianCanWrap()
    ensures MedianDuration([-TWO_63, TWO_63 - 1]) == -TWO_63
    ensures (-TWO_63 + (TWO_63 - 1)) / 2 == -1
  {
    var s := [-TWO_63, TWO_63 - 1];
    assert s[1..] == [TWO_63 - 1];
    assert SortedCopy(s[1..]) == [TWO_63 - 1];
    assert SortedCopy(s) == s;
  }

  /** Samples in any other order have the same median. */
  lemma MedianIgnoresOrder(s: seq<int>, t: seq<int>)
    requires s != [] && multiset(s) == multiset(t)
    ensures |t| == |s| && MedianDuration(s) == MedianDuration(t)
  {
    assert |s| == |multiset(s)| == |multiset(t)| == |t|;
    SortedIsCanonical(SortedCopy(s), SortedCopy(t));
  }

  /** There is only one way to sort a multiset. */
  lemma SortedIsCanonical(r: seq<int>, q: seq<int>)
    requires Sorted(r) && Sorted(q) && multiset(r) == multiset(q) && |r| == |q|
    ensures r == q
  {
    forall k | 0 <= k < |r|
      ensures r[k] == q[k]
    {
      SortedHoldsOrderStatistics(r, k);
      SortedHoldsOrderStatistics(q, k);
      StatisticPermutes(q, r, k, q[k]);
      OrderStatisticUnique(r, k, r[k], q[k]);
    }
  }

  // --------------------------------------------------------- freshness

  function Recent(samples: seq<Sample>, now: int, maxAge: int): seq<Sample>
  {
    Filter(samples, (s: Sample) => s.observedAt >= now - maxAge)
  }

  function Durations(samples: seq<Sample>): (r: seq<int>)
    ensures |r| == |samples| && forall i :: 0 <= i < |r| ==> r[i] == samples[i].duration
  {
    seq(|samples|, i requires 0 <= i < |samples| => samples[i].duration)
  }

  /** recentLatencySamples, with the source's loop. */
  method RecentLatencySamples(samples: seq<Sample>, now: int, maxAge: int) returns (recent: seq<Sample>)
    ensures recent == Recent(samples, now, maxAge)
    ensures forall s :: s in recent <==> s in samples && now - s.observedAt <= maxAge
  {
    recent := [];
    var isRecent := (s: Sample) => s.observedAt >= now - maxAge;
    var i := 0;
    while i < |samples|
      invariant 0 <= i <= |samples|
      invariant recent == Filter(samples[..i], isRecent)
      invariant forall s :: s in recent <==> s in samples[..i] && now - s.observedAt <= maxAge
    {
      FilterAppend(samples[..i], [samples[i]], isRecent);
      assert samples[..i + 1] == samples[..i] + [samples[i]];
      assert [samples[i]][1..] == [];
      if !(samples[i].observedAt < now - maxAge) {
        recent := recent + [samples[i]];
      }
      i := i + 1;
    }
    assert samples[..i] == samples;
  }

  datatype LatencyState = LatencyState(stored: nat, recent: nat, sufficient: bool, medianUS: Option<int>)

  const NANOS_PER_MICRO: int := 1000

  function ShownLatency(samples: seq<Sample>, now: int, minSamples: int, maxAge: int): LatencyState
  {
    var recent := Recent(samples, now, maxAge);
    LatencyState(|samples|, |recent|, 0 < minSamples <= |recent|,
                 if 0 < minSamples <= |recent|
                 then Some(TruncDiv(MedianDuration(Durations(recent)), NANOS_PER_MICRO)) else None)
  }

  /** latencyState, the console's view: the median of exactly the samples the
      routing policies rank by, in whole microseconds. */
  method ConsoleLatency(samples: seq<Sample>, now: int, minSamples: int, maxAge: int) returns (state: LatencyState)
    ensures state == ShownLatency(samples, now, minSamples, maxAge)
    ensures state.stored == |samples| && state.recent == |Recent(samples, now, maxAge)|
    ensures (state.sufficient <==> 0 < minSamples <= state.recent) && (state.medianUS.Some? <==> state.sufficient)
  {
    var recent := RecentLatencySamples(samples, now, maxAge);
    state := LatencyState(|samples|, |recent|, minSamples > 0 && |recent| >= minSamples, None);
    if state.sufficient {
      state := state.(medianUS := Some(TruncDiv(MedianDuration(Durations(recent)), NANOS_PER_MICRO)));
    }
  }
}
