/** From the updates of a provider's telemetry to the latency it is ranked by and the
    one the console shows (internal/gateway/telemetry.go, routing.go, operations.go). */
module Latencies {
  import opened Common
  import opened PriceDominance
  import opened Samples
  import opened Exploration
  import Routing
  import Telemetry

  /** The samples of a mode among everything a provider's telemetry was told. */
  function SeriesOf(log: seq<Telemetry.Op>, mode: Mode): seq<Sample>
  {
    if mode == Streaming then Telemetry.FirstContentSamples(log) else Telemetry.CompletionSamples(log)
  }

  /** The latest of them, as many as a ring holds, that are still fresh. */
  function FreshOf(log: seq<Telemetry.Op>, capacity: nat, mode: Mode, now: int, maxAge: int): seq<int>
  {
    Durations(Recent(LastOf(SeriesOf(log, mode), capacity), now, maxAge))
  }

  /** What a snapshot of the telemetry tells routing. */
  function Seen(log: seq<Telemetry.Op>, capacity: nat): Routing.Snapshot
  {
    Routing.Snapshot(Telemetry.CompletionsSeen(log, capacity), Telemetry.FirstContentsSeen(log, capacity))
  }

  /** The two middle values of some samples: their middle order statistics. */
  function LowerMiddle(samples: seq<int>): int
    requires samples != []
  {
    SortedCopy(samples)[(|samples| - 1) / 2]
  }

  function UpperMiddle(samples: seq<int>): int
    requires samples != []
  {
    SortedCopy(samples)[|samples| / 2]
  }

  lemma MiddlesAreStatistics(samples: seq<int>)
    requires samples != []
    ensures OrderStatistic(samples, (|samples| - 1) / 2, LowerMiddle(samples))
    ensures OrderStatistic(samples, |samples| / 2, UpperMiddle(samples))
  {
    SortedCopyHolds(samples, (|samples| - 1) / 2);
    SortedCopyHolds(samples, |samples| / 2);
  }

  lemma SortedInRange(samples: seq<int>, k: nat)
    requires k < |samples| && forall i :: 0 <= i < |samples| ==> -TWO_63 <= samples[i] < TWO_63
    ensures -TWO_63 <= SortedCopy(samples)[k] < TWO_63
  {
    assert SortedCopy(samples)[k] in multiset(samples);
  }

  /** The median of durations: the floor midpoint of the two middle order statistics
      exactly when these are less than 2^63 apart. */
  lemma MedianOfDurations(samples: seq<Sample>)
    requires samples != []
    ensures var d := Durations(samples);
            && OrderStatistic(d, (|d| - 1) / 2, LowerMiddle(d)) && OrderStatistic(d, |d| / 2, UpperMiddle(d))
            && (MedianDuration(d) == (LowerMiddle(d) + UpperMiddle(d)) / 2 <==> UpperMiddle(d) - LowerMiddle(d) < TWO_63)
  {
    DurationsInRange(samples);
    MedianOfMiddles(Durations(samples));
  }

  lemma DurationsInRange(samples: seq<Sample>)
    ensures forall i :: 0 <= i < |samples| ==> -TWO_63 <= Durations(samples)[i] < TWO_63
  {
  }

  lemma MedianOfMiddles(d: seq<int>)
    requires d != [] && forall i :: 0 <= i < |d| ==> -TWO_63 <= d[i] < TWO_63
    ensures OrderStatistic(d, (|d| - 1) / 2, LowerMiddle(d)) && OrderStatistic(d, |d| / 2, UpperMiddle(d))
    ensures MedianDuration(d) == (LowerMiddle(d) + UpperMiddle(d)) / 2 <==> UpperMiddle(d) - LowerMiddle(d) < TWO_63
  {
    MiddlesAreStatistics(d);
    SortedInRange(d, (|d| - 1) / 2);
    SortedInRange(d, |d| / 2);
    MedianMeaning(d, LowerMiddle(d), UpperMiddle(d));
  }

  /** Routing ranks a warm provider by, and the console shows, one and the same thing: the
      median of the fresh ones among the last samples its telemetry was told, wherever
      the rings stand. It is the floor midpoint of their two middle order statistics
      exactly when these are less than 2^63 apart. */
  lemma MediansFollowUpdates(log: seq<Telemetry.Op>, capacity: nat, c: Provider, params: LatencyParams, mode: Mode,
                             snapshots: map<string, Routing.Snapshot>, now: int, median: int)
    requires Positive(params) && c.name in snapshots && snapshots[c.name] == Seen(log, capacity)
    requires |FreshOf(log, capacity, mode, now, params.sampleMaxAge)| >= params.minSamples
    requires Routing.IsMedianOf(params, Routing.FreshDurations(params, c, mode, snapshots, now), median)
    ensures ShownLatency(Routing.RelevantLatency(Seen(log, capacity), mode), now, params.minSamples, params.sampleMaxAge).medianUS
            == Some(TruncDiv(median, NANOS_PER_MICRO))
    ensures var samples := FreshOf(log, capacity, mode, now, params.sampleMaxAge);
            && OrderStatistic(samples, (|samples| - 1) / 2, LowerMiddle(samples))
            && OrderStatistic(samples, |samples| / 2, UpperMiddle(samples))
            && (median == (LowerMiddle(samples) + UpperMiddle(samples)) / 2
                <==> UpperMiddle(samples) - LowerMiddle(samples) < TWO_63)
  {
    var recent := Recent(LastOf(SeriesOf(log, mode), capacity), now, params.sampleMaxAge);
    assert Routing.FreshDurations(params, c, mode, snapshots, now) == Durations(recent);
    MedianOfDurations(recent);
  }
}
