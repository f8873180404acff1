/** Per-provider attempt counters (internal/gateway/telemetry.go). */
module Telemetry {
  import opened Common
  import opened Outcomes
  import opened Samples

  /** One update of a provider's telemetry. */
  datatype Op =
    | Began(now: int)
    | FirstContent(duration: I64, now: int)
    | Finished(outcome: Outcome, streaming: bool, duration: I64, now: int)

  /** time.Time.Sub, which saturates at the ends of int64. */
  function Elapsed(now: int, started: int): (d: I64)
    ensures d == now - started || d == -TWO_63 > now - started || d == TWO_63 - 1 < now - started
  {
    var d := now - started;
    if d < -TWO_63 then -TWO_63 else if d >= TWO_63 then TWO_63 - 1 else d
  }

  function Begun(log: seq<Op>): nat
  {
    if log == [] then 0 else Begun(log[..|log| - 1]) + (if log[|log| - 1].Began? then 1 else 0)
  }

  function Ended(log: seq<Op>): nat
  {
    if log == [] then 0 else Ended(log[..|log| - 1]) + (if log[|log| - 1].Finished? then 1 else 0)
  }

  function Tally(log: seq<Op>, o: Outcome): nat
  {
    if log == [] then 0
    else Tally(log[..|log| - 1], o) + (if log[|log| - 1].Finished? && log[|log| - 1].outcome == o then 1 else 0)
  }

  /** The failure counter: every ending that is neither success nor cancellation. */
  function FailureTally(log: seq<Op>): nat
  {
    Tally(log, Timeout) + Tally(log, Unavailable) + Tally(log, RateLimited)
    + Tally(log, InvalidRequest) + Tally(log, Internal) + Tally(log, OtherFailure)
  }

  /** The times of the latest attempt, success and failure; zero when there was none. */
  datatype Times = Times(attempt: int, success: int, failure: int)

  function TimesOf(log: seq<Op>): Times
  {
    if log == [] then Times(0, 0, 0) else Stamped(TimesOf(log[..|log| - 1]), log[|log| - 1])
  }

  function Stamped(t: Times, op: Op): Times
  {
    match op
    case Began(now) => t.(attempt := now)
    case FirstContent(_, _) => t
    case Finished(outcome, _, _, now) =>
      if outcome == Success then t.(success := now) else if outcome == Canceled then t else t.(failure := now)
  }

  lemma TimesSnoc(log: seq<Op>, op: Op)
    ensures TimesOf(log + [op]) == Stamped(TimesOf(log), op)
  {
    assert (log + [op])[..|log|] == log;
  }

  function CompletionSamples(log: seq<Op>): seq<Sample>
  {
    if log == [] then []
    else
      var op := log[|log| - 1];
      CompletionSamples(log[..|log| - 1])
      + (if op.Finished? && !op.streaming then [Sample(op.duration, op.now)] else [])
  }

  function FirstContentSamples(log: seq<Op>): seq<Sample>
  {
    if log == [] then []
    else
      var op := log[|log| - 1];
      FirstContentSamples(log[..|log| - 1]) + (if op.FirstContent? then [Sample(op.duration, op.now)] else [])
  }

  function StreamDurations(log: seq<Op>): seq<int>
  {
    if log == [] then []
    else
      var op := log[|log| - 1];
      StreamDurations(log[..|log| - 1]) + (if op.Finished? && op.streaming then [op.duration] else [])
  }

  /** Appending one update changes one tally by one. */
  lemma TallySnoc(log: seq<Op>, op: Op)
    ensures Begun(log + [op]) == Begun(log) + (if op.Began? then 1 else 0)
    ensures Ended(log + [op]) == Ended(log) + (if op.Finished? then 1 else 0)
    ensures forall o :: Tally(log + [op], o) == Tally(log, o) + (if op.Finished? && op.outcome == o then 1 else 0)
    ensures FailureTally(log + [op]) == FailureTally(log)
                                        + (if op.Finished? && op.outcome != Success && op.outcome != Canceled then 1 else 0)
  {
    assert (log + [op])[..|log|] == log;
  }

  /** The failure counters by category, and all counters of a provider. */
  datatype Categories =
    Categories(timeouts: nat, unavailable: nat, rateLimited: nat, invalidRequest: nat, internal: nat, other: nat)

  datatype Counters = Counters(attempts: nat, successes: nat, failures: nat, cancellations: nat, categories: Categories)

  const NO_COUNTS := Counters(0, 0, 0, 0, Categories(0, 0, 0, 0, 0, 0))

  function CategoriesOf(log: seq<Op>): Categories
  {
    Categories(Tally(log, Timeout), Tally(log, Unavailable), Tally(log, RateLimited),
               Tally(log, InvalidRequest), Tally(log, Internal), Tally(log, OtherFailure))
  }

  /** The counters are tallies of everything recorded. */
  function CountersOf(log: seq<Op>): Counters
  {
    Counters(Begun(log), Tally(log, Success), FailureTally(log), Tally(log, Canceled), CategoriesOf(log))
  }

  /** One failure more in its category. */
  function CountCategory(k: Categories, o: Outcome): Categories
    requires o != Success && o != Canceled
  {
    match o
    case Timeout => k.(timeouts := k.timeouts + 1)
    case Unavailable => k.(unavailable := k.unavailable + 1)
    case RateLimited => k.(rateLimited := k.rateLimited + 1)
    case InvalidRequest => k.(invalidRequest := k.invalidRequest + 1)
    case Internal => k.(internal := k.internal + 1)
    case OtherFailure => k.(other := k.other + 1)
  }

  lemma CategoriesSnoc(log: seq<Op>, op: Op)
    ensures CategoriesOf(log + [op])
            == if op.Finished? && op.outcome != Success && op.outcome != Canceled
               then CountCategory(CategoriesOf(log), op.outcome) else CategoriesOf(log)
  {
    TallySnoc(log, op);
  }

  lemma BeganSnoc(log: seq<Op>, op: Op)
    requires !op.Finished?
    ensures CountersOf(log + [op]) == CountersOf(log).(attempts := Begun(log) + (if op.Began? then 1 else 0))
  {
    TallySnoc(log, op);
    CategoriesSnoc(log, op);
  }

  lemma EndedSnoc(log: seq<Op>, op: Op)
    requires op.Finished?
    ensures var c := CountersOf(log);
            CountersOf(log + [op])
            == if op.outcome == Success then c.(successes := c.successes + 1)
               else if op.outcome == Canceled then c.(cancellations := c.cancellations + 1)
               else c.(failures := c.failures + 1, categories := CountCategory(c.categories, op.outcome))
  {
    TallySnoc(log, op);
    CategoriesSnoc(log, op);
  }

  /** And adds at most one sample to one series. */
  lemma SamplesSnoc(log: seq<Op>, op: Op)
    ensures CompletionSamples(log + [op]) == CompletionSamples(log)
                                             + (if op.Finished? && !op.streaming then [Sample(op.duration, op.now)] else [])
    ensures FirstContentSamples(log + [op]) == FirstContentSamples(log)
                                               + (if op.FirstContent? then [Sample(op.duration, op.now)] else [])
    ensures StreamDurations(log + [op]) == StreamDurations(log)
                                           + (if op.Finished? && op.streaming then [op.duration] else [])
  {
    assert (log + [op])[..|log|] == log;
  }

  /** Every ending is counted once: success, cancellation or one failure category. */
  lemma {:induction false} EndingsSplit(log: seq<Op>)
    ensures Ended(log) == Tally(log, Success) + Tally(log, Canceled) + FailureTally(log)
  {
    if log != [] {
      var front, last := log[..|log| - 1], log[|log| - 1];
      EndingsSplit(front);
      TallySnoc(front, last);
      assert front + [last] == log;
    }
  }

  /** How many updates satisfy a condition. */
  function Number(log: seq<Op>, p: Op -> bool): nat { |Filter(log, p)| }

  lemma NumberSnoc(log: seq<Op>, p: Op -> bool)
    requires log != []
    ensures Number(log, p) == Number(log[..|log| - 1], p) + (if p(log[|log| - 1]) then 1 else 0)
  {
    var front, last := log[..|log| - 1], log[|log| - 1];
    assert front + [last] == log;
    FilterAppend(front, [last], p);
  }

  lemma {:induction false} TallyCounts(log: seq<Op>, o: Outcome)
    ensures Tally(log, o) == Number(log, (op: Op) => op.Finished? && op.outcome == o)
  {
    if log != [] {
      TallyCounts(log[..|log| - 1], o);
      NumberSnoc(log, (op: Op) => op.Finished? && op.outcome == o);
    }
  }

  lemma {:induction false} BegunCounts(log: seq<Op>)
    ensures Begun(log) == Number(log, (op: Op) => op.Began?)
  {
    if log != [] {
      BegunCounts(log[..|log| - 1]);
      NumberSnoc(log, (op: Op) => op.Began?);
    }
  }

  lemma {:induction false} FailuresCount(log: seq<Op>)
    ensures FailureTally(log) == Number(log, (op: Op) => op.Finished? && op.outcome != Success && op.outcome != Canceled)
  {
    if log != [] {
      var front := log[..|log| - 1];
      FailuresCount(front);
      NumberSnoc(log, (op: Op) => op.Finished? && op.outcome != Success && op.outcome != Canceled);
      assert front + [log[|log| - 1]] == log;
      TallySnoc(front, log[|log| - 1]);
    }
  }

  /** Every counter is the number of updates of its own kind. */
  lemma CountersCount(log: seq<Op>)
    ensures var c := CountersOf(log);
            && c.attempts == Number(log, (op: Op) => op.Began?)
            && c.successes == Number(log, (op: Op) => op.Finished? && op.outcome == Success)
            && c.cancellations == Number(log, (op: Op) => op.Finished? && op.outcome == Canceled)
            && c.failures == Number(log, (op: Op) => op.Finished? && op.outcome != Success && op.outcome != Canceled)
    ensures var k := CountersOf(log).categories;
            && k.timeouts == Number(log, (op: Op) => op.Finished? && op.outcome == Timeout)
            && k.unavailable == Number(log, (op: Op) => op.Finished? && op.outcome == Unavailable)
            && k.rateLimited == Number(log, (op: Op) => op.Finished? && op.outcome == RateLimited)
            && k.invalidRequest == Number(log, (op: Op) => op.Finished? && op.outcome == InvalidRequest)
            && k.internal == Number(log, (op: Op) => op.Finished? && op.outcome == Internal)
            && k.other == Number(log, (op: Op) => op.Finished? && op.outcome == OtherFailure)
  {
    BegunCounts(log);
    FailuresCount(log);
    TallyCounts(log, Success);
    TallyCounts(log, Canceled);
    TallyCounts(log, Timeout);
    TallyCounts(log, Unavailable);
    TallyCounts(log, RateLimited);
    TallyCounts(log, InvalidRequest);
    TallyCounts(log, Internal);
    TallyCounts(log, OtherFailure);
  }

  /** The time of the latest update that satisfies a condition, or zero. */
  function LatestNow(log: seq<Op>, p: Op -> bool): int
  {
    if log == [] then 0 else if p(log[|log| - 1]) then log[|log| - 1].now else LatestNow(log[..|log| - 1], p)
  }

  /** The times kept are those of the latest attempt, the latest success and the latest
      ending that was neither a success nor a cancellation. */
  lemma {:induction false} TimesAreLatest(log: seq<Op>)
    ensures TimesOf(log) == Times(LatestNow(log, (op: Op) => op.Began?),
                                  LatestNow(log, (op: Op) => op.Finished? && op.outcome == Success),
                                  LatestNow(log, (op: Op) => op.Finished? && op.outcome != Success && op.outcome != Canceled))
  {
    if log != [] {
      TimesAreLatest(log[..|log| - 1]);
    }
  }

  /** Samples that are those of the updates, one to one and in order. */
  predicate SampledFrom(samples: seq<Sample>, ops: seq<Op>)
  {
    && |samples| == |ops|
    && forall i :: 0 <= i < |ops| ==> !ops[i].Began? && samples[i] == Sample(ops[i].duration, ops[i].now)
  }

  /** One completion sample for every ending that did not stream, whatever its outcome. */
  lemma {:induction false} CompletionsAreSampled(log: seq<Op>)
    ensures SampledFrom(CompletionSamples(log), Filter(log, (op: Op) => op.Finished? && !op.streaming))
  {
    if log != [] {
      var front, last := log[..|log| - 1], log[|log| - 1];
      CompletionsAreSampled(front);
      assert front + [last] == log;
      FilterAppend(front, [last], (op: Op) => op.Finished? && !op.streaming);
    }
  }

  /** One first-content sample for every first content. */
  lemma {:induction false} FirstContentsAreSampled(log: seq<Op>)
    ensures SampledFrom(FirstContentSamples(log), Filter(log, (op: Op) => op.FirstContent?))
  {
    if log != [] {
      var front, last := log[..|log| - 1], log[|log| - 1];
      FirstContentsAreSampled(front);
      assert front + [last] == log;
      FilterAppend(front, [last], (op: Op) => op.FirstContent?);
    }
  }

  lemma NothingRecorded()
    ensures CountersOf([]) == NO_COUNTS && TimesOf([]) == Times(0, 0, 0)
    ensures CompletionSamples([]) == [] && FirstContentSamples([]) == [] && StreamDurations([]) == []
  {
  }

  method NewRings(capacity: nat) returns (a: Ring<Sample>, b: Ring<Sample>, c: Ring<int>)
    ensures fresh(a) && fresh(a.values) && a.Valid() && a.added == [] && a.values.Length == capacity
    ensures fresh(b) && fresh(b.values) && b.Valid() && b.added == [] && b.values.Length == capacity
    ensures fresh(c) && fresh(c.values) && c.Valid() && c.added == [] && c.values.Length == capacity
    ensures a != b && a.values != b.values
    ensures c as object !in {a as object, b} && c.values as object !in {a.values as object, b.values}
  {
    a := new Ring<Sample>(capacity);
    b := new Ring<Sample>(capacity);
    c := new Ring<int>(capacity);
  }

  /** providerTelemetry: counters, times and rings updated in place. */
  class ProviderTelemetry {
    var counters: Counters
    var times: Times
    const completions: Ring<Sample>
    const firstContents: Ring<Sample>
    const streamDurations: Ring<int>

    ghost var log: seq<Op>

    ghost function Repr(): set<object>
      reads this
    {
      {this, completions, firstContents, streamDurations,
       completions.values, firstContents.values, streamDurations.values}
    }

    ghost predicate Separate()
    {
      && completions != firstContents && completions.values != firstContents.values
      && streamDurations as object !in {completions as object, firstContents}
      && streamDurations.values as object !in {completions.values as object, firstContents.values}
    }

    /** The counters, the times and the ring contents are those of everything recorded. */
    ghost predicate Valid()
      reads this, Repr()
    {
      && Separate() && completions.Valid() && firstContents.Valid() && streamDurations.Valid()
      && counters == CountersOf(log) && times == TimesOf(log)
      && completions.added == CompletionSamples(log)
      && firstContents.added == FirstContentSamples(log)
      && streamDurations.added == StreamDurations(log)
    }

    constructor (capacity: nat)
      ensures Valid() && log == [] && fresh(Repr())
      ensures completions.values.Length == firstContents.values.Length == streamDurations.values.Length == capacity
    {
      var done, content, durations := NewRings(capacity);
      completions, firstContents, streamDurations := done, content, durations;
      counters, times, log := NO_COUNTS, Times(0, 0, 0), [];
      new;
      NothingRecorded();
    }

    method Begin(now: int)
      requires Valid()
      modifies this
      ensures Valid() && log == old(log) + [Began(now)]
    {
      BeganSnoc(log, Began(now));
      SamplesSnoc(log, Began(now));
      TimesSnoc(log, Began(now));
      counters := counters.(attempts := counters.attempts + 1);
      times := times.(attempt := now);
      log := log + [Began(now)];
    }

    method RecordFirstContent(started: int, now: int) returns (duration: I64)
      requires Valid()
      modifies Repr()
      ensures Valid() && duration == Elapsed(now, started) && log == old(log) + [FirstContent(duration, now)]
    {
      duration := Elapsed(now, started);
      ghost var op := FirstContent(duration, now);
      BeganSnoc(log, op);
      SamplesSnoc(log, op);
      TimesSnoc(log, op);
      firstContents.Add(Sample(duration, now));
      log := log + [op];
    }

    /** recordOutcome. */
    method RecordOutcome(outcome: Outcome, now: int, ghost op: Op)
      requires counters == CountersOf(log) && times == TimesOf(log) && op.Finished? && op.outcome == outcome && op.now == now
      modifies this
      ensures log == old(log) + [op] && counters == CountersOf(log) && times == TimesOf(log)
    {
      EndedSnoc(log, op);
      TimesSnoc(log, op);
      log := log + [op];
      if outcome == Success {
        counters := counters.(successes := counters.successes + 1);
        times := times.(success := now);
      } else if outcome == Canceled {
        counters := counters.(cancellations := counters.cancellations + 1);
      } else {
        counters := counters.(failures := counters.failures + 1, categories := CountCategory(counters.categories, outcome));
        times := times.(failure := now);
      }
    }

    method FinishNonStreaming(started: int, outcome: Outcome, now: int) returns (duration: I64)
      requires Valid()
      modifies Repr()
      ensures Valid() && duration == Elapsed(now, started)
      ensures log == old(log) + [Finished(outcome, false, duration, now)]
    {
      duration := Elapsed(now, started);
      ghost var op := Finished(outcome, false, duration, now);
      SamplesSnoc(log, op);
      RecordOutcome(outcome, now, op);
      completions.Add(Sample(duration, now));
    }

    method FinishStreaming(started: int, outcome: Outcome, now: int) returns (duration: I64)
      requires Valid()
      modifies Repr()
      ensures Valid() && duration == Elapsed(now, started)
      ensures log == old(log) + [Finished(outcome, true, duration, now)]
    {
      duration := Elapsed(now, started);
      ghost var op := Finished(outcome, true, duration, now);
      SamplesSnoc(log, op);
      RecordOutcome(outcome, now, op);
      streamDurations.Add(duration);
    }

    /** snapshot: the counters, the times and the latest samples of each series, as many
        as the rings hold, all as functions of the updates made. */
    method Snapshot() returns (counts: Counters, latest: Times, completed: seq<Sample>, contents: seq<Sample>, durations: seq<int>)
      requires Valid()
      ensures counts == CountersOf(log) && latest == TimesOf(log)
      ensures completed == CompletionsSeen(log, completions.values.Length)
      ensures contents == FirstContentsSeen(log, firstContents.values.Length)
      ensures durations == LastOf(StreamDurations(log), streamDurations.values.Length)
    {
      counts, latest := counters, times;
      completed := completions.Snapshot();
      contents := firstContents.Snapshot();
      durations := streamDurations.Snapshot();
    }
  }

  /** The latency samples a snapshot hands to routing and to the console. */
  function CompletionsSeen(log: seq<Op>, capacity: nat): seq<Sample> { LastOf(CompletionSamples(log), capacity) }

  function FirstContentsSeen(log: seq<Op>, capacity: nat): seq<Sample> { LastOf(FirstContentSamples(log), capacity) }

  /** The counters balance: attempts begun are those that succeeded, failed or were
      canceled, plus those still running. */
  lemma AttemptsBalance(t: ProviderTelemetry)
    requires t.Valid()
    ensures var c := t.counters;
            && c.attempts + Ended(t.log) == c.successes + c.failures + c.cancellations + Begun(t.log)
            && (Begun(t.log) == Ended(t.log) ==> c.attempts == c.successes + c.failures + c.cancellations)
  {
    EndingsSplit(t.log);
  }
}
