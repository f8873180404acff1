/** Exploration cadence and runtime policy versions
    (internal/gateway/routing.go, internal/gateway/runtime_routing.go). */
module Exploration {
  import opened Common

  datatype Mode = NonStreaming | Streaming

  // ------------------------------------- one counter, many intervals

  predicate Due(counter: nat, interval: int) { counter + 1 >= interval }

  function Advance(counter: nat, interval: int): nat
  {
    if Due(counter, interval) then 0 else counter + 1
  }

  /** The counter after deciding under each interval in turn. */
  function CounterAfter(start: nat, intervals: seq<int>): nat
  {
    if intervals == [] then start
    else Advance(CounterAfter(start, intervals[..|intervals| - 1]), intervals[|intervals| - 1])
  }

  /** Whether the i-th decision explores. */
  predicate Explores(start: nat, intervals: seq<int>, i: nat)
    requires i < |intervals|
  {
    Due(CounterAfter(start, intervals[..i]), intervals[i])
  }

  function Explorations(start: nat, intervals: seq<int>): nat
  {
    if intervals == [] then 0
    else
      var front := intervals[..|intervals| - 1];
      Explorations(start, front) + (if Due(CounterAfter(start, front), intervals[|intervals| - 1]) then 1 else 0)
  }

  lemma ExplorationsSnoc(start: nat, intervals: seq<int>, k: int)
    ensures Explorations(start, intervals + [k])
            == Explorations(start, intervals) + (if Due(CounterAfter(start, intervals), k) then 1 else 0)
  {
    assert (intervals + [k])[..|intervals|] == intervals;
  }

  lemma {:induction false} QuietCounter(start: nat, intervals: seq<int>, from: nat, to: nat)
    requires from <= to <= |intervals|
    requires forall i :: from <= i < to ==> !Explores(start, intervals, i)
    ensures CounterAfter(start, intervals[..to]) == CounterAfter(start, intervals[..from]) + (to - from)
  {
    if from < to {
      QuietCounter(start, intervals, from, to - 1);
      assert intervals[..to][..to - 1] == intervals[..to - 1];
      assert !Explores(start, intervals, to - 1);
    }
  }

  /** K consecutive decisions whose intervals are all at most K explore at least
      once, wherever the counter stood and however the intervals changed. */
  lemma WindowExplores(start: nat, intervals: seq<int>)
    requires intervals != [] && forall i :: 0 <= i < |intervals| ==> intervals[i] <= |intervals|
    ensures exists i :: 0 <= i < |intervals| && Explores(start, intervals, i)
  {
    var last := |intervals| - 1;
    if forall i :: 0 <= i < last ==> !Explores(start, intervals, i) {
      QuietCounter(start, intervals, 0, last);
      assert Explores(start, intervals, last);
    }
  }

  lemma {:induction false} CounterConcat(start: nat, a: seq<int>, b: seq<int>)
    ensures CounterAfter(start, a + b) == CounterAfter(CounterAfter(start, a), b)
  {
    if b == [] {
      assert a + b == a;
    } else {
      var n := |b| - 1;
      assert (a + b)[..|a + b| - 1] == a + b[..n];
      CounterConcat(start, a, b[..n]);
    }
  }

  /** A decision explores the same whether its run is read from the start or from the
      counter some earlier decisions left. */
  lemma ExploresShifted(start: nat, a: seq<int>, b: seq<int>, k: nat)
    requires k < |b|
    ensures Explores(CounterAfter(start, a), b, k) <==> Explores(start, a + b, |a| + k)
  {
    assert (a + b)[..|a| + k] == a + b[..k];
    CounterConcat(start, a, b[..k]);
  }

  /** Two successive explorations are at least the interval in force at the second
      one apart, and no earlier decision between them was due under its own. */
  lemma SuccessiveExplorations(start: nat, intervals: seq<int>, i: nat, j: nat)
    requires i < j < |intervals| && Explores(start, intervals, i)
    requires forall m :: i < m < j ==> !Explores(start, intervals, m)
    ensures Explores(start, intervals, j) <==> j - i >= intervals[j]
    ensures forall m :: i < m < j ==> m - i < intervals[m]
  {
    assert intervals[..i + 1][..i] == intervals[..i];
    assert CounterAfter(start, intervals[..i + 1]) == 0;
    forall m | i < m <= j
      ensures CounterAfter(start, intervals[..m]) == m - i - 1
    {
      QuietCounter(start, intervals, i + 1, m);
    }
    forall m | i < m < j
      ensures m - i < intervals[m]
    {
      assert CounterAfter(start, intervals[..m]) == m - i - 1 && !Explores(start, intervals, m);
    }
  }

  lemma {:induction false} ConstantIntervalInvariant(intervals: seq<int>, k: nat)
    requires k >= 1 && forall i :: 0 <= i < |intervals| ==> intervals[i] == k
    ensures |intervals| == Explorations(0, intervals) * k + CounterAfter(0, intervals)
    ensures CounterAfter(0, intervals) < k
  {
    if intervals != [] {
      var front := intervals[..|intervals| - 1];
      ConstantIntervalInvariant(front, k);
      assert Explorations(0, intervals) * k == Explorations(0, front) * k + (if Due(CounterAfter(0, front), k) then k else 0);
    }
  }

  /** With a constant interval k and a fresh counter, n decisions explore floor(n/k)
      times: k goes that many times into n and no more. */
  lemma ConstantCadence(intervals: seq<int>, k: nat)
    requires k >= 1 && forall i :: 0 <= i < |intervals| ==> intervals[i] == k
    ensures var times := Explorations(0, intervals);
            times * k <= |intervals| < (times + 1) * k
  {
    ConstantIntervalInvariant(intervals, k);
  }

  // -------------------------------------- decisions among other happenings

  /** A history in which some happenings are decisions, under an interval each: the
      intervals of the decisions among them. */
  function Taken(marks: seq<Option<int>>): seq<int>
  {
    if marks == [] then []
    else
      var last := marks[|marks| - 1];
      Taken(marks[..|marks| - 1]) + (if last.Some? then [last.value] else [])
  }

  /** How many decisions came before. */
  function TakenBefore(marks: seq<Option<int>>, i: nat): nat
    requires i <= |marks|
  {
    |Taken(marks[..i])|
  }

  /** Whether a decision is due by the counter of those before it. */
  predicate DueIn(marks: seq<Option<int>>, i: nat)
    requires i < |marks| && marks[i].Some?
  {
    Due(CounterAfter(0, Taken(marks[..i])), marks[i].value)
  }

  lemma TakenSnoc(marks: seq<Option<int>>, i: nat)
    requires i < |marks|
    ensures Taken(marks[..i + 1]) == Taken(marks[..i]) + (if marks[i].Some? then [marks[i].value] else [])
  {
    assert marks[..i + 1][..i] == marks[..i];
  }

  lemma {:induction false} TakenPrefix(marks: seq<Option<int>>, i: nat, j: nat)
    requires i <= j <= |marks|
    ensures TakenBefore(marks, i) <= TakenBefore(marks, j)
    ensures Taken(marks[..j])[..TakenBefore(marks, i)] == Taken(marks[..i])
  {
    if i < j {
      TakenPrefix(marks, i, j - 1);
      TakenSnoc(marks, j - 1);
    }
  }

  /** A decision, among all of them. */
  lemma TakenAt(marks: seq<Option<int>>, i: nat, j: nat)
    requires i < j <= |marks| && marks[i].Some?
    ensures var d, all := TakenBefore(marks, i), Taken(marks[..j]);
            d < |all| && TakenBefore(marks, i + 1) == d + 1 <= TakenBefore(marks, j) && all[d] == marks[i].value
    ensures DueIn(marks, i) <==> Explores(0, Taken(marks[..j]), TakenBefore(marks, i))
  {
    TakenPrefix(marks, i, j);
    TakenPrefix(marks, i + 1, j);
    TakenSnoc(marks, i);
    var d, all := TakenBefore(marks, i), Taken(marks[..j]);
    assert all[..d + 1][d] == all[d];
  }

  /** Where a decision was taken, between two points that it lies between by number. */
  lemma {:induction false} MarkOf(marks: seq<Option<int>>, from: nat, to: nat, d: nat) returns (i: nat)
    requires from <= to <= |marks| && TakenBefore(marks, from) <= d < TakenBefore(marks, to)
    ensures from <= i < to && marks[i].Some? && TakenBefore(marks, i) == d
  {
    TakenSnoc(marks, to - 1);
    i := to - 1;
    if d < TakenBefore(marks, to - 1) {
      i := MarkOf(marks, from, to - 1, d);
    }
  }

  /** Among the later decisions of a run, whose intervals are at most their number, one
      explores. */
  lemma SomeExplores(first: seq<int>, all: seq<int>) returns (d: nat)
    requires |first| < |all| && all[..|first|] == first && forall d :: |first| <= d < |all| ==> all[d] <= |all| - |first|
    ensures |first| <= d < |all| && Explores(0, all, d)
  {
    var window := all[|first|..];
    assert first + window == all;
    WindowExplores(CounterAfter(0, first), window);
    var k :| 0 <= k < |window| && Explores(CounterAfter(0, first), window, k);
    ExploresShifted(0, first, window, k);
    d := |first| + k;
  }

  /** WindowExplores, among other happenings. */
  lemma MarksExplore(marks: seq<Option<int>>, from: nat, to: nat) returns (i: nat)
    requires from <= to <= |marks| && TakenBefore(marks, from) < TakenBefore(marks, to)
    requires forall i :: from <= i < to && marks[i].Some? ==> marks[i].value <= TakenBefore(marks, to) - TakenBefore(marks, from)
    ensures from <= i < to && marks[i].Some? && DueIn(marks, i)
  {
    var first, all := Taken(marks[..from]), Taken(marks[..to]);
    TakenPrefix(marks, from, to);
    forall d | |first| <= d < |all|
      ensures all[d] <= |all| - |first|
    {
      var k := MarkOf(marks, from, to, d);
      TakenAt(marks, k, to);
    }
    var d := SomeExplores(first, all);
    i := MarkOf(marks, from, to, d);
    TakenAt(marks, i, to);
  }

  /** SuccessiveExplorations, among other happenings. */
  lemma MarksApart(marks: seq<Option<int>>, i: nat, j: nat)
    requires i < j < |marks| && marks[i].Some? && marks[j].Some? && DueIn(marks, i)
    requires forall m :: i < m < j && marks[m].Some? ==> !DueIn(marks, m)
    ensures DueIn(marks, j) <==> TakenBefore(marks, j) - TakenBefore(marks, i) >= marks[j].value
  {
    var all, a, b := Taken(marks[..j + 1]), TakenBefore(marks, i), TakenBefore(marks, j);
    TakenAt(marks, i, j);
    TakenAt(marks, i, j + 1);
    TakenAt(marks, j, j + 1);
    forall d | a < d < b
      ensures !Explores(0, all, d)
    {
      var m := MarkOf(marks, i + 1, j, d);
      TakenAt(marks, m, j + 1);
    }
    SuccessiveExplorations(0, all, a, b);
  }

  /** How many of the first decisions explored. */
  function ExploredBefore(marks: seq<Option<int>>, to: nat): nat
    requires to <= |marks|
  {
    if to == 0 then 0 else ExploredBefore(marks, to - 1) + (if marks[to - 1].Some? && DueIn(marks, to - 1) then 1 else 0)
  }

  lemma {:induction false} ExploredAreExplorations(marks: seq<Option<int>>, to: nat)
    requires to <= |marks|
    ensures ExploredBefore(marks, to) == Explorations(0, Taken(marks[..to]))
  {
    if to > 0 {
      ExploredAreExplorations(marks, to - 1);
      TakenSnoc(marks, to - 1);
      if marks[to - 1].Some? {
        ExplorationsSnoc(0, Taken(marks[..to - 1]), marks[to - 1].value);
      } else {
        assert Taken(marks[..to - 1]) + [] == Taken(marks[..to - 1]);
      }
    }
  }

  /** ConstantCadence, among other happenings. */
  lemma MarksKeepCadence(marks: seq<Option<int>>, k: nat)
    requires k >= 1 && forall i :: 0 <= i < |marks| && marks[i].Some? ==> marks[i].value == k
    ensures var times, n := ExploredBefore(marks, |marks|), TakenBefore(marks, |marks|);
            times * k <= n < (times + 1) * k
  {
    var all := ConstantMarks(marks, k);
    ConstantCadence(all, k);
  }

  /** All decisions, whose intervals are one. */
  lemma ConstantMarks(marks: seq<Option<int>>, k: int) returns (all: seq<int>)
    requires forall i :: 0 <= i < |marks| && marks[i].Some? ==> marks[i].value == k
    ensures |all| == TakenBefore(marks, |marks|) && Explorations(0, all) == ExploredBefore(marks, |marks|)
    ensures forall d :: 0 <= d < |all| ==> all[d] == k
  {
    all := Taken(marks[..|marks|]);
    ExploredAreExplorations(marks, |marks|);
    forall d | 0 <= d < |all|
      ensures all[d] == k
    {
      var i := MarkOf(marks, 0, |marks|, d);
      TakenAt(marks, i, |marks|);
    }
  }

  // --------------------------- two modes, one state, any policy version

  /** What can happen to the shared exploration state. */
  datatype Event = Decide(mode: Mode, interval: int) | Publish

  datatype Counts = Counts(nonStreaming: nat, streaming: nat)

  function CountOf(c: Counts, mode: Mode): nat { if mode == Streaming then c.streaming else c.nonStreaming }

  function Apply(c: Counts, e: Event): Counts
  {
    match e
    case Publish => c
    case Decide(NonStreaming, interval) => c.(nonStreaming := Advance(c.nonStreaming, interval))
    case Decide(Streaming, interval) => c.(streaming := Advance(c.streaming, interval))
  }

  function CountsAfter(events: seq<Event>): Counts
  {
    if events == [] then Counts(0, 0) else Apply(CountsAfter(events[..|events| - 1]), events[|events| - 1])
  }

  /** The intervals one mode's decisions ran under, in order. */
  function IntervalsOf(events: seq<Event>, mode: Mode): seq<int>
  {
    if events == [] then []
    else
      var e := events[|events| - 1];
      IntervalsOf(events[..|events| - 1], mode) + (if e.Decide? && e.mode == mode then [e.interval] else [])
  }

  /** Publishing a version and deciding in the other mode leave a mode's counter
      alone: it is the counter of that mode's own decisions, so the cadence results
      hold across any interleaving of modes and updates. */
  lemma {:induction false} ModesAreIndependent(events: seq<Event>, mode: Mode)
    ensures CountOf(CountsAfter(events), mode) == CounterAfter(0, IntervalsOf(events, mode))
  {
    if events != [] {
      var front, e := events[..|events| - 1], events[|events| - 1];
      ModesAreIndependent(front, mode);
      if e.Decide? && e.mode == mode {
        var intervals := IntervalsOf(events, mode);
        assert intervals[..|intervals| - 1] == IntervalsOf(front, mode);
      } else {
        assert IntervalsOf(events, mode) == IntervalsOf(front, mode);
      }
    }
  }

  // ------------------------------------------------------- mutable state

  /** explorationState: two counters behind a mutex. */
  class ExplorationState {
    var counts: Counts

    constructor ()
      ensures counts == Counts(0, 0)
    {
      counts := Counts(0, 0);
    }

    method ExplorationDue(mode: Mode, interval: int) returns (due: bool)
      modifies this
      ensures counts == Apply(old(counts), Decide(mode, interval))
      ensures due == Due(old(CountOf(counts, mode)), interval)
    {
      var count := CountOf(counts, mode) + 1;
      due := !(count < interval);
      if due { count := 0; }
      counts := if mode == Streaming then counts.(streaming := count) else counts.(nonStreaming := count);
    }
  }

  const POLICY_DETERMINISTIC := "deterministic"
  const POLICY_LATENCY := "latency"
  const POLICY_COST := "cost"
  const POLICY_COST_LATENCY := "cost_latency"

  datatype Config = Config(policy: string, minSamples: int, sampleMaxAge: int, interval: int, percent: Option<U64>)

  datatype LatencyParams = LatencyParams(minSamples: int, sampleMaxAge: int, interval: int)

  predicate Positive(p: LatencyParams) { p.minSamples > 0 && p.sampleMaxAge > 0 && p.interval > 0 }

  datatype Policy =
    | Deterministic
    | Cost
    | Latency(params: LatencyParams, exploration: ExplorationState)
    | CostLatency(params: LatencyParams, exploration: ExplorationState, percent: U64)

  function ParamsOf(c: Config): LatencyParams { LatencyParams(c.minSamples, c.sampleMaxAge, c.interval) }

  /** newRoutingPolicy succeeds. */
  predicate Buildable(c: Config)
  {
    || c.policy == "" || c.policy == POLICY_DETERMINISTIC || c.policy == POLICY_COST
    || (c.policy == POLICY_LATENCY && Positive(ParamsOf(c)))
    || (c.policy == POLICY_COST_LATENCY && c.percent.Some? && Positive(ParamsOf(c)))
  }

  /** The policy a configuration asks for, exploring on the given state. */
  ghost function PolicyFor(c: Config, exploration: ExplorationState): (r: Policy)
    requires Buildable(c)
    ensures (r.Deterministic? <==> c.policy in {"", "deterministic"}) && (r.Cost? <==> c.policy == "cost")
    ensures (r.Latency? <==> c.policy == "latency") && (r.CostLatency? <==> c.policy == "cost_latency")
    ensures r.Latency? || r.CostLatency? ==> r.params == ParamsOf(c) && r.exploration == exploration
    ensures r.CostLatency? ==> Some(r.percent) == c.percent
  {
    if c.policy == POLICY_COST then Cost
    else if c.policy == POLICY_LATENCY then Latency(ParamsOf(c), exploration)
    else if c.policy == POLICY_COST_LATENCY then CostLatency(ParamsOf(c), exploration, c.percent.value)
    else Deterministic
  }

  /** newRoutingPolicy: a latency-aware policy starts with a state of its own. */
  method NewRoutingPolicy(c: Config) returns (policy: Option<Policy>, rank: bool)
    ensures policy.Some? <==> Buildable(c)
    ensures policy.Some? ==> exists own :: policy.value == PolicyFor(c, own)
    ensures policy.Some? ==> rank == !policy.value.Deterministic?
  {
    var own := new ExplorationState();
    if c.policy == "" || c.policy == POLICY_DETERMINISTIC {
      policy, rank := Some(Deterministic), false;
      assert policy.value == PolicyFor(c, own);
    } else if c.policy == POLICY_COST {
      policy, rank := Some(Cost), true;
      assert policy.value == PolicyFor(c, own);
    } else if c.policy == POLICY_LATENCY {
      if !Positive(ParamsOf(c)) { return None, true; }
      policy, rank := Some(Latency(ParamsOf(c), own)), true;
      assert policy.value == PolicyFor(c, own);
    } else if c.policy == POLICY_COST_LATENCY {
      if c.percent.None? || !Positive(ParamsOf(c)) { return None, false; }
      policy, rank := Some(CostLatency(ParamsOf(c), own, c.percent.value)), true;
      assert policy.value == PolicyFor(c, own);
    } else {
      policy, rank := None, false;
    }
  }

  const DEFAULT_MIN_SAMPLES := 5
  const DEFAULT_SAMPLE_MAX_AGE := 300_000_000_000
  const DEFAULT_INTERVAL := 10

  /** What newRuntimeRouting makes of a startup configuration. */
  function Normalised(c: Config): (r: Config)
    ensures c.minSamples >= 0 && c.sampleMaxAge >= 0 && c.interval >= 0 ==> Positive(ParamsOf(r))
    ensures Buildable(c) ==> Buildable(r) && r.policy != ""
    ensures c.policy in {"", r.policy} && c.minSamples in {0, r.minSamples} && c.sampleMaxAge in {0, r.sampleMaxAge}
            && c.interval in {0, r.interval} && c.percent == r.percent
  {
    Config(if c.policy == "" then POLICY_DETERMINISTIC else c.policy,
           if c.minSamples == 0 then DEFAULT_MIN_SAMPLES else c.minSamples,
           if c.sampleMaxAge == 0 then DEFAULT_SAMPLE_MAX_AGE else c.sampleMaxAge,
           if c.interval == 0 then DEFAULT_INTERVAL else c.interval, c.percent)
  }

  /** A service built on defaults can be switched to any policy at run time: latency
      whenever the settings are in range, cost-latency when they also name a percentage. */
  lemma DefaultsAllowEveryPolicy(c: Config, s: Settings)
    requires c.minSamples >= 0 && c.sampleMaxAge >= 0 && SettingsInRange(s)
    ensures Buildable(Updated(Normalised(c), s)) <==> (s.policy == POLICY_COST_LATENCY ==> s.percent.Some?)
  {
  }

  datatype Version = Version(config: Config, policy: Policy, rankEligible: bool)

  datatype Settings = Settings(policy: string, interval: int, percent: Option<U64>)

  predicate SettingsInRange(s: Settings)
  {
    && 1 <= s.interval <= 1_000_000
    && (s.percent.Some? ==> s.percent.value <= 1_000_000)
    && s.policy in {POLICY_DETERMINISTIC, POLICY_LATENCY, POLICY_COST, POLICY_COST_LATENCY}
  }

  function Updated(c: Config, s: Settings): Config { c.(policy := s.policy, interval := s.interval, percent := s.percent) }

  /** runtimeRouting: the published version and the one exploration state that all
      versions share, those still pinned by running requests included. */
  class RuntimeRouting {
    var current: Version
    const exploration: ExplorationState

    /** What the routing went through since its first version. */
    ghost const start: Version
    ghost var events: seq<RoutingEvent>

    /** The current version is the one published last. */
    ghost predicate Tracked()
      reads this
    {
      current == RoutesAfter(start, events).current
    }

    /** What the context of a request holds: the version it is pinned to, if any. */
    ghost predicate Pinned(r: nat, pinned: Option<Version>)
      reads this
    {
      var pins := RoutesAfter(start, events).pinned;
      pinned == if r in pins then Some(pins[r]) else None
    }

    /** The published policy is the one its configuration asks for, on the shared state. */
    ghost predicate Valid()
      reads this
    {
      && Buildable(current.config) && current.policy == PolicyFor(current.config, exploration)
      && current.rankEligible == !current.policy.Deterministic?
    }

    /** newRuntimeRouting: the first version carries the normalised configuration, so a
        later update builds on the default thresholds. */
    constructor (config: Config, policy: Policy, rank: bool)
      requires Buildable(config) && exists own :: policy == PolicyFor(config, own)
      requires rank == !policy.Deterministic?
      ensures Valid() && current.config == Normalised(config) && exploration.counts == Counts(0, 0) && fresh(exploration)
      ensures Tracked() && events == [] && start == current
    {
      var state := new ExplorationState();
      exploration := state;
      var normal := config.(policy := if config.policy == "" then POLICY_DETERMINISTIC else config.policy);
      if normal.minSamples == 0 { normal := normal.(minSamples := DEFAULT_MIN_SAMPLES); }
      if normal.sampleMaxAge == 0 { normal := normal.(sampleMaxAge := DEFAULT_SAMPLE_MAX_AGE); }
      if normal.interval == 0 { normal := normal.(interval := DEFAULT_INTERVAL); }
      var first := Version(normal, match policy
                                   case Latency(params, _) => Latency(params, state)
                                   case CostLatency(params, _, percent) => CostLatency(params, state, percent)
                                   case _ => policy, rank);
      current, start, events := first, first, [];
    }

    /** publish: whatever state the policy was built with, it now explores on the
        shared one, whose counters stay as they are. */
    method Publish(config: Config, policy: Policy, rank: bool)
      requires Buildable(config) && exists own :: policy == PolicyFor(config, own)
      requires rank == !policy.Deterministic?
      modifies this`current, this`events
      ensures Valid() && Tracked() && current.config == config
      ensures events == old(events) + [Published(current)]
    {
      current := Version(config, match policy
                                 case Latency(params, _) => Latency(params, exploration)
                                 case CostLatency(params, _, percent) => CostLatency(params, exploration, percent)
                                 case _ => policy, rank);
      RoutesSnoc(start, events, Published(current));
      events := events + [Published(current)];
    }

    /** ConfigureRouting: accepted exactly when buildable, and published as given, the
        empty policy name included. */
    method ConfigureRouting(config: Config) returns (accepted: bool)
      modifies this`current, this`events
      ensures accepted <==> Buildable(config)
      ensures accepted ==> Valid() && Tracked() && current.config == config && events == old(events) + [Published(current)]
      ensures !accepted ==> current == old(current) && events == old(events)
    {
      var policy, rank := NewRoutingPolicy(config);
      if policy.None? { return false; }
      Publish(config, policy.value, rank);
      accepted := true;
    }

    /** UpdateRoutingSettings: accepted exactly when in range and buildable on the
        startup thresholds; a refused update publishes nothing. */
    method UpdateRoutingSettings(s: Settings) returns (accepted: bool)
      requires Valid() && Tracked()
      modifies this`current, this`events
      ensures Valid() && Tracked()
      ensures accepted <==> SettingsInRange(s) && Buildable(Updated(old(current).config, s))
      ensures accepted ==> current.config
                           == old(current).config.(policy := s.policy, interval := s.interval, percent := s.percent)
      ensures events == old(events) + (if accepted then [Published(current)] else [])
      ensures !accepted ==> current == old(current)
    {
      if !SettingsInRange(s) { return false; }
      var config := Updated(current.config, s);
      var policy, rank := NewRoutingPolicy(config);
      if policy.None? { return false; }
      Publish(config, policy.value, rank);
      accepted := true;
    }

    /** BindRouting: the version a request is pinned to from now on, and sees. */
    method BindRouting(ghost r: nat, pinned: Option<Version>) returns (version: Version)
      requires Tracked() && Pinned(r, pinned)
      modifies this`events
      ensures Tracked() && Pinned(r, Some(version)) && events == old(events) + [Bound(r)]
    {
      RoutesSnoc(start, events, Bound(r));
      events := events + [Bound(r)];
      version := if pinned.Some? then pinned.value else current;
    }
  }

  // --------------------------------------------- versions pinned by requests

  /** What the routing of a service goes through: versions are published, requests bind. */
  datatype RoutingEvent = Published(version: Version) | Bound(request: nat)

  datatype Routes = Routes(current: Version, pinned: map<nat, Version>)

  function RouteStep(s: Routes, e: RoutingEvent): Routes
  {
    match e
    case Published(version) => s.(current := version)
    case Bound(r) => if r in s.pinned then s else s.(pinned := s.pinned[r := s.current])
  }

  function RoutesAfter(start: Version, events: seq<RoutingEvent>): Routes
  {
    if events == [] then Routes(start, map[]) else RouteStep(RoutesAfter(start, events[..|events| - 1]), events[|events| - 1])
  }

  lemma RoutesSnoc(start: Version, events: seq<RoutingEvent>, e: RoutingEvent)
    ensures RoutesAfter(start, events + [e]) == RouteStep(RoutesAfter(start, events), e)
  {
    assert (events + [e])[..|events|] == events;
  }

  /** The version published last, read off the run. */
  function LatestPublished(start: Version, events: seq<RoutingEvent>): Version
  {
    if events == [] then start
    else
      var e := events[|events| - 1];
      if e.Published? then e.version else LatestPublished(start, events[..|events| - 1])
  }

  lemma {:induction false} CurrentIsLatest(start: Version, events: seq<RoutingEvent>)
    ensures RoutesAfter(start, events).current == LatestPublished(start, events)
  {
    if events != [] {
      CurrentIsLatest(start, events[..|events| - 1]);
    }
  }

  lemma {:induction false} PinsStay(start: Version, events: seq<RoutingEvent>, more: seq<RoutingEvent>, r: nat)
    requires r in RoutesAfter(start, events).pinned
    ensures r in RoutesAfter(start, events + more).pinned
    ensures RoutesAfter(start, events + more).pinned[r] == RoutesAfter(start, events).pinned[r]
  {
    if more == [] {
      assert events + more == events;
    } else {
      var n := |more| - 1;
      PinsStay(start, events, more[..n], r);
      assert (events + more)[..|events + more| - 1] == events + more[..n];
    }
  }

  /** A request that binds sees the version published last before, and keeps seeing it
      however many versions are published and requests bound while it runs. */
  lemma BoundRequestKeepsItsVersion(start: Version, events: seq<RoutingEvent>, more: seq<RoutingEvent>, r: nat)
    requires r !in RoutesAfter(start, events).pinned
    ensures r in RoutesAfter(start, events + [Bound(r)] + more).pinned
    ensures RoutesAfter(start, events + [Bound(r)] + more).pinned[r] == LatestPublished(start, events)
  {
    CurrentIsLatest(start, events);
    assert (events + [Bound(r)])[..|events|] == events;
    PinsStay(start, events + [Bound(r)], more, r);
  }
}
