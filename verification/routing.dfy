/** Routing policies (internal/gateway/routing.go) and the provider order of a
    request (internal/gateway/service.go, orderedProviders). */
module Routing {
  import opened Common
  import opened Pricing
  import opened PriceDominance
  import opened Samples
  import opened Exploration

  datatype Snapshot = Snapshot(completions: seq<Sample>, firstContents: seq<Sample>)

  // ------------------------------------------------------ latency rank

  function RelevantLatency(s: Snapshot, mode: Mode): seq<Sample>
  {
    if mode == Streaming then s.firstContents else s.completions
  }

  /** The fresh durations a candidate is ranked by; an unknown provider has none. */
  function FreshDurations(params: LatencyParams, c: Provider, mode: Mode, snapshots: map<string, Snapshot>, now: int): seq<int>
  {
    var snapshot := if c.name in snapshots then snapshots[c.name] else Snapshot([], []);
    Durations(Recent(RelevantLatency(snapshot, mode), now, params.sampleMaxAge))
  }

  /** Fresh durations of every candidate. */
  function AllFresh(params: LatencyParams, cs: seq<Provider>, mode: Mode, snapshots: map<string, Snapshot>, now: int): (r: seq<seq<int>>)
    ensures |r| == |cs|
  {
    seq(|cs|, i requires 0 <= i < |cs| => FreshDurations(params, cs[i], mode, snapshots, now))
  }

  ghost predicate Warm(params: LatencyParams, f: seq<seq<int>>)
  {
    forall i :: 0 <= i < |f| ==> |f[i]| >= params.minSamples
  }

  /** c is the first candidate with the fewest fresh samples, and it lacks some. */
  ghost predicate Coldest(params: LatencyParams, f: seq<seq<int>>, c: nat)
  {
    && c < |f| && |f[c]| < params.minSamples
    && (forall i :: 0 <= i < |f| ==> |f[c]| <= |f[i]|)
    && (forall i :: 0 <= i < c ==> |f[c]| < |f[i]|)
  }

  ghost predicate IsMedianOf(params: LatencyParams, samples: seq<int>, median: int)
    requires params.minSamples > 0
  {
    |samples| >= params.minSamples ==> median == MedianDuration(samples)
  }

  /** candidateMedians: a median for every candidate with enough fresh samples, and
      the candidate to explore when one lacks them. */
  method CandidateMedians(params: LatencyParams, f: seq<seq<int>>) returns (medians: seq<int>, cold: Option<nat>)
    requires params.minSamples > 0
    ensures |medians| == |f|
    ensures cold.None? <==> Warm(params, f)
    ensures cold.Some? ==> Coldest(params, f, cold.value)
    ensures forall i :: 0 <= i < |f| ==> IsMedianOf(params, f[i], medians[i])
  {
    medians := [];
    cold := None;
    var largestDeficit := 0;
    var i := 0;
    while i < |f|
      invariant 0 <= i <= |f| && |medians| == i && largestDeficit >= 0
      invariant forall k :: 0 <= k < i ==> IsMedianOf(params, f[k], medians[k])
      invariant forall k :: 0 <= k < i ==> params.minSamples - |f[k]| <= largestDeficit
      invariant cold.None? <==> largestDeficit == 0
      invariant cold.Some? ==> cold.value < i && params.minSamples - |f[cold.value]| == largestDeficit
      invariant cold.Some? ==> forall k :: 0 <= k < cold.value ==> params.minSamples - |f[k]| < largestDeficit
    {
      if |f[i]| < params.minSamples {
        var deficit := params.minSamples - |f[i]|;
        if deficit > largestDeficit {
          largestDeficit := deficit;
          cold := Some(i);
        }
        medians := medians + [0];
      } else {
        medians := medians + [MedianDuration(f[i])];
      }
      i := i + 1;
    }
  }

  /** Position k moved to the front, the others kept in order. */
  function MovedToFront<T>(s: seq<T>, k: nat): seq<T>
    requires k < |s|
  {
    [s[k]] + s[..k] + s[k + 1..]
  }

  lemma MovedToFrontPermutes<T>(s: seq<T>, k: nat)
    requires k < |s|
    ensures multiset(MovedToFront(s, k)) == multiset(s)
  {
    assert s == s[..k] + [s[k]] + s[k + 1..];
  }

  /** moveProviderToFront, in place. */
  method MoveProviderToFront(providers: array<Provider>, selected: nat)
    requires selected < providers.Length
    modifies providers
    ensures providers[..] == MovedToFront(old(providers[..]), selected)
  {
    var provider := providers[selected];
    forall i | 1 <= i <= selected {
      providers[i] := providers[i - 1];
    }
    providers[0] := provider;
  }

  method Front(ordered: seq<Provider>, selected: nat) returns (r: seq<Provider>)
    requires selected < |ordered|
    ensures r == MovedToFront(ordered, selected)
  {
    var a := new Provider[|ordered|](i requires 0 <= i < |ordered| => ordered[i]);
    assert a[..] == ordered;
    MoveProviderToFront(a, selected);
    r := a[..];
  }

  /** What both latency-aware policies do while some candidate lacks samples: the
      coldest one comes first when exploration is due, and nothing moves otherwise. */
  ghost predicate ColdOrder(cs: seq<Provider>, params: LatencyParams, f: seq<seq<int>>, due: bool, ordered: seq<Provider>)
    requires |f| == |cs|
  {
    if due then exists c :: Coldest(params, f, c) && ordered == MovedToFront(cs, c) else ordered == cs
  }

  const SWITCH_MARGIN_DIVISOR: int := 10

  /** best is the first candidate with the smallest median. */
  ghost predicate Fastest(medians: seq<int>, best: nat)
  {
    && best < |medians|
    && (forall i :: 0 <= i < |medians| ==> medians[best] <= medians[i])
    && (forall i :: 0 <= i < best ==> medians[best] < medians[i])
  }

  /** The fastest candidate replaces the first only when at least ten percent faster. */
  predicate Switches(first: int, best: int)
  {
    best <= first - TruncDiv(first, SWITCH_MARGIN_DIVISOR)
  }

  /** What the margin means for a median that is not negative: the gain is at least a tenth
      of it, rounded down. */
  lemma SwitchMargin(first: nat, best: int)
    ensures Switches(first, best) <==> 10 * (first - best) > first - 10
  {
  }

  ghost predicate WarmLatencyOrder(cs: seq<Provider>, medians: seq<int>, ordered: seq<Provider>)
    requires |medians| == |cs|
  {
    exists best: nat :: Fastest(medians, best)
                        && ordered == if best != 0 && Switches(medians[0], medians[best]) then MovedToFront(cs, best) else cs
  }

  ghost predicate AreMedians(params: LatencyParams, f: seq<seq<int>>, medians: seq<int>)
    requires params.minSamples > 0
  {
    |medians| == |f| && forall i :: 0 <= i < |f| ==> IsMedianOf(params, f[i], medians[i])
  }

  /** The scan for the first smallest median. */
  method FindFastest(medians: seq<int>) returns (best: nat)
    requires medians != []
    ensures Fastest(medians, best)
  {
    best := 0;
    var i := 1;
    while i < |medians|
      invariant 1 <= i <= |medians| && best < i
      invariant forall k :: 0 <= k < i ==> medians[best] <= medians[k]
      invariant forall k :: 0 <= k < best ==> medians[best] < medians[k]
    {
      if medians[i] < medians[best] { best := i; }
      i := i + 1;
    }
  }

  /** latencyRoutingPolicy.order, given the fresh durations of every candidate. */
  method LatencyOrder(params: LatencyParams, exploration: ExplorationState, cs: seq<Provider>, mode: Mode, f: seq<seq<int>>)
    returns (ordered: seq<Provider>, ghost medians: seq<int>)
    requires Positive(params) && |f| == |cs|
    modifies exploration
    ensures multiset(ordered) == multiset(cs)
    ensures AreMedians(params, f, medians)
    ensures |cs| < 2 || Warm(params, f) ==> exploration.counts == old(exploration.counts)
    ensures |cs| < 2 ==> ordered == cs
    ensures |cs| >= 2 && Warm(params, f) ==> WarmLatencyOrder(cs, medians, ordered)
    ensures |cs| >= 2 && !Warm(params, f) ==>
              && ColdOrder(cs, params, f, Due(old(CountOf(exploration.counts, mode)), params.interval), ordered)
              && exploration.counts == Apply(old(exploration.counts), Decide(mode, params.interval))
  {
    ordered := cs;
    var ms, cold := CandidateMedians(params, f);
    medians := ms;
    if |cs| < 2 { return; }
    if cold.Some? {
      var due := exploration.ExplorationDue(mode, params.interval);
      if due {
        MovedToFrontPermutes(cs, cold.value);
        ordered := Front(cs, cold.value);
      }
      return;
    }
    var best := FindFastest(ms);
    if best == 0 || ms[best] > ms[0] - TruncDiv(ms[0], SWITCH_MARGIN_DIVISOR) { return; }
    MovedToFrontPermutes(cs, best);
    ordered := Front(cs, best);
  }

  // --------------------------------------------------- latency tolerance

  /** bits.Mul64: the 128-bit product as two 64-bit words. */
  function WideProduct(a: U64, b: U64): (r: (U64, U64))
    ensures r.0 * TWO_64 + r.1 == a * b
  {
    ProductWords(a, b);
    (a * b / TWO_64, a * b % TWO_64)
  }

  lemma ProductWords(a: U64, b: U64)
    ensures 0 <= a * b / TWO_64 <= MAX_U64
  {
    MulMonotone(a, b, MAX_U64);
    MulMonotone(MAX_U64, a, MAX_U64);
    assert a * b <= MAX_U64 * MAX_U64 by { assert a * MAX_U64 == MAX_U64 * a; }
  }

  /** Comparing hi/lo words is comparing the numbers they stand for. */
  lemma WordsCompare(a: (U64, U64), b: (U64, U64))
    ensures a.0 < b.0 || (a.0 == b.0 && a.1 <= b.1) <==> a.0 * TWO_64 + a.1 <= b.0 * TWO_64 + b.1
  {
  }

  /** withinLatencyTolerance: computed in 64-bit words, it decides the comparison
      over unbounded integers. */
  function WithinLatencyTolerance(candidate: I64, fastest: I64, percent: U64): (r: bool)
    ensures r <==> candidate <= fastest || (fastest > 0 && 100 * (candidate - fastest) <= percent * fastest)
  {
    if candidate <= fastest then true
    else if fastest <= 0 then false
    else
      var difference := WideProduct(candidate - fastest, 100);
      var limit := WideProduct(fastest, percent);
      WordsCompare(difference, limit);
      difference.0 < limit.0 || (difference.0 == limit.0 && difference.1 <= limit.1)
  }

  /** The candidates whose flag is as wanted, in configured order. */
  function Chosen<T>(cs: seq<T>, flags: seq<bool>, want: bool): seq<T>
    requires |flags| == |cs|
  {
    if cs == [] then []
    else
      var last := |cs| - 1;
      Chosen(cs[..last], flags[..last], want) + (if flags[last] == want then [cs[last]] else [])
  }

  lemma {:induction false} ChosenPartition<T>(cs: seq<T>, flags: seq<bool>)
    requires |flags| == |cs|
    ensures multiset(Chosen(cs, flags, true)) + multiset(Chosen(cs, flags, false)) == multiset(cs)
  {
    if cs != [] {
      var last := |cs| - 1;
      ChosenPartition(cs[..last], flags[..last]);
      assert cs == cs[..last] + [cs[last]];
    }
  }

  lemma {:induction false} ChosenHas<T>(cs: seq<T>, flags: seq<bool>, want: bool, i: nat)
    requires |flags| == |cs| && i < |cs| && flags[i] == want
    ensures cs[i] in Chosen(cs, flags, want)
  {
    var last := |cs| - 1;
    if i < last {
      ChosenHas(cs[..last], flags[..last], want, i);
    }
  }

  ghost predicate InRange(f: seq<seq<int>>)
  {
    forall i, j :: 0 <= i < |f| && 0 <= j < |f[i]| ==> -TWO_63 <= f[i][j] < TWO_63
  }

  lemma MedianInRange(samples: seq<int>)
    requires samples != [] && forall j :: 0 <= j < |samples| ==> -TWO_63 <= samples[j] < TWO_63
    ensures -TWO_63 <= MedianDuration(samples) < TWO_63
  {
    var values := SortedCopy(samples);
    assert values[|values| / 2] in multiset(samples);
  }

  /** Which candidates are fast enough, decided over unbounded integers. */
  ghost predicate FastEnough(medians: seq<int>, percent: U64, flags: seq<bool>)
  {
    && |flags| == |medians|
    && exists best: nat ::
         && Fastest(medians, best)
         && forall i :: 0 <= i < |medians| ==>
              (flags[i] <==> medians[i] <= medians[best]
                             || (medians[best] > 0 && 100 * (medians[i] - medians[best]) <= percent * medians[best]))
  }

  /** The fast-enough block ordered by price dominance, then the rest as configured. */
  ghost predicate WarmCostOrder(cs: seq<Provider>, flags: seq<bool>, prices: map<string, Rates>,
                                order: seq<nat>, ordered: seq<Provider>)
    requires |flags| == |cs|
  {
    var acceptable := Chosen(cs, flags, true);
    && IsOrder(|acceptable|, order)
    && ordered == Arrange(acceptable, order) + Chosen(cs, flags, false)
    && LinearExtension(RatesOf(acceptable, prices), order)
    && (forall q :: LinearExtension(RatesOf(acceptable, prices), q) ==> LexAtMost(order, q))
  }

  /** The partition loop of costLatencyRoutingPolicy.order. */
  method Partition(cs: seq<Provider>, medians: seq<int>, fastest: I64, percent: U64)
    returns (acceptable: seq<Provider>, outside: seq<Provider>, ghost flags: seq<bool>)
    requires |medians| == |cs| && forall i :: 0 <= i < |medians| ==> -TWO_63 <= medians[i] < TWO_63
    ensures |flags| == |cs| && acceptable == Chosen(cs, flags, true) && outside == Chosen(cs, flags, false)
    ensures forall i :: 0 <= i < |cs| ==>
              (flags[i] <==> medians[i] <= fastest || (fastest > 0 && 100 * (medians[i] - fastest) <= percent * fastest))
  {
    acceptable, outside, flags := [], [], [];
    var i := 0;
    while i < |cs|
      invariant 0 <= i <= |cs| && |flags| == i
      invariant acceptable == Chosen(cs[..i], flags, true) && outside == Chosen(cs[..i], flags, false)
      invariant forall k :: 0 <= k < i ==>
                  (flags[k] <==> medians[k] <= fastest || (fastest > 0 && 100 * (medians[k] - fastest) <= percent * fastest))
    {
      var within := WithinLatencyTolerance(medians[i], fastest, percent);
      if within {
        acceptable := acceptable + [cs[i]];
      } else {
        outside := outside + [cs[i]];
      }
      assert cs[..i + 1][..i] == cs[..i] && (flags + [within])[..i] == flags;
      flags := flags + [within];
      i := i + 1;
    }
    assert cs[..i] == cs;
  }

  /** costLatencyRoutingPolicy.order, given the fresh durations of every candidate. */
  method CostLatencyOrder(params: LatencyParams, exploration: ExplorationState, percent: U64, cs: seq<Provider>, mode: Mode,
                          f: seq<seq<int>>, prices: map<string, Rates>)
    returns (ordered: seq<Provider>, ghost medians: seq<int>, ghost flags: seq<bool>, ghost order: seq<nat>)
    requires Positive(params) && |f| == |cs| && InRange(f)
    modifies exploration
    ensures multiset(ordered) == multiset(cs)
    ensures AreMedians(params, f, medians)
    ensures |cs| < 2 || Warm(params, f) ==> exploration.counts == old(exploration.counts)
    ensures |cs| < 2 ==> ordered == cs
    ensures |cs| >= 2 && Warm(params, f) ==>
              FastEnough(medians, percent, flags) && WarmCostOrder(cs, flags, prices, order, ordered)
    ensures |cs| >= 2 && !Warm(params, f) ==>
              && ColdOrder(cs, params, f, Due(old(CountOf(exploration.counts, mode)), params.interval), ordered)
              && exploration.counts == Apply(old(exploration.counts), Decide(mode, params.interval))
  {
    ordered, flags, order := cs, [], [];
    var ms, cold := CandidateMedians(params, f);
    medians := ms;
    if |cs| < 2 { return; }
    if cold.Some? {
      var due := exploration.ExplorationDue(mode, params.interval);
      if due {
        MovedToFrontPermutes(cs, cold.value);
        ordered := Front(cs, cold.value);
      }
      return;
    }
    var best := FindFastest(ms);
    forall i | 0 <= i < |ms|
      ensures -TWO_63 <= ms[i] < TWO_63
    {
      MedianInRange(f[i]);
    }
    var acceptable, outside;
    acceptable, outside, flags := Partition(cs, ms, ms[best], percent);
    ChosenPartition(cs, flags);
    ordered, order := OrderByPriceDominance(acceptable, prices);
    ordered := ordered + outside;
  }

  /** What a ranked request finds first: the fast-enough block is not empty, and no
      fast-enough provider is cheaper than the one tried first. */
  lemma FirstChoiceIsUndominated(cs: seq<Provider>, medians: seq<int>, percent: U64, flags: seq<bool>,
                                 prices: map<string, Rates>, order: seq<nat>, ordered: seq<Provider>)
    requires cs != [] && |medians| == |cs| && FastEnough(medians, percent, flags)
    requires WarmCostOrder(cs, flags, prices, order, ordered)
    ensures Chosen(cs, flags, true) != []
    ensures order != [] && ordered[0] == Chosen(cs, flags, true)[order[0]]
    ensures forall j :: 0 <= j < |Chosen(cs, flags, true)| ==>
              !Dominates(RatesOf(Chosen(cs, flags, true), prices), j, order[0])
  {
    var acceptable := Chosen(cs, flags, true);
    var rates := RatesOf(acceptable, prices);
    var best: nat :| Fastest(medians, best)
                     && forall i :: 0 <= i < |medians| ==>
                          (flags[i] <==> medians[i] <= medians[best]
                                         || (medians[best] > 0 && 100 * (medians[i] - medians[best]) <= percent * medians[best]));
    ChosenHas(cs, flags, true, best);
    assert ordered[0] == Arrange(acceptable, order)[0];
    forall j: nat | j < |acceptable|
      ensures !Dominates(rates, j, order[0])
    {
      assert j in order;
      var k :| 0 <= k < |order| && order[k] == j;
    }
  }

  // ------------------------------------------------- the request's order

  /** Where a policy's ranking reads from. */
  datatype Inputs = Inputs(snapshots: map<string, Snapshot>, prices: map<string, Rates>, now: int)

  lemma FreshInRange(params: LatencyParams, cs: seq<Provider>, mode: Mode, inputs: Inputs)
    ensures InRange(AllFresh(params, cs, mode, inputs.snapshots, inputs.now))
  {
  }

  ghost predicate CheapestFirst(cs: seq<Provider>, prices: map<string, Rates>, ordered: seq<Provider>)
  {
    exists order ::
      && IsOrder(|cs|, order) && ordered == Arrange(cs, order) && LinearExtension(RatesOf(cs, prices), order)
      && forall q :: LinearExtension(RatesOf(cs, prices), q) ==> LexAtMost(order, q)
  }

  ghost predicate FastestFirst(params: LatencyParams, cs: seq<Provider>, f: seq<seq<int>>, count: nat, ordered: seq<Provider>)
    requires Positive(params) && |f| == |cs|
  {
    if |cs| < 2 then ordered == cs
    else if Warm(params, f) then exists medians :: AreMedians(params, f, medians) && WarmLatencyOrder(cs, medians, ordered)
    else ColdOrder(cs, params, f, Due(count, params.interval), ordered)
  }

  ghost predicate FastEnoughFirst(params: LatencyParams, percent: U64, cs: seq<Provider>, f: seq<seq<int>>,
                                  prices: map<string, Rates>, count: nat, ordered: seq<Provider>)
    requires Positive(params) && |f| == |cs|
  {
    if |cs| < 2 then ordered == cs
    else if Warm(params, f) then
      exists medians, flags, order ::
        AreMedians(params, f, medians) && FastEnough(medians, percent, flags) && WarmCostOrder(cs, flags, prices, order, ordered)
    else ColdOrder(cs, params, f, Due(count, params.interval), ordered)
  }

  predicate Usable(policy: Policy) { policy.Latency? || policy.CostLatency? ==> Positive(policy.params) }

  function ExplorationOf(policy: Policy): set<ExplorationState>
  {
    if policy.Latency? || policy.CostLatency? then {policy.exploration} else {}
  }

  function CounterOf(policy: Policy, mode: Mode): nat
    reads ExplorationOf(policy)
  {
    if policy.Latency? || policy.CostLatency? then CountOf(policy.exploration.counts, mode) else 0
  }

  /** The order a policy promises, given its exploration counter before the decision. */
  ghost predicate Ranked(policy: Policy, cs: seq<Provider>, mode: Mode, inputs: Inputs, count: nat, ordered: seq<Provider>)
    requires Usable(policy)
  {
    match policy
    case Deterministic => ordered == cs
    case Cost => CheapestFirst(cs, inputs.prices, ordered)
    case Latency(params, _) =>
      FastestFirst(params, cs, AllFresh(params, cs, mode, inputs.snapshots, inputs.now), count, ordered)
    case CostLatency(params, _, percent) =>
      FastEnoughFirst(params, percent, cs, AllFresh(params, cs, mode, inputs.snapshots, inputs.now), inputs.prices, count, ordered)
  }

  /** Whether a ranking is an exploration decision: a latency-aware policy with a choice
      to make and some candidate still cold. */
  ghost predicate Decides(policy: Policy, cs: seq<Provider>, mode: Mode, inputs: Inputs)
  {
    && (policy.Latency? || policy.CostLatency?) && |cs| >= 2
    && !Warm(policy.params, AllFresh(policy.params, cs, mode, inputs.snapshots, inputs.now))
  }

  /** What a ranking does to the exploration counters. */
  ghost function CountsAfterRanking(counts: Counts, policy: Policy, cs: seq<Provider>, mode: Mode, inputs: Inputs): Counts
  {
    if Decides(policy, cs, mode, inputs) then Apply(counts, Decide(mode, policy.params.interval)) else counts
  }

  /** routingPolicy.order of any policy: the candidates rearranged, as that policy ranks,
      and the shared counters advanced by an exploration decision and by nothing else. */
  method PolicyOrder(policy: Policy, cs: seq<Provider>, mode: Mode, inputs: Inputs) returns (ordered: seq<Provider>)
    requires Usable(policy)
    modifies ExplorationOf(policy)
    ensures multiset(ordered) == multiset(cs)
    ensures Ranked(policy, cs, mode, inputs, old(CounterOf(policy, mode)), ordered)
    ensures forall e :: e in ExplorationOf(policy) ==> e.counts == CountsAfterRanking(old(e.counts), policy, cs, mode, inputs)
  {
    match policy {
      case Deterministic => ordered := cs;
      case Cost =>
        var ranked, order := OrderByPriceDominance(cs, inputs.prices);
        ordered := ranked;
      case Latency(params, exploration) =>
        var f := AllFresh(params, cs, mode, inputs.snapshots, inputs.now);
        var ranked, medians := LatencyOrder(params, exploration, cs, mode, f);
        ordered := ranked;
      case CostLatency(params, exploration, percent) =>
        FreshInRange(params, cs, mode, inputs);
        var f := AllFresh(params, cs, mode, inputs.snapshots, inputs.now);
        var ranked, medians, flags, order := CostLatencyOrder(params, exploration, percent, cs, mode, f, inputs.prices);
        ordered := ranked;
    }
  }

  /** What a request's order is: the configured one without ranking; with it, the
      eligible providers as the policy ranks them, then the ineligible ones. */
  ghost predicate OrderedAs(providers: seq<Provider>, ranks: bool, policy: Policy, eligible: seq<bool>, mode: Mode, inputs: Inputs,
                            count: nat, ordered: seq<Provider>)
    requires |eligible| == |providers| && Usable(policy)
  {
    if !ranks then ordered == providers
    else
      var good := Chosen(providers, eligible, true);
      && |good| <= |ordered|
      && Ranked(policy, good, mode, inputs, count, ordered[..|good|])
      && multiset(ordered[..|good|]) == multiset(good)
      && ordered[|good|..] == Chosen(providers, eligible, false)
  }

  /** orderedProviders. Every request walks a permutation of the configured providers.
      A ranking policy puts the eligible ones first; without fallback, or under the
      deterministic policy, the configured order is kept as it is. The exploration
      counters change by a ranking of the eligible providers only. */
  method OrderedProviders(providers: seq<Provider>, fallback: bool, rankEligible: bool, policy: Policy,
                          eligible: seq<bool>, mode: Mode, inputs: Inputs)
    returns (ordered: seq<Provider>)
    requires |eligible| == |providers| && Usable(policy)
    modifies ExplorationOf(policy)
    ensures multiset(ordered) == multiset(providers)
    ensures OrderedAs(providers, fallback && rankEligible, policy, eligible, mode, inputs, old(CounterOf(policy, mode)), ordered)
    ensures forall e :: e in ExplorationOf(policy) ==>
              e.counts == if fallback && rankEligible
                          then CountsAfterRanking(old(e.counts), policy, Chosen(providers, eligible, true), mode, inputs)
                          else old(e.counts)
  {
    if !fallback || !rankEligible { return providers; }
    var good, bad := SplitEligible(providers, eligible);
    var ranked := PolicyOrder(policy, good, mode, inputs);
    ordered := ranked + bad;
    RankedThenBad(providers, eligible, ranked);
  }

  /** The loop of orderedProviders over the configured providers. */
  method SplitEligible(providers: seq<Provider>, eligible: seq<bool>) returns (good: seq<Provider>, bad: seq<Provider>)
    requires |eligible| == |providers|
    ensures good == Chosen(providers, eligible, true) && bad == Chosen(providers, eligible, false)
  {
    good, bad := [], [];
    var i := 0;
    while i < |providers|
      invariant 0 <= i <= |providers|
      invariant good == Chosen(providers[..i], eligible[..i], true)
      invariant bad == Chosen(providers[..i], eligible[..i], false)
    {
      assert providers[..i + 1][..i] == providers[..i] && eligible[..i + 1][..i] == eligible[..i];
      if !eligible[i] {
        bad := bad + [providers[i]];
      } else {
        good := good + [providers[i]];
      }
      i := i + 1;
    }
    assert providers[..i] == providers && eligible[..i] == eligible;
  }

  lemma RankedThenBad(providers: seq<Provider>, eligible: seq<bool>, ranked: seq<Provider>)
    requires |eligible| == |providers| && multiset(ranked) == multiset(Chosen(providers, eligible, true))
    ensures var good, bad := Chosen(providers, eligible, true), Chosen(providers, eligible, false);
            && |ranked| == |good| && multiset(ranked + bad) == multiset(providers)
            && (ranked + bad)[..|good|] == ranked && (ranked + bad)[|good|..] == bad
  {
    ChosenPartition(providers, eligible);
    assert |ranked| == |multiset(ranked)|;
    assert |Chosen(providers, eligible, true)| == |multiset(Chosen(providers, eligible, true))|;
  }

  // ------------------------------------------------------ ineligible last

  /** No eligible provider stands behind an ineligible one. */
  ghost predicate IneligibleLast(ordered: seq<Provider>, good: set<string>)
  {
    forall i, j :: 0 <= i < j < |ordered| && ordered[j].name in good ==> ordered[i].name in good
  }

  /** The answers to eligibility, as the names that got a yes. */
  ghost predicate Answers(providers: seq<Provider>, eligible: seq<bool>, good: set<string>)
    requires |eligible| == |providers|
  {
    forall i :: 0 <= i < |providers| ==> (eligible[i] <==> providers[i].name in good)
  }

  lemma {:induction false} ChosenAreSo(providers: seq<Provider>, eligible: seq<bool>, good: set<string>, want: bool)
    requires |eligible| == |providers| && Answers(providers, eligible, good)
    ensures forall p :: p in Chosen(providers, eligible, want) ==> (p.name in good <==> want)
  {
    if providers != [] {
      var n := |providers| - 1;
      assert Answers(providers[..n], eligible[..n], good);
      ChosenAreSo(providers[..n], eligible[..n], good, want);
    }
  }

  lemma SplitIsLast(ordered: seq<Provider>, k: nat, good: set<string>)
    requires k <= |ordered| && (forall p :: p in ordered[..k] ==> p.name in good)
    requires forall p :: p in ordered[k..] ==> p.name !in good
    ensures IneligibleLast(ordered, good)
  {
    forall j | k <= j < |ordered|
      ensures ordered[j].name !in good
    {
      assert ordered[j] == ordered[k..][j - k];
    }
    forall i | 0 <= i < k
      ensures ordered[i].name in good
    {
      assert ordered[i] == ordered[..k][i];
    }
  }

  /** Ineligible providers come last exactly under a ranking policy with fallback, or
      when the configured order happens to have them last. */
  lemma IneligibleLastExactly(providers: seq<Provider>, ranks: bool, policy: Policy, eligible: seq<bool>, mode: Mode,
                              inputs: Inputs, count: nat, ordered: seq<Provider>, good: set<string>)
    requires |eligible| == |providers| && Usable(policy) && Answers(providers, eligible, good)
    requires OrderedAs(providers, ranks, policy, eligible, mode, inputs, count, ordered)
    ensures IneligibleLast(ordered, good) <==> ranks || IneligibleLast(providers, good)
  {
    if ranks {
      var first := Chosen(providers, eligible, true);
      ChosenAreSo(providers, eligible, good, true);
      ChosenAreSo(providers, eligible, good, false);
      forall p | p in ordered[..|first|]
        ensures p.name in good
      {
        assert p in multiset(ordered[..|first|]);
      }
      SplitIsLast(ordered, |first|, good);
    }
  }

  /** Two providers, the first ineligible: the deterministic policy walks them in the
      configured order, the ineligible one first. */
  lemma DeterministicKeepsIneligibleFirst(mode: Mode, inputs: Inputs, count: nat, ordered: seq<Provider>)
    requires OrderedAs([Provider("down", true), Provider("up", true)], false, Deterministic, [false, true], mode, inputs, count, ordered)
    ensures Answers([Provider("down", true), Provider("up", true)], [false, true], {"up"})
    ensures !IneligibleLast(ordered, {"up"})
  {
    assert ordered[0].name == "down" && ordered[1].name == "up";
  }

  // ---------------------------------------------- exploration over requests

  /** What one request brings to its ranking: its pinned policy, the eligible providers,
      its mode, and what the policy reads. */
  datatype Turn = Turn(policy: Policy, cs: seq<Provider>, mode: Mode, inputs: Inputs)

  /** A history of rankings on one shared exploration state: each finds the counters the
      one before left, and orders as its policy does with them. */
  ghost predicate TurnsTaken(turns: seq<Turn>, counts: seq<Counts>, orders: seq<seq<Provider>>)
  {
    && |counts| == |turns| + 1 && |orders| == |turns| && counts[0] == Counts(0, 0)
    && forall i :: 0 <= i < |turns| ==> TurnTaken(turns[i], counts[i], counts[i + 1], orders[i])
  }

  /** One ranking, as PolicyOrder performs it. */
  ghost predicate TurnTaken(t: Turn, before: Counts, after: Counts, ordered: seq<Provider>)
  {
    && Usable(t.policy) && after == CountsAfterRanking(before, t.policy, t.cs, t.mode, t.inputs)
    && Ranked(t.policy, t.cs, t.mode, t.inputs, CountOf(before, t.mode), ordered)
  }

  /** The events of the exploration state that a history of rankings amounts to. */
  ghost function EventsOf(turns: seq<Turn>): seq<Event>
  {
    if turns == [] then []
    else
      var t := turns[|turns| - 1];
      EventsOf(turns[..|turns| - 1]) + [EventFor(t)]
  }

  ghost function EventFor(t: Turn): Event
  {
    if Decides(t.policy, t.cs, t.mode, t.inputs) then Decide(t.mode, t.policy.params.interval) else Publish
  }

  lemma TurnApplies(turns: seq<Turn>, counts: seq<Counts>, orders: seq<seq<Provider>>, i: nat) returns (e: Event)
    requires TurnsTaken(turns, counts, orders) && i < |turns|
    ensures counts[i + 1] == Apply(counts[i], e) && EventsOf(turns[..i + 1]) == EventsOf(turns[..i]) + [e]
  {
    e := EventFor(turns[i]);
    assert TurnTaken(turns[i], counts[i], counts[i + 1], orders[i]);
    assert turns[..i + 1][..i] == turns[..i];
  }

  lemma CountsSnoc(events: seq<Event>, e: Event)
    ensures CountsAfter(events + [e]) == Apply(CountsAfter(events), e)
  {
    assert (events + [e])[..|events|] == events;
  }

  lemma {:induction false} CountsAreOfEvents(turns: seq<Turn>, counts: seq<Counts>, orders: seq<seq<Provider>>, i: nat)
    requires TurnsTaken(turns, counts, orders) && i <= |turns|
    ensures counts[i] == CountsAfter(EventsOf(turns[..i]))
  {
    if i > 0 {
      CountsAreOfEvents(turns, counts, orders, i - 1);
      var e := TurnApplies(turns, counts, orders, i - 1);
      CountsSnoc(EventsOf(turns[..i - 1]), e);
    }
  }

  ghost predicate DecidesIn(t: Turn, mode: Mode) { t.mode == mode && Decides(t.policy, t.cs, t.mode, t.inputs) }

  ghost predicate DueAt(turns: seq<Turn>, counts: seq<Counts>, i: nat)
    requires i < |turns| && i < |counts| && Decides(turns[i].policy, turns[i].cs, turns[i].mode, turns[i].inputs)
  {
    Due(CountOf(counts[i], turns[i].mode), turns[i].policy.params.interval)
  }

  ghost function MarkFor(t: Turn, mode: Mode): Option<int>
  {
    if DecidesIn(t, mode) then Some(t.policy.params.interval) else None
  }

  /** A history of rankings as one mode sees it: its decisions, among other happenings. */
  ghost function Marks(turns: seq<Turn>, mode: Mode): (marks: seq<Option<int>>)
    ensures |marks| == |turns| && forall i :: 0 <= i < |turns| ==> marks[i] == MarkFor(turns[i], mode)
  {
    if turns == [] then [] else Marks(turns[..|turns| - 1], mode) + [MarkFor(turns[|turns| - 1], mode)]
  }

  /** How many decisions of a mode came before a turn. */
  ghost function Decided(turns: seq<Turn>, i: nat, mode: Mode): nat
    requires i <= |turns|
  {
    TakenBefore(Marks(turns, mode), i)
  }

  lemma {:induction false} EventsAreMarks(turns: seq<Turn>, mode: Mode)
    ensures IntervalsOf(EventsOf(turns), mode) == Taken(Marks(turns, mode))
  {
    if turns != [] {
      var n := |turns| - 1;
      EventsAreMarks(turns[..n], mode);
      var events, marks := EventsOf(turns), Marks(turns, mode);
      assert events[..|events| - 1] == EventsOf(turns[..n]);
      assert marks[..|marks| - 1] == Marks(turns[..n], mode);
    }
  }

  lemma {:induction false} MarksPrefix(turns: seq<Turn>, i: nat, mode: Mode)
    requires i <= |turns|
    ensures Marks(turns[..i], mode) == Marks(turns, mode)[..i]
  {
  }

  /** A request explores exactly when its decision is due among its mode's decisions. */
  lemma DueIsDueIn(turns: seq<Turn>, counts: seq<Counts>, orders: seq<seq<Provider>>, i: nat, mode: Mode)
    requires TurnsTaken(turns, counts, orders) && i < |turns| && DecidesIn(turns[i], mode)
    ensures Marks(turns, mode)[i] == Some(turns[i].policy.params.interval)
    ensures DueAt(turns, counts, i) <==> DueIn(Marks(turns, mode), i)
  {
    CountsAreOfEvents(turns, counts, orders, i);
    ModesAreIndependent(EventsOf(turns[..i]), mode);
    EventsAreMarks(turns[..i], mode);
    MarksPrefix(turns, i, mode);
  }

  /** The coldest candidate is tried first. */
  ghost predicate ColdestFirst(t: Turn, ordered: seq<Provider>)
    requires t.policy.Latency? || t.policy.CostLatency?
  {
    exists c :: Coldest(t.policy.params, AllFresh(t.policy.params, t.cs, t.mode, t.inputs.snapshots, t.inputs.now), c)
                && ordered == MovedToFront(t.cs, c)
  }

  /** A due decision of a request puts its coldest provider first. */
  lemma DueExplores(turns: seq<Turn>, counts: seq<Counts>, orders: seq<seq<Provider>>, i: nat, mode: Mode)
    requires TurnsTaken(turns, counts, orders) && i < |turns| && DecidesIn(turns[i], mode) && DueAt(turns, counts, i)
    ensures ColdestFirst(turns[i], orders[i])
  {
    assert TurnTaken(turns[i], counts[i], counts[i + 1], orders[i]);
  }

  /** Over any requests, whatever versions they pinned and modes they ran in: among K
      decisions of a mode whose intervals are all at most K, some request tries its
      coldest provider first. */
  lemma RequestsExplore(turns: seq<Turn>, counts: seq<Counts>, orders: seq<seq<Provider>>, from: nat, to: nat, mode: Mode)
    requires TurnsTaken(turns, counts, orders) && from <= to <= |turns| && Decided(turns, from, mode) < Decided(turns, to, mode)
    requires forall i :: from <= i < to && DecidesIn(turns[i], mode) ==>
               turns[i].policy.params.interval <= Decided(turns, to, mode) - Decided(turns, from, mode)
    ensures exists i :: from <= i < to && DecidesIn(turns[i], mode) && ColdestFirst(turns[i], orders[i])
  {
    var i := MarksExplore(Marks(turns, mode), from, to);
    DueIsDueIn(turns, counts, orders, i, mode);
    DueExplores(turns, counts, orders, i, mode);
  }

  /** No request of a mode strictly between two turns was due. */
  ghost predicate NoneDue(turns: seq<Turn>, counts: seq<Counts>, i: nat, j: nat, mode: Mode)
    requires j <= |turns| && |turns| < |counts|
  {
    forall m :: i < m < j && DecidesIn(turns[m], mode) ==> !DueAt(turns, counts, m)
  }

  lemma NoneDueIn(turns: seq<Turn>, counts: seq<Counts>, orders: seq<seq<Provider>>, i: nat, j: nat, mode: Mode)
    requires TurnsTaken(turns, counts, orders) && j <= |turns| && NoneDue(turns, counts, i, j, mode)
    ensures forall m :: i < m < j && Marks(turns, mode)[m].Some? ==> !DueIn(Marks(turns, mode), m)
  {
    forall m | i < m < j && Marks(turns, mode)[m].Some?
      ensures !DueIn(Marks(turns, mode), m)
    {
      DueIsDueIn(turns, counts, orders, m, mode);
    }
  }

  /** Two requests of a mode with no exploration between them: the second explores exactly
      when its interval has passed, in decisions, since the first did. */
  lemma RequestsExploreApart(turns: seq<Turn>, counts: seq<Counts>, orders: seq<seq<Provider>>, i: nat, j: nat, mode: Mode)
    requires TurnsTaken(turns, counts, orders) && i < j < |turns| && DecidesIn(turns[i], mode) && DecidesIn(turns[j], mode)
    requires DueAt(turns, counts, i) && NoneDue(turns, counts, i, j, mode)
    ensures DueAt(turns, counts, j) <==> Decided(turns, j, mode) - Decided(turns, i, mode) >= turns[j].policy.params.interval
  {
    DueIsDueIn(turns, counts, orders, i, mode);
    DueIsDueIn(turns, counts, orders, j, mode);
    NoneDueIn(turns, counts, orders, i, j, mode);
    MarksApart(Marks(turns, mode), i, j);
  }

  /** How many of the first requests explored in a mode. */
  ghost function Explored(turns: seq<Turn>, counts: seq<Counts>, to: nat, mode: Mode): nat
    requires to <= |turns| && |turns| < |counts|
  {
    if to == 0 then 0
    else Explored(turns, counts, to - 1, mode) + (if DecidesIn(turns[to - 1], mode) && DueAt(turns, counts, to - 1) then 1 else 0)
  }

  lemma {:induction false} ExploredIsExplored(turns: seq<Turn>, counts: seq<Counts>, orders: seq<seq<Provider>>, to: nat, mode: Mode)
    requires TurnsTaken(turns, counts, orders) && to <= |turns|
    ensures Explored(turns, counts, to, mode) == ExploredBefore(Marks(turns, mode), to)
  {
    if to > 0 {
      ExploredIsExplored(turns, counts, orders, to - 1, mode);
      if DecidesIn(turns[to - 1], mode) {
        DueIsDueIn(turns, counts, orders, to - 1, mode);
      }
    }
  }

  /** With a constant interval k, n decisions of a mode, over any requests, hold floor(n/k)
      explorations. */
  lemma RequestsKeepCadence(turns: seq<Turn>, counts: seq<Counts>, orders: seq<seq<Provider>>, k: nat, mode: Mode)
    requires TurnsTaken(turns, counts, orders) && k >= 1
    requires forall i :: 0 <= i < |turns| && DecidesIn(turns[i], mode) ==> turns[i].policy.params.interval == k
    ensures var times, n := Explored(turns, counts, |turns|, mode), Decided(turns, |turns|, mode);
            times * k <= n < (times + 1) * k
  {
    ExploredIsExplored(turns, counts, orders, |turns|, mode);
    MarksKeepCadence(Marks(turns, mode), k);
  }
}
