/** The bounded, saturating usage ledger (internal/accounting/tracker.go). */
module Accounting {
  import opened Common
  import opened Pricing

  /** Exact sums over the attempts of one provider model. Nothing saturates here. */
  datatype Totals = Totals(
    attempts: nat, withUsage: nat, withoutUsage: nat, partialUsage: nat,
    input: nat, output: nat, total: nat,
    withCost: nat, withoutCost: nat, cost: nat)

  const NO_TOTALS := Totals(0, 0, 0, 0, 0, 0, 0, 0, 0, 0)

  function Plus(a: Totals, b: Totals): Totals
  {
    Totals(a.attempts + b.attempts, a.withUsage + b.withUsage, a.withoutUsage + b.withoutUsage,
           a.partialUsage + b.partialUsage, a.input + b.input, a.output + b.output, a.total + b.total,
           a.withCost + b.withCost, a.withoutCost + b.withoutCost, a.cost + b.cost)
  }

  /** What the tracker stores for one provider model: 64-bit counters and a flag. */
  datatype Aggregate = Aggregate(
    attempts: U64, withUsage: U64, withoutUsage: U64, partialUsage: U64,
    input: U64, output: U64, total: U64,
    withCost: U64, withoutCost: U64, cost: U64, overflowed: bool)

  /** One call of Record: the key, the usage it was given, the estimate it returned
      and whether the key had room. */
  datatype Entry = Entry(key: Key, usage: Option<Usage>, cost: Option<U64>, accepted: bool)

  function Count(o: Option<U64>): nat { if o.Some? then o.value else 0 }

  predicate Reported(u: Option<Usage>)
  {
    u.Some? && (u.value.input.Some? || u.value.output.Some? || u.value.total.Some?)
  }

  function One(b: bool): nat { if b then 1 else 0 }

  /** What one accepted attempt adds to the exact sums. */
  function Delta(e: Entry): Totals
  {
    Totals(1, One(Reported(e.usage)), One(!Reported(e.usage)), One(Reported(e.usage) && !Consistent(e.usage)),
           if e.usage.Some? then Count(e.usage.value.input) else 0,
           if e.usage.Some? then Count(e.usage.value.output) else 0,
           if e.usage.Some? then Count(e.usage.value.total) else 0,
           One(e.cost.Some?), One(e.cost.None?), Count(e.cost))
  }

  /** The exact sums over the accepted entries of one key. */
  function TotalsOf(log: seq<Entry>, key: Key): Totals
  {
    if log == [] then NO_TOTALS
    else
      var last := log[|log| - 1];
      var before := TotalsOf(log[..|log| - 1], key);
      if last.accepted && last.key == key then Plus(before, Delta(last)) else before
  }

  predicate Overflows(t: Totals)
  {
    || t.attempts > MAX_U64 || t.withUsage > MAX_U64 || t.withoutUsage > MAX_U64 || t.partialUsage > MAX_U64
    || t.input > MAX_U64 || t.output > MAX_U64 || t.total > MAX_U64
    || t.withCost > MAX_U64 || t.withoutCost > MAX_U64 || t.cost > MAX_U64
  }

  function Cap(n: nat): U64 { if n <= MAX_U64 then n else MAX_U64 }

  /** The promised stored form of exact sums: every counter capped, and the flag
      raised exactly when some exact sum does not fit. */
  function Saturated(t: Totals): Aggregate
  {
    Aggregate(Cap(t.attempts), Cap(t.withUsage), Cap(t.withoutUsage), Cap(t.partialUsage),
              Cap(t.input), Cap(t.output), Cap(t.total),
              Cap(t.withCost), Cap(t.withoutCost), Cap(t.cost), Overflows(t))
  }

  /** The number of calls refused for want of room. */
  function Dropped(log: seq<Entry>): nat
  {
    if log == [] then 0 else Dropped(log[..|log| - 1]) + One(!log[|log| - 1].accepted)
  }

  /** The keys that have an accepted entry. */
  function Keys(log: seq<Entry>): set<Key>
  {
    set i | 0 <= i < |log| && log[i].accepted :: log[i].key
  }

  /** saturatingAdd: the new counter, and whether this addition overflowed. */
  function SaturatingAdd(current: U64, value: U64): (r: (U64, bool))
    ensures r.0 == (if current + value <= MAX_U64 then current + value else MAX_U64) && (r.1 <==> current + value > MAX_U64)
  {
    if current > MAX_U64 - value then (MAX_U64, true) else (Add64(current, value), false)
  }

  /** Field by field saturating addition, the flag raised when some field overflows. */
  function AddTo(a: Aggregate, d: Totals): Aggregate
  {
    Aggregate(Cap(a.attempts + d.attempts), Cap(a.withUsage + d.withUsage), Cap(a.withoutUsage + d.withoutUsage),
              Cap(a.partialUsage + d.partialUsage), Cap(a.input + d.input), Cap(a.output + d.output),
              Cap(a.total + d.total), Cap(a.withCost + d.withCost), Cap(a.withoutCost + d.withoutCost),
              Cap(a.cost + d.cost),
              a.overflowed || Overflows(Totals(a.attempts + d.attempts, a.withUsage + d.withUsage,
                                               a.withoutUsage + d.withoutUsage, a.partialUsage + d.partialUsage,
                                               a.input + d.input, a.output + d.output, a.total + d.total,
                                               a.withCost + d.withCost, a.withoutCost + d.withoutCost, a.cost + d.cost)))
  }

  /** Saturation loses nothing that matters: adding to capped sums gives the cap of
      the exact sums, and the flag still tells whether any exact sum overflowed. */
  lemma SaturationIsExact(t: Totals, d: Totals)
    ensures AddTo(Saturated(t), d) == Saturated(Plus(t, d))
  {
  }

  const ATTEMPT := NO_TOTALS.(attempts := 1)

  /** The part of Delta that recordUsage adds. */
  function TokenDelta(u: Option<Usage>): Totals
  {
    if u.None? then NO_TOTALS
    else NO_TOTALS.(input := Count(u.value.input), output := Count(u.value.output), total := Count(u.value.total))
  }

  function AvailabilityDelta(available: bool, complete: bool): Totals
  {
    NO_TOTALS.(withUsage := One(available), withoutUsage := One(!available), partialUsage := One(available && !complete))
  }

  function CostDelta(cost: Option<U64>): Totals
  {
    NO_TOTALS.(withCost := One(cost.Some?), withoutCost := One(cost.None?), cost := Count(cost))
  }

  /** The four updates of Record, in order, amount to one exact attempt. */
  lemma FourUpdates(t: Totals, e: Entry)
    ensures AddTo(AddTo(AddTo(AddTo(Saturated(t), ATTEMPT), TokenDelta(e.usage)),
                        AvailabilityDelta(Reported(e.usage), Consistent(e.usage))), CostDelta(e.cost))
            == Saturated(Plus(t, Delta(e)))
  {
    var a := Plus(t, ATTEMPT);
    var b := Plus(a, TokenDelta(e.usage));
    var c := Plus(b, AvailabilityDelta(Reported(e.usage), Consistent(e.usage)));
    assert AddTo(Saturated(t), ATTEMPT) == Saturated(a) by { SaturationIsExact(t, ATTEMPT); }
    assert AddTo(Saturated(a), TokenDelta(e.usage)) == Saturated(b) by { SaturationIsExact(a, TokenDelta(e.usage)); }
    SaturationIsExact(b, AvailabilityDelta(Reported(e.usage), Consistent(e.usage)));
    SaturationIsExact(c, CostDelta(e.cost));
    assert Plus(c, CostDelta(e.cost)) == Plus(t, Delta(e));
  }

  function AddReported(current: U64, value: Option<U64>): (U64, bool)
  {
    if value.None? then (current, false) else SaturatingAdd(current, value.value)
  }

  /** recordUsage: adds the reported counts; tells whether any was reported and
      whether they are complete and consistent. */
  method RecordUsage(aggregate: Aggregate, usage: Option<Usage>) returns (r: Aggregate, available: bool, complete: bool)
    ensures available == Reported(usage)
    ensures complete == Consistent(usage)
    ensures r == AddTo(aggregate, TokenDelta(usage))
  {
    r := aggregate;
    if usage.None? { return r, false, false; }
    var u := usage.value;
    available := u.input.Some? || u.output.Some? || u.total.Some?;
    if !available { return r, false, false; }
    var (input, over0) := AddReported(r.input, u.input);
    var (output, over1) := AddReported(r.output, u.output);
    var (total, over2) := AddReported(r.total, u.total);
    r := r.(input := input, output := output, total := total, overflowed := r.overflowed || over0 || over1 || over2);
    complete := u.input.Some? && u.output.Some? && u.total.Some?
                && u.input.value <= MAX_U64 - u.output.value
                && u.total.value == Add64(u.input.value, u.output.value);
  }

  method CountAttempt(aggregate: Aggregate) returns (r: Aggregate)
    ensures r == AddTo(aggregate, ATTEMPT)
  {
    var (attempts, over) := SaturatingAdd(aggregate.attempts, 1);
    r := aggregate.(attempts := attempts, overflowed := aggregate.overflowed || over);
  }

  method CountAvailability(aggregate: Aggregate, available: bool, complete: bool) returns (r: Aggregate)
    ensures r == AddTo(aggregate, AvailabilityDelta(available, complete))
  {
    if !available {
      var (n, over) := SaturatingAdd(aggregate.withoutUsage, 1);
      r := aggregate.(withoutUsage := n, overflowed := aggregate.overflowed || over);
    } else {
      var (n, over) := SaturatingAdd(aggregate.withUsage, 1);
      r := aggregate.(withUsage := n, overflowed := aggregate.overflowed || over);
      if !complete {
        var (m, over') := SaturatingAdd(r.partialUsage, 1);
        r := r.(partialUsage := m, overflowed := r.overflowed || over');
      }
    }
  }

  /** The cost counters of Record. */
  method CountCost(aggregate: Aggregate, cost: Option<U64>) returns (r: Aggregate)
    ensures r == AddTo(aggregate, CostDelta(cost))
  {
    if cost.None? {
      var (n, over) := SaturatingAdd(aggregate.withoutCost, 1);
      r := aggregate.(withoutCost := n, overflowed := aggregate.overflowed || over);
      return;
    }
    var (n, over) := SaturatingAdd(aggregate.withCost, 1);
    r := aggregate.(withCost := n, overflowed := aggregate.overflowed || over);
    var (sum, over') := SaturatingAdd(r.cost, cost.value);
    r := r.(cost := sum, overflowed := r.overflowed || over');
  }

  /** The exact per-attempt counts: every accepted attempt has or lacks usage and
      has or lacks an estimate, and no attempt with partial usage has one. */
  lemma {:induction false} AttemptsSplit(log: seq<Entry>, key: Key)
    requires forall i :: 0 <= i < |log| ==> log[i].cost.Some? ==> Consistent(log[i].usage)
    ensures var t := TotalsOf(log, key);
            && t.attempts == t.withUsage + t.withoutUsage
            && t.attempts == t.withCost + t.withoutCost
            && t.withCost + t.partialUsage <= t.withUsage
  {
    if log != [] {
      AttemptsSplit(log[..|log| - 1], key);
    }
  }

  function Sum(log: seq<Entry>, f: Entry -> nat): nat
  {
    if log == [] then 0 else Sum(log[..|log| - 1], f) + f(log[|log| - 1])
  }

  /** The accepted entries of one key. */
  function EntriesOf(log: seq<Entry>, key: Key): seq<Entry> { Filter(log, (e: Entry) => e.accepted && e.key == key) }

  lemma EntriesSnoc(log: seq<Entry>, key: Key)
    requires log != []
    ensures var last := log[|log| - 1];
            EntriesOf(log, key) == EntriesOf(log[..|log| - 1], key) + (if last.accepted && last.key == key then [last] else [])
  {
    var front, last := log[..|log| - 1], log[|log| - 1];
    assert front + [last] == log;
    FilterAppend(front, [last], (e: Entry) => e.accepted && e.key == key);
  }

  /** A field of the totals that grows with every entry is the sum over the entries. */
  lemma {:induction false} FieldIsSum(log: seq<Entry>, key: Key, field: Totals -> nat, f: Entry -> nat)
    requires field(NO_TOTALS) == 0 && forall t, e :: field(Plus(t, Delta(e))) == field(t) + f(e)
    ensures field(TotalsOf(log, key)) == Sum(EntriesOf(log, key), f)
  {
    if log != [] {
      var last := log[|log| - 1];
      var before := EntriesOf(log[..|log| - 1], key);
      FieldIsSum(log[..|log| - 1], key, field, f);
      EntriesSnoc(log, key);
      if last.accepted && last.key == key {
        assert (before + [last])[..|before|] == before;
      } else {
        assert before + [] == before;
      }
    }
  }

  /** The token and money totals of a key are the plain sums of what its accepted calls
      reported and were estimated at. */
  lemma TotalsAreSums(log: seq<Entry>, key: Key)
    ensures var t, mine := TotalsOf(log, key), EntriesOf(log, key);
            && t.attempts == Sum(mine, (e: Entry) => 1)
            && t.input == Sum(mine, (e: Entry) => if e.usage.Some? && e.usage.value.input.Some? then e.usage.value.input.value else 0)
            && t.output == Sum(mine, (e: Entry) => if e.usage.Some? && e.usage.value.output.Some? then e.usage.value.output.value else 0)
            && t.total == Sum(mine, (e: Entry) => if e.usage.Some? && e.usage.value.total.Some? then e.usage.value.total.value else 0)
            && t.cost == Sum(mine, (e: Entry) => if e.cost.Some? then e.cost.value else 0)
            && t.withCost == Sum(mine, (e: Entry) => if e.cost.Some? then 1 else 0)
  {
    FieldIsSum(log, key, (t: Totals) => t.attempts, (e: Entry) => 1);
    FieldIsSum(log, key, (t: Totals) => t.input,
               (e: Entry) => if e.usage.Some? && e.usage.value.input.Some? then e.usage.value.input.value else 0);
    FieldIsSum(log, key, (t: Totals) => t.output,
               (e: Entry) => if e.usage.Some? && e.usage.value.output.Some? then e.usage.value.output.value else 0);
    FieldIsSum(log, key, (t: Totals) => t.total,
               (e: Entry) => if e.usage.Some? && e.usage.value.total.Some? then e.usage.value.total.value else 0);
    FieldIsSum(log, key, (t: Totals) => t.cost, (e: Entry) => if e.cost.Some? then e.cost.value else 0);
    FieldIsSum(log, key, (t: Totals) => t.withCost, (e: Entry) => if e.cost.Some? then 1 else 0);
  }

  /** So are its attempts with usage, with some of it reported, and with partial usage,
      with some of it missing or not adding up. */
  lemma UsageTotalsAreSums(log: seq<Entry>, key: Key)
    ensures var t, mine := TotalsOf(log, key), EntriesOf(log, key);
            && t.withUsage == Sum(mine, (e: Entry) => if e.usage.Some? && e.usage.value != Usage(None, None, None) then 1 else 0)
            && t.partialUsage == Sum(mine, (e: Entry) => if e.usage.Some? && e.usage.value != Usage(None, None, None)
                                                            && !Consistent(e.usage) then 1 else 0)
  {
    FieldIsSum(log, key, (t: Totals) => t.withUsage,
               (e: Entry) => if e.usage.Some? && e.usage.value != Usage(None, None, None) then 1 else 0);
    FieldIsSum(log, key, (t: Totals) => t.partialUsage,
               (e: Entry) => if e.usage.Some? && e.usage.value != Usage(None, None, None) && !Consistent(e.usage) then 1 else 0);
  }

  /** Every call is accounted for: accepted attempts over all keys, plus drops. */
  lemma {:induction false} EveryCallCounted(log: seq<Entry>)
    ensures |log| == |Filter(log, (e: Entry) => e.accepted)| + Dropped(log)
  {
    if log != [] {
      var front := log[..|log| - 1];
      var accepted := (e: Entry) => e.accepted;
      EveryCallCounted(front);
      FilterAppend(front, [log[|log| - 1]], accepted);
      assert front + [log[|log| - 1]] == log;
      assert [log[|log| - 1]][1..] == [];
    }
  }

  lemma SnocTotals(log: seq<Entry>, e: Entry, key: Key)
    ensures TotalsOf(log + [e], key) ==
            if e.accepted && e.key == key then Plus(TotalsOf(log, key), Delta(e)) else TotalsOf(log, key)
    ensures Dropped(log + [e]) == Dropped(log) + One(!e.accepted)
    ensures Keys(log + [e]) == Keys(log) + (if e.accepted then {e.key} else {})
  {
    var longer := log + [e];
    assert longer[..|longer| - 1] == log;
    assert forall k :: k in Keys(log) ==> k in Keys(longer) by {
      forall k | k in Keys(log) ensures k in Keys(longer) {
        var i :| 0 <= i < |log| && log[i].accepted && log[i].key == k;
        assert longer[i] == log[i];
      }
    }
    if e.accepted {
      assert longer[|log|] == e;
    }
  }

  lemma {:induction false} NoEntriesNoTotals(log: seq<Entry>, key: Key)
    requires key !in Keys(log)
    ensures TotalsOf(log, key) == NO_TOTALS
  {
    if log != [] {
      var front := log[..|log| - 1];
      assert front + [log[|log| - 1]] == log;
      SnocTotals(front, log[|log| - 1], key);
      NoEntriesNoTotals(front, key);
    }
  }

  /** What a tracker holds after the calls in log: exactly the accepted keys, each
      with its capped sums; the capped number of drops; at most the allowed keys. */
  ghost predicate Accounts(models: map<Key, Aggregate>, dropped: U64, log: seq<Entry>, maxModels: int)
  {
    && models.Keys == Keys(log)
    && (forall key :: key in models ==> models[key] == Saturated(TotalsOf(log, key)))
    && dropped == Cap(Dropped(log))
    && |models| <= (if maxModels > 0 then maxModels else 0)
    && (forall i :: 0 <= i < |log| ==> log[i].cost.Some? ==> Consistent(log[i].usage))
  }

  lemma AccountsDrop(models: map<Key, Aggregate>, dropped: U64, log: seq<Entry>, maxModels: int, e: Entry)
    requires Accounts(models, dropped, log, maxModels) && !e.accepted && (e.cost.Some? ==> Consistent(e.usage))
    ensures Accounts(models, Cap(dropped + 1), log + [e], maxModels)
  {
    SnocTotals(log, e, e.key);
    forall key | key in models
      ensures TotalsOf(log + [e], key) == TotalsOf(log, key)
    {
      SnocTotals(log, e, key);
    }
  }

  lemma KeysAfter(models: map<Key, Aggregate>, key: Key, a: Aggregate)
    ensures models[key := a].Keys == models.Keys + {key}
    ensures |models[key := a]| == if key in models then |models| else |models| + 1
  {
    var models' := models[key := a];
    assert models'.Keys == models.Keys + {key};
    if key in models {
      assert models'.Keys == models.Keys;
    } else {
      assert models'.Keys - {key} == models.Keys;
    }
  }

  lemma AccountsAccept(models: map<Key, Aggregate>, dropped: U64, log: seq<Entry>, maxModels: int, e: Entry, a: Aggregate)
    requires Accounts(models, dropped, log, maxModels) && e.accepted && (e.cost.Some? ==> Consistent(e.usage))
    requires e.key in models || |models| < maxModels
    requires a == Saturated(Plus(TotalsOf(log, e.key), Delta(e)))
    ensures Accounts(models[e.key := a], dropped, log + [e], maxModels)
  {
    var models' := models[e.key := a];
    assert models'.Keys == Keys(log + [e]) && |models'| <= maxModels && dropped == Cap(Dropped(log + [e])) by {
      KeysAfter(models, e.key, a);
      SnocTotals(log, e, e.key);
    }
    forall key | key in models'
      ensures models'[key] == Saturated(TotalsOf(log + [e], key))
    {
      KeyAccepts(models, log, e, a, key);
    }
  }

  lemma KeyAccepts(models: map<Key, Aggregate>, log: seq<Entry>, e: Entry, a: Aggregate, key: Key)
    requires e.accepted && a == Saturated(Plus(TotalsOf(log, e.key), Delta(e))) && key in models[e.key := a]
    requires key in models ==> models[key] == Saturated(TotalsOf(log, key))
    ensures models[e.key := a][key] == Saturated(TotalsOf(log + [e], key))
  {
    SnocTotals(log, e, key);
  }

  /** What the stored aggregate of a key is before its next attempt. */
  lemma StoredOrEmpty(models: map<Key, Aggregate>, dropped: U64, log: seq<Entry>, maxModels: int, key: Key)
    requires Accounts(models, dropped, log, maxModels)
    ensures (if key in models then models[key] else Aggregate(0, 0, 0, 0, 0, 0, 0, 0, 0, 0, false))
            == Saturated(TotalsOf(log, key))
  {
    if key !in models {
      NoEntriesNoTotals(log, key);
    }
  }

  class Tracker {
    var models: map<Key, Aggregate>
    var prices: map<Key, Rates>
    var dropped: U64
    const maxModels: int

    /** Every Record call so far, in order. */
    ghost var log: seq<Entry>

    /** What holds after any sequence of Record and SetPrices calls. */
    ghost predicate Valid()
      reads this
    {
      Accounts(models, dropped, log, maxModels)
    }

    constructor (prices: map<Key, Rates>, maxModels: int)
      ensures Valid() && log == [] && this.prices == prices && this.maxModels == maxModels
    {
      this.models := map[];
      this.prices := prices;
      this.dropped := 0;
      this.maxModels := maxModels;
      this.log := [];
    }

    method SetPrices(prices: map<Key, Rates>)
      requires Valid()
      modifies this`prices
      ensures Valid() && this.prices == prices
    {
      this.prices := prices;
    }

    /** Record: the call is accepted when its key is known or there is room for it,
        and otherwise counted as dropped; the estimate is returned either way. */
    method Record(provider: string, model: string, usage: Option<Usage>) returns (cost: Option<U64>)
      requires Valid()
      modifies this`models, this`dropped, this`log
      ensures Valid()
      ensures var key := Key(provider, model);
              && cost == EstimateMicroUSD(usage, if key in prices then prices[key] else NO_RATES)
              && log == old(log) + [Entry(key, usage, cost, key in old(models) || |old(models)| < maxModels)]
    {
      var key := Key(provider, model);
      cost := EstimateMicroUSD(usage, if key in prices then prices[key] else NO_RATES);
      Enter(key, usage, cost);
    }

    /** Record after its estimate. */
    method Enter(key: Key, usage: Option<Usage>, cost: Option<U64>)
      requires Valid() && (cost.Some? ==> Consistent(usage))
      modifies this`models, this`dropped, this`log
      ensures Valid()
      ensures log == old(log) + [Entry(key, usage, cost, key in old(models) || |old(models)| < maxModels)]
    {
      if key !in models && |models| >= maxModels {
        ghost var refused := Entry(key, usage, cost, false);
        AccountsDrop(models, dropped, log, maxModels, refused);
        var (sum, _) := SaturatingAdd(dropped, 1);
        dropped := sum;
        log := log + [refused];
        return;
      }
      var aggregate := if key in models then models[key] else Aggregate(0, 0, 0, 0, 0, 0, 0, 0, 0, 0, false);
      StoredOrEmpty(models, dropped, log, maxModels, key);
      ghost var e := Entry(key, usage, cost, true);
      var updated := AddAttempt(aggregate, usage, cost, TotalsOf(log, key), e);
      AccountsAccept(models, dropped, log, maxModels, e, updated);
      models := models[key := updated];
      log := log + [e];
    }
  }

  /** The accepted half of Record: one attempt added to an aggregate. */
  method AddAttempt(aggregate: Aggregate, usage: Option<Usage>, cost: Option<U64>, ghost exact: Totals, ghost e: Entry)
    returns (updated: Aggregate)
    requires aggregate == Saturated(exact) && e.usage == usage && e.cost == cost
    ensures updated == Saturated(Plus(exact, Delta(e)))
  {
    var counted := CountAttempt(aggregate);
    var withTokens, available, complete := RecordUsage(counted, usage);
    var withUsage := CountAvailability(withTokens, available, complete);
    updated := CountCost(withUsage, cost);
    FourUpdates(exact, e);
  }
}
