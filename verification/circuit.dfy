/** The circuit breaker with generations (internal/gateway/circuit.go).

    Every mutex section is one atomic step. `Circuit` is the value of the fields one
    step sees; `ProviderHealth` is the object whose methods perform the steps in
    place. A run is any sequence of steps: attempts may report late, several times
    or never, and the clock handed to each step is arbitrary. */
module CircuitBreaker {
  import opened Common

  datatype State = Closed | Open | HalfOpen

  datatype Config = Config(failureThreshold: int, openDuration: int)

  datatype Circuit = Circuit(
    state: State, generation: nat, failures: nat,
    lastSuccess: int, lastFailure: int, openUntil: int, inFlight: bool)

  /** The zero time of Go's time.Time. */
  const ZERO_TIME: int := 0

  const INITIAL := Circuit(Closed, 0, 0, ZERO_TIME, ZERO_TIME, ZERO_TIME, false)

  datatype Attempt = Attempt(halfOpen: bool, generation: nat)

  // ----------------------------------------------------- the atomic steps

  predicate Admits(c: Circuit, now: int)
  {
    match c.state
    case Open => now >= c.openUntil
    case HalfOpen => !c.inFlight
    case Closed => true
  }

  function Admit(c: Circuit, now: int): (Circuit, Option<Attempt>)
  {
    match c.state
    case Open =>
      if now < c.openUntil then (c, None)
      else
        (c.(state := HalfOpen, generation := c.generation + 1, inFlight := true), Some(Attempt(true, c.generation + 1)))
    case HalfOpen =>
      if c.inFlight then (c, None) else (c.(inFlight := true), Some(Attempt(true, c.generation)))
    case Closed => (c, Some(Attempt(false, c.generation)))
  }

  datatype Report = Succeeded | Failed | Ignored

  function Settle(config: Config, c: Circuit, a: Attempt, report: Report, now: int): Circuit
  {
    if a.generation != c.generation then c
    else match report
      case Succeeded =>
        c.(state := Closed, generation := if c.state != Closed then c.generation + 1 else c.generation,
           failures := 0, lastSuccess := now, openUntil := ZERO_TIME, inFlight := false)
      case Failed =>
        var failed := c.(lastFailure := now, failures := c.failures + 1);
        if a.halfOpen || failed.failures >= config.failureThreshold then
          failed.(state := Open, generation := c.generation + 1, openUntil := now + config.openDuration, inFlight := false)
        else failed
      case Ignored =>
        if a.halfOpen then c.(inFlight := false, generation := c.generation + 1) else c
  }

  /** The eligibility formula of the operations snapshot (operations.go). */
  predicate SnapshotEligible(c: Circuit, now: int)
  {
    c.state == Closed || (c.state == Open && !(now < c.openUntil)) || (c.state == HalfOpen && !c.inFlight)
  }

  /** Asking for eligibility predicts admission: at equal time, eligible, begin's
      decision and the snapshot formula agree, and a refused begin changes nothing. */
  lemma EligibilityAgrees(c: Circuit, now: int)
    ensures Admits(c, now) <==> Admit(c, now).1.Some?
    ensures Admits(c, now) <==> SnapshotEligible(c, now)
    ensures !Admits(c, now) ==> Admit(c, now).0 == c
  {
  }

  // ---------------------------------------------------------- whole runs

  /** Attempts carry the identity their holder gave them. */
  type Id = (nat, nat)

  datatype Event = BeginAt(id: Id, now: int) | ReportAt(id: Id, report: Report, now: int)

  /** A circuit, every attempt ever issued, and the attempts that reported. */
  datatype System = System(circuit: Circuit, issued: map<Id, Attempt>, reported: set<Id>)

  const START := System(INITIAL, map[], {})

  /** One step. An identity names one attempt: beginning again under an issued one,
      or reporting for one never issued, is not a step. */
  function Step(config: Config, s: System, e: Event): System
  {
    match e
    case BeginAt(id, now) =>
      if id in s.issued then s
      else
        var (c, admitted) := Admit(s.circuit, now);
        if admitted.None? then s.(circuit := c)
        else s.(circuit := c, issued := s.issued[id := admitted.value])
    case ReportAt(id, report, now) =>
      if id !in s.issued then s
      else s.(circuit := Settle(config, s.circuit, s.issued[id], report, now), reported := s.reported + {id})
  }

  function Run(config: Config, events: seq<Event>): System
  {
    if events == [] then START
    else Step(config, Run(config, events[..|events| - 1]), events[|events| - 1])
  }

  /** Issued attempts that carry the current generation. */
  function Current(s: System): set<Id>
  {
    set id | id in s.issued && s.issued[id].generation == s.circuit.generation
  }

  ghost predicate Invariant(config: Config, s: System)
  {
    var c := s.circuit;
    && (forall id :: id in s.issued ==> s.issued[id].generation <= c.generation)
    && s.reported <= s.issued.Keys
    && match c.state
       case Closed =>
         && !c.inFlight
         && (forall id :: id in Current(s) ==> !s.issued[id].halfOpen)
         && (config.failureThreshold >= 1 ==> c.failures < config.failureThreshold)
       case Open =>
         && !c.inFlight && Current(s) == {}
         && c.openUntil == c.lastFailure + config.openDuration
         && (config.failureThreshold >= 1 ==> c.failures >= 1)
       case HalfOpen =>
         if c.inFlight then
           exists id :: Current(s) == {id} && s.issued[id].halfOpen && id !in s.reported
         else
           Current(s) == {}
  }

  /** An attempt admitted outside closed is the only one with the current generation. */
  lemma ProbeIsAlone(config: Config, s: System, id: Id, now: int)
    requires Invariant(config, s) && s.circuit.state != Closed && id !in s.issued && Admit(s.circuit, now).1.Some?
    ensures Current(Step(config, s, BeginAt(id, now))) == {id}
  {
    var s' := Step(config, s, BeginAt(id, now));
    forall j | j in s.issued
      ensures j !in Current(s')
    {
      assert s'.issued[j] == s.issued[j];
      assert s.circuit.state == HalfOpen ==> j !in Current(s);
    }
    assert forall j :: j in Current(s') ==> j in s'.issued;
  }

  lemma BeginKeepsInvariant(config: Config, s: System, id: Id, now: int)
    requires Invariant(config, s)
    ensures Invariant(config, Step(config, s, BeginAt(id, now)))
  {
    var s' := Step(config, s, BeginAt(id, now));
    if id !in s.issued && Admit(s.circuit, now).1.Some? {
      if s.circuit.state == Closed {
        assert forall j :: j in Current(s') && j != id ==> j in Current(s);
      } else {
        ProbeIsAlone(config, s, id, now);
      }
    } else {
      assert s' == s;
    }
  }

  lemma ReportKeepsInvariant(config: Config, s: System, id: Id, report: Report, now: int)
    requires Invariant(config, s)
    ensures Invariant(config, Step(config, s, ReportAt(id, report, now)))
  {
    var s' := Step(config, s, ReportAt(id, report, now));
    if id in s.issued {
      var c, c' := s.circuit, s'.circuit;
      if s.issued[id].generation != c.generation {
        assert Current(s') == Current(s);
        if c.state == HalfOpen && c.inFlight {
          var probe :| Current(s) == {probe} && s.issued[probe].halfOpen && probe !in s.reported;
          assert probe in Current(s) && id !in Current(s);
          assert Current(s') == {probe} && probe !in s'.reported;
        }
      } else {
        assert id in Current(s);
        if c'.generation == c.generation {
          assert Current(s') == Current(s);
        } else {
          assert Current(s') == {};
        }
      }
    }
  }

  /** The invariant holds after every sequence of steps. */
  lemma {:induction false} RunKeepsInvariant(config: Config, events: seq<Event>)
    ensures Invariant(config, Run(config, events))
  {
    if events == [] {
      assert Current(START) == {};
    } else {
      var before := events[..|events| - 1];
      RunKeepsInvariant(config, before);
      match events[|events| - 1]
      case BeginAt(id, now) => BeginKeepsInvariant(config, Run(config, before), id, now);
      case ReportAt(id, report, now) => ReportKeepsInvariant(config, Run(config, before), id, report, now);
    }
  }

  predicate AllowedEdge(from: State, to: State)
  {
    from == to || (from == Closed && to == Open) || (from == Open && to == HalfOpen)
    || (from == HalfOpen && to == Closed) || (from == HalfOpen && to == Open)
  }

  lemma SnocRun(config: Config, events: seq<Event>, e: Event)
    ensures Run(config, events + [e]) == Step(config, Run(config, events), e)
  {
    assert (events + [e])[..|events|] == events;
  }

  /** Only the four edges of the documented diagram ever occur, whoever reports. */
  lemma OnlyFourEdges(config: Config, events: seq<Event>, e: Event)
    ensures AllowedEdge(Run(config, events).circuit.state, Run(config, events + [e]).circuit.state)
  {
    SnocRun(config, events, e);
    RunKeepsInvariant(config, events);
    var s := Run(config, events);
    if e.ReportAt? && e.id in s.issued && s.issued[e.id].generation == s.circuit.generation {
      assert e.id in Current(s);
    }
  }

  /** Who gets in, read off the run: everybody while closed, nobody before the open
      duration has passed since the latest counted failure while open, and while
      half-open whoever finds no attempt out that can still change the circuit. */
  lemma AdmittedExactly(config: Config, events: seq<Event>, id: Id, now: int)
    requires id !in Run(config, events).issued
    ensures var s := Run(config, events);
            id in Run(config, events + [BeginAt(id, now)]).issued
            <==> match s.circuit.state
                 case Closed => true
                 case Open => now >= LatestFailure(config, events) + config.openDuration
                 case HalfOpen => Current(s) == {}
  {
    RunKeepsInvariant(config, events);
    LastFailureIsLatest(config, events);
    SnocRun(config, events, BeginAt(id, now));
  }

  /** The way out of half-open: the success of the probe closes the circuit, its failure
      opens it again, and nothing else ends it. */
  lemma HalfOpenEndsWithProbe(config: Config, events: seq<Event>, e: Event)
    requires Run(config, events).circuit.state == HalfOpen
    ensures var s, after := Run(config, events), Run(config, events + [e]).circuit.state;
            && (after == Closed <==> Counts(s, e, Succeeded)) && (after == Open <==> Counts(s, e, Failed))
  {
    SnocRun(config, events, e);
    RunKeepsInvariant(config, events);
    var s := Run(config, events);
    if e.ReportAt? && e.id in s.issued && s.issued[e.id].generation == s.circuit.generation {
      assert e.id in Current(s);
    }
  }

  /** A generation ends exactly when the state changes, or when a probe is given up:
      reports of attempts begun while closed count as long as the circuit stays closed. */
  lemma GenerationEndsWithState(config: Config, events: seq<Event>, e: Event)
    ensures var s, s' := Run(config, events), Run(config, events + [e]);
            s'.circuit.generation
            == s.circuit.generation
               + if s'.circuit.state != s.circuit.state || (s.circuit.state == HalfOpen && Counts(s, e, Ignored)) then 1 else 0
  {
    SnocRun(config, events, e);
    RunKeepsInvariant(config, events);
    var s := Run(config, events);
    if e.ReportAt? && e.id in s.issued && s.issued[e.id].generation == s.circuit.generation {
      assert e.id in Current(s);
    }
  }

  /** In half-open at most one issued attempt can still change the circuit, and
      exactly one while a probe is in flight; in open none can. */
  lemma OneProbe(config: Config, events: seq<Event>)
    ensures var s := Run(config, events);
            && (s.circuit.state == HalfOpen ==> |Current(s)| == if s.circuit.inFlight then 1 else 0)
            && (s.circuit.state == Open ==> Current(s) == {})
            && (s.circuit.inFlight ==> s.circuit.state == HalfOpen)
  {
    RunKeepsInvariant(config, events);
  }

  lemma {:induction false} GenerationsGrow(config: Config, events: seq<Event>, more: seq<Event>)
    ensures Run(config, events).circuit.generation <= Run(config, events + more).circuit.generation
    ensures forall id :: id in Run(config, events).issued ==>
              id in Run(config, events + more).issued
              && Run(config, events + more).issued[id] == Run(config, events).issued[id]
  {
    if more == [] {
      assert events + more == events;
    } else {
      var front := more[..|more| - 1];
      GenerationsGrow(config, events, front);
      assert events + more == (events + front) + [more[|more| - 1]];
      SnocRun(config, events + front, more[|more| - 1]);
    }
  }

  /** Once an attempt is stale it stays stale: however long the run goes on, its
      reports leave the circuit exactly as it was. */
  lemma StaleForever(config: Config, events: seq<Event>, more: seq<Event>, id: Id, report: Report, now: int)
    requires id in Run(config, events).issued
    requires Run(config, events).issued[id].generation != Run(config, events).circuit.generation
    ensures Run(config, events + more + [ReportAt(id, report, now)]).circuit == Run(config, events + more).circuit
  {
    RunKeepsInvariant(config, events);
    GenerationsGrow(config, events, more);
    SnocRun(config, events + more, ReportAt(id, report, now));
  }

  /** A probe settles once: after its first report no later report of it has any
      effect, whatever happens in between. */
  lemma ProbeSettlesOnce(config: Config, events: seq<Event>, more: seq<Event>,
                         id: Id, first: Report, t: int, second: Report, u: int)
    requires id in Run(config, events).issued && Run(config, events).issued[id].halfOpen
    ensures var settled := events + [ReportAt(id, first, t)] + more;
            Run(config, settled + [ReportAt(id, second, u)]).circuit == Run(config, settled).circuit
  {
    var s := Run(config, events);
    var once := events + [ReportAt(id, first, t)];
    RunKeepsInvariant(config, events);
    SnocRun(config, events, ReportAt(id, first, t));
    assert s.issued[id].generation == s.circuit.generation ==> id in Current(s);
    StaleForever(config, once, more, id, second, u);
  }

  /** No reservation leaks: when every issued attempt has reported at least once, no
      probe is in flight, so the next eligible request is admitted. */
  lemma QuiescentHasNoProbe(config: Config, events: seq<Event>)
    requires Run(config, events).reported == Run(config, events).issued.Keys
    ensures !Run(config, events).circuit.inFlight
    ensures Run(config, events).circuit.state == HalfOpen ==> forall now :: Admits(Run(config, events).circuit, now)
  {
    RunKeepsInvariant(config, events);
    assert Current(Run(config, events)) <= Run(config, events).issued.Keys;
  }

  // ------------------------------------------------ counting and timing

  /** A report counts when its attempt carried the generation it met. */
  predicate Counts(s: System, e: Event, report: Report)
  {
    && e.ReportAt? && e.report == report && e.id in s.issued
    && s.issued[e.id].generation == s.circuit.generation
  }

  /** Counted failures since the latest counted success, read off the whole run. */
  function FailuresSinceSuccess(config: Config, events: seq<Event>): nat
  {
    if events == [] then 0
    else
      var before := events[..|events| - 1];
      var e := events[|events| - 1];
      if Counts(Run(config, before), e, Succeeded) then 0
      else FailuresSinceSuccess(config, before) + (if Counts(Run(config, before), e, Failed) then 1 else 0)
  }

  lemma {:induction false} CounterIsFailuresSinceSuccess(config: Config, events: seq<Event>)
    ensures Run(config, events).circuit.failures == FailuresSinceSuccess(config, events)
  {
    if events != [] {
      CounterIsFailuresSinceSuccess(config, events[..|events| - 1]);
    }
  }

  /** The same count, of failures that met one given generation only. */
  function FailuresUnder(config: Config, events: seq<Event>, generation: nat): nat
  {
    if events == [] then 0
    else
      var before := Run(config, events[..|events| - 1]);
      var e := events[|events| - 1];
      if Counts(before, e, Succeeded) then 0
      else FailuresUnder(config, events[..|events| - 1], generation)
           + (if Counts(before, e, Failed) && before.circuit.generation == generation then 1 else 0)
  }

  /** While closed, the counter is the number of failures of the current generation
      since the latest success or closing: no failure of an earlier one is in it. */
  lemma {:induction false} ClosedCounterIsCurrent(config: Config, events: seq<Event>)
    requires Run(config, events).circuit.state == Closed
    ensures Run(config, events).circuit.failures == FailuresUnder(config, events, Run(config, events).circuit.generation)
  {
    if events != [] {
      var before := events[..|events| - 1];
      var s := Run(config, before);
      var e := events[|events| - 1];
      RunKeepsInvariant(config, before);
      if !Counts(s, e, Succeeded) {
        assert s.circuit.state == Closed && Run(config, events).circuit.generation == s.circuit.generation by {
          assert e.ReportAt? && e.id in s.issued && s.issued[e.id].generation == s.circuit.generation ==> e.id in Current(s);
        }
        ClosedCounterIsCurrent(config, before);
      }
    }
  }

  /** The circuit opens from closed exactly when a counted failure brings the
      failures since the latest success to the threshold. */
  lemma OpensAtThreshold(config: Config, events: seq<Event>, e: Event)
    requires config.failureThreshold >= 1
    requires Run(config, events).circuit.state == Closed
    ensures FailuresSinceSuccess(config, events) < config.failureThreshold
    ensures Run(config, events + [e]).circuit.state == Open
            <==> Counts(Run(config, events), e, Failed)
                 && FailuresSinceSuccess(config, events) + 1 == config.failureThreshold
  {
    RunKeepsInvariant(config, events);
    CounterIsFailuresSinceSuccess(config, events);
    SnocRun(config, events, e);
    var s := Run(config, events);
    if Counts(s, e, Failed) {
      assert e.id in Current(s);
    }
  }

  /** The latest time at which a failure counted, or the zero time. */
  function LatestFailure(config: Config, events: seq<Event>): int
  {
    if events == [] then ZERO_TIME
    else
      var before := events[..|events| - 1];
      var e := events[|events| - 1];
      if Counts(Run(config, before), e, Failed) then e.now else LatestFailure(config, before)
  }

  lemma {:induction false} LastFailureIsLatest(config: Config, events: seq<Event>)
    ensures Run(config, events).circuit.lastFailure == LatestFailure(config, events)
  {
    if events != [] {
      LastFailureIsLatest(config, events[..|events| - 1]);
    }
  }

  /** The latest time at which a success counted, or the zero time. */
  function LatestSuccess(config: Config, events: seq<Event>): int
  {
    if events == [] then ZERO_TIME
    else
      var before := events[..|events| - 1];
      var e := events[|events| - 1];
      if Counts(Run(config, before), e, Succeeded) then e.now else LatestSuccess(config, before)
  }

  /** The times a circuit shows: its latest counted success and failure, and, unless it is
      closed, the end of its cooldown. */
  lemma {:induction false} TimesShown(config: Config, events: seq<Event>)
    ensures var c := Run(config, events).circuit;
            && c.lastSuccess == LatestSuccess(config, events) && c.lastFailure == LatestFailure(config, events)
            && c.openUntil == if c.state == Closed then ZERO_TIME else LatestFailure(config, events) + config.openDuration
  {
    LastFailureIsLatest(config, events);
    if events != [] {
      var before := events[..|events| - 1];
      var e := events[|events| - 1];
      TimesShown(config, before);
      RunKeepsInvariant(config, before);
      var s := Run(config, before);
      assert e.ReportAt? && e.id in s.issued && s.issued[e.id].generation == s.circuit.generation ==> e.id in Current(s);
    }
  }

  /** While open, the gate stays shut until the open duration after the latest
      counted failure, and the first begin at or after that time is admitted. */
  lemma OpenAdmitsExactlyAfterCooldown(config: Config, events: seq<Event>, id: Id, now: int)
    requires Run(config, events).circuit.state == Open && id !in Run(config, events).issued
    ensures id in Run(config, events + [BeginAt(id, now)]).issued
            <==> now >= LatestFailure(config, events) + config.openDuration
    ensures id in Run(config, events + [BeginAt(id, now)]).issued
            <==> Run(config, events + [BeginAt(id, now)]).circuit.state == HalfOpen
  {
    RunKeepsInvariant(config, events);
    LastFailureIsLatest(config, events);
    SnocRun(config, events, BeginAt(id, now));
  }

  // ------------------------------------------------- the mutable objects

  /** providerHealth: the fields behind one mutex. Each method is one critical
      section and performs exactly one of the steps above. */
  class ProviderHealth {
    var state: State
    var generation: nat
    var consecutiveFailures: nat
    var lastSuccess: int
    var lastFailure: int
    var openUntil: int
    var halfOpenInFlight: bool

    ghost function Value(): Circuit
      reads this
    {
      Circuit(state, generation, consecutiveFailures, lastSuccess, lastFailure, openUntil, halfOpenInFlight)
    }

    constructor ()
      ensures Value() == INITIAL
    {
      state, generation, consecutiveFailures := Closed, 0, 0;
      lastSuccess, lastFailure, openUntil := ZERO_TIME, ZERO_TIME, ZERO_TIME;
      halfOpenInFlight := false;
    }

    method Begin(now: int) returns (admitted: Option<Attempt>)
      modifies this
      ensures (Value(), admitted) == Admit(old(Value()), now)
    {
      match state {
        case Open =>
          if now < openUntil { return None; }
          state := HalfOpen;
          generation := generation + 1;
          halfOpenInFlight := true;
          admitted := Some(Attempt(true, generation));
        case HalfOpen =>
          if halfOpenInFlight { return None; }
          halfOpenInFlight := true;
          admitted := Some(Attempt(true, generation));
        case Closed =>
          admitted := Some(Attempt(false, generation));
      }
    }

    /** eligible only reads: asking reserves nothing. */
    method Eligible(now: int) returns (r: bool)
      ensures r == Admits(Value(), now)
    {
      match state {
        case Open => r := !(now < openUntil);
        case HalfOpen => r := !halfOpenInFlight;
        case Closed => r := true;
      }
    }

    method Success(a: Attempt, config: Config, now: int)
      modifies this
      ensures Value() == Settle(config, old(Value()), a, Succeeded, now)
    {
      if a.generation != generation { return; }
      var previous := state;
      state := Closed;
      if previous != Closed { generation := generation + 1; }
      consecutiveFailures := 0;
      lastSuccess := now;
      openUntil := ZERO_TIME;
      halfOpenInFlight := false;
    }

    method Failure(a: Attempt, config: Config, now: int)
      modifies this
      ensures Value() == Settle(config, old(Value()), a, Failed, now)
    {
      if a.generation != generation { return; }
      lastFailure := now;
      consecutiveFailures := consecutiveFailures + 1;
      if a.halfOpen || consecutiveFailures >= config.failureThreshold {
        state := Open;
        generation := generation + 1;
        openUntil := now + config.openDuration;
        halfOpenInFlight := false;
      }
    }

    method Ignore(a: Attempt, config: Config, ghost now: int)
      modifies this
      ensures Value() == Settle(config, old(Value()), a, Ignored, now)
    {
      if !a.halfOpen { return; }
      if a.generation == generation {
        halfOpenInFlight := false;
        generation := generation + 1;
      }
    }
  }

  /** healthTracker: one ProviderHealth per configured name. An unknown name is
      neither eligible nor admitted, and a known one never disturbs another. */
  class HealthTracker {
    const providers: map<string, ProviderHealth>
    const config: Config

    constructor (providers: map<string, ProviderHealth>, config: Config)
      ensures this.providers == providers && this.config == config
    {
      this.providers := providers;
      this.config := config;
    }

    method Begin(name: string, now: int) returns (admitted: Option<Attempt>)
      modifies if name in providers then {providers[name]} else {}
      ensures name !in providers ==> admitted == None
      ensures name in providers ==>
                (providers[name].Value(), admitted) == Admit(old(providers[name].Value()), now)
    {
      if name !in providers { return None; }
      admitted := providers[name].Begin(now);
    }

    method Eligible(name: string, now: int) returns (r: bool)
      ensures r <==> name in providers && Admits(providers[name].Value(), now)
    {
      if name !in providers { return false; }
      r := providers[name].Eligible(now);
    }
  }
}
