/** Request history: the record a request builds step by step and submits
    (internal/gateway/persistence.go), and the store's check of it
    (internal/persistence/postgres/store.go). */
module History {
  import opened Common
  import opened Pricing
  import opened Outcomes
  import opened Requests
  import opened Transcripts
  import opened Projections
  import opened Walks
  import Telemetry
  import Exploration
  import Ledgers

  const MAX_PROVIDER_LENGTH: nat := 64
  const MAX_MODEL_LENGTH: nat := 256
  const MAX_POLICY_LENGTH: nat := 32

  datatype Span = Span(startedAt: int, completedAt: int, durationUS: int)

  datatype Facts = Facts(outcome: string, ttfcUS: Option<int>, usage: Usage, cost: Option<U64>)

  datatype AttemptRecord =
    AttemptRecord(number: nat, provider: string, model: string, fallback: bool, span: Span, facts: Facts)

  datatype Identity = Identity(requestID: string, routingPolicy: string, streaming: bool, logicalModel: string)

  datatype Parties = Parties(cacheHit: bool, initial: Option<string>, final: Option<string>)

  datatype Counts = Counts(attempts: nat, fallbacks: nat)

  datatype RequestRecord = RequestRecord(
    identity: Identity, span: Span, parties: Parties, outcome: string, counts: Counts, attempts: seq<AttemptRecord>)

  const NO_USAGE := Usage(None, None, None)
  const NO_FACTS := Facts("", None, NO_USAGE, None)

  // ------------------------------------------------------- bounding helpers

  /** boundedMetadata, on a string of runes. */
  function Bounded(value: string, maximum: nat): (r: string)
    ensures |r| <= maximum
    ensures |value| <= maximum ==> r == value
    ensures maximum > 0 ==> (r == "" <==> value == "")
    ensures r <= value && (|value| > maximum ==> |r| == maximum)
  {
    if |value| <= maximum then value else value[..maximum]
  }

  /** nonNegativeMicroseconds, of a duration in nanoseconds. */
  function NonNegativeMicroseconds(duration: I64): (us: int)
    ensures duration < 0 ==> us == 0
    ensures duration >= 0 ==> 0 <= us && us * 1000 <= duration < us * 1000 + 1000
  {
    if duration < 0 then 0 else duration / 1000
  }

  /** The number of bytes of the UTF-8 form, which Go's len counts. */
  function ByteLength(s: string): (n: nat)
    ensures n >= |s|
  {
    if s == "" then 0
    else
      var c := s[|s| - 1];
      ByteLength(s[..|s| - 1]) + (if c < '\U{80}' then 1 else if c < '\U{800}' then 2 else if c < '\U{10000}' then 3 else 4)
  }

  lemma {:induction false} AsciiBytes(s: string)
    requires forall i :: 0 <= i < |s| ==> s[i] < '\U{80}'
    ensures ByteLength(s) == |s|
  {
    if s != "" {
      AsciiBytes(s[..|s| - 1]);
    }
  }

  lemma OutcomeNameFits(o: Outcome)
    ensures OutcomeName(o) != "" && ByteLength(OutcomeName(o)) <= 32
  {
    AsciiBytes(OutcomeName(o));
  }

  // ----------------------------------------------------- the store's check

  predicate ValidIdentity(id: Identity)
  {
    && id.requestID != "" && ByteLength(id.requestID) <= 64
    && id.routingPolicy != "" && ByteLength(id.routingPolicy) <= 32
    && |id.logicalModel| <= 256
  }

  predicate ValidSpan(s: Span) { s.startedAt <= s.completedAt && s.durationUS >= 0 }

  predicate ValidOutcome(outcome: string) { outcome != "" && ByteLength(outcome) <= 32 }

  predicate ValidAttempt(a: AttemptRecord, i: nat)
  {
    && a.number == i + 1 && a.provider != "" && |a.provider| <= 64 && a.model != "" && |a.model| <= 256
    && ValidOutcome(a.facts.outcome) && ValidSpan(a.span)
    && (a.facts.ttfcUS.Some? ==> a.facts.ttfcUS.value >= 0)
  }

  predicate ValidRecord(r: RequestRecord)
  {
    && ValidIdentity(r.identity) && ValidOutcome(r.outcome) && ValidSpan(r.span)
    && r.counts.attempts == |r.attempts| && r.counts.fallbacks <= r.counts.attempts
    && forall i :: 0 <= i < |r.attempts| ==> ValidAttempt(r.attempts[i], i)
  }

  datatype Fault = InvalidMetadata | InvalidTimingOrCounts | InvalidAttempt

  /** validateRecord. */
  method ValidateRecord(r: RequestRecord) returns (fault: Option<Fault>)
    ensures fault.None? <==> ValidRecord(r)
    ensures fault == Some(InvalidMetadata) <==> !(ValidIdentity(r.identity) && ValidOutcome(r.outcome))
    ensures fault == Some(InvalidAttempt) ==> exists i :: 0 <= i < |r.attempts| && !ValidAttempt(r.attempts[i], i)
  {
    var id := r.identity;
    if id.requestID == "" || ByteLength(id.requestID) > 64 || id.routingPolicy == "" || ByteLength(id.routingPolicy) > 32
       || |id.logicalModel| > 256 || r.outcome == "" || ByteLength(r.outcome) > 32 {
      return Some(InvalidMetadata);
    }
    if r.span.completedAt < r.span.startedAt || r.span.durationUS < 0 || r.counts.attempts != |r.attempts|
       || r.counts.fallbacks > r.counts.attempts {
      return Some(InvalidTimingOrCounts);
    }
    var i := 0;
    while i < |r.attempts|
      invariant 0 <= i <= |r.attempts|
      invariant forall k :: 0 <= k < i ==> ValidAttempt(r.attempts[k], k)
    {
      var a := r.attempts[i];
      if a.number != i + 1 || a.provider == "" || |a.provider| > 64 || a.model == "" || |a.model| > 256
         || a.facts.outcome == "" || ByteLength(a.facts.outcome) > 32 || a.span.completedAt < a.span.startedAt
         || a.span.durationUS < 0 || (a.facts.ttfcUS.Some? && a.facts.ttfcUS.value < 0) {
        return Some(InvalidAttempt);
      }
      i := i + 1;
    }
    fault := None;
  }

  // ------------------------------------------------------ the record's steps

  /** What the outside hands to a step: the clock and the measured durations. */
  datatype Tick = Tick(now: int, duration: I64, ttfc: I64, cost: Option<U64>)

  datatype Log = Log(record: RequestRecord, lastOutcome: Outcome, hasAttempt: bool)

  function NewAttempt(r: RequestRecord, provider: string, model: string, now: int): AttemptRecord
  {
    AttemptRecord(|r.attempts| + 1, Bounded(provider, MAX_PROVIDER_LENGTH), Bounded(model, MAX_MODEL_LENGTH),
                  |r.attempts| > 0, Span(now, 0, 0), NO_FACTS)
  }

  function WithStart(h: Log, provider: string, model: string, now: int): Log
  {
    var r := h.record;
    var a := NewAttempt(r, provider, model, now);
    h.(record := r.(attempts := r.attempts + [a],
                    parties := if r.attempts == [] then r.parties.(initial := Some(a.provider)) else r.parties))
  }

  function Settled(a: AttemptRecord, outcome: Outcome, t: Tick, hasTTFC: bool, usage: Option<Usage>): AttemptRecord
  {
    a.(span := Span(a.span.startedAt, if t.now < a.span.startedAt then a.span.startedAt else t.now,
                    NonNegativeMicroseconds(t.duration)),
       facts := Facts(OutcomeName(outcome), if hasTTFC then Some(NonNegativeMicroseconds(t.ttfc)) else a.facts.ttfcUS,
                      if usage.Some? then usage.value else a.facts.usage,
                      if t.cost.Some? then t.cost else a.facts.cost))
  }

  function WithFinish(h: Log, index: nat, outcome: Outcome, t: Tick, hasTTFC: bool, usage: Option<Usage>): Log
  {
    if index >= |h.record.attempts| then h
    else
      var r := h.record;
      var a := Settled(r.attempts[index], outcome, t, hasTTFC, usage);
      Log(r.(attempts := r.attempts[index := a],
             parties := if outcome == Success then r.parties.(final := Some(a.provider)) else r.parties),
          outcome, true)
  }

  function WithCacheHit(h: Log, provider: string): Log
  {
    var name := Bounded(provider, MAX_PROVIDER_LENGTH);
    var initial := if h.record.parties.initial.None? then Some(name) else h.record.parties.initial;
    h.(record := h.record.(parties := Parties(true, initial, Some(name))))
  }

  /** requestHistoryOutcome. */
  function RequestOutcome(contextDone: bool, err: Option<Error>): Outcome
  {
    if err.None? then Success
    else if contextDone then Canceled
    else match err.value
      case ModelRequired | MessagesRequired | StreamingUnsupported | NativeModelInAuto | UnsupportedRole(_) => InvalidRequest
      case _ => Classify(contextDone, err)
  }

  /** The record as finish submits it. */
  function WithEnd(h: Log, contextDone: bool, err: Option<Error>, now: int): RequestRecord
  {
    var r := h.record;
    var completedAt := if now < r.span.startedAt then r.span.startedAt else now;
    var n := |r.attempts|;
    r.(span := Span(r.span.startedAt, completedAt, NonNegativeMicroseconds(Telemetry.Elapsed(completedAt, r.span.startedAt))),
       counts := Counts(n, if n > 0 then n - 1 else 0),
       outcome := OutcomeName(if err.Some? && h.hasAttempt && h.lastOutcome == Canceled then Canceled
                              else RequestOutcome(contextDone, err)))
  }

  function Begin(requestID: string, policy: string, req: Request, now: int): Log
  {
    Log(RequestRecord(Identity(requestID, Bounded(policy, MAX_POLICY_LENGTH), req.stream, Bounded(req.model, MAX_MODEL_LENGTH)),
                      Span(now, 0, 0), Parties(false, None, None), "", Counts(0, 0), []),
        Success, false)
  }

  /** requestHistory, which changes its record in place. */
  class RequestHistory {
    var record: RequestRecord
    var lastOutcome: Outcome
    var hasAttempt: bool

    function Contents(): Log
      reads this
    {
      Log(record, lastOutcome, hasAttempt)
    }

    constructor (requestID: string, policy: string, req: Request, now: int)
      ensures Contents() == Begin(requestID, policy, req, now)
    {
      record := RequestRecord(
        Identity(requestID, Bounded(policy, MAX_POLICY_LENGTH), req.stream, Bounded(req.model, MAX_MODEL_LENGTH)),
        Span(now, 0, 0), Parties(false, None, None), "", Counts(0, 0), []);
      lastOutcome, hasAttempt := Success, false;
    }

    method StartAttempt(provider: string, model: string, now: int) returns (index: nat)
      modifies this
      ensures Contents() == WithStart(old(Contents()), provider, model, now)
      ensures index == |old(record).attempts|
    {
      index := |record.attempts|;
      var a := AttemptRecord(index + 1, Bounded(provider, MAX_PROVIDER_LENGTH), Bounded(model, MAX_MODEL_LENGTH),
                             index > 0, Span(now, 0, 0), NO_FACTS);
      record := record.(attempts := record.attempts + [a]);
      if index == 0 {
        record := record.(parties := record.parties.(initial := Some(record.attempts[index].provider)));
      }
    }

    method CacheHit(provider: string)
      modifies this
      ensures Contents() == WithCacheHit(old(Contents()), provider)
    {
      var name := Bounded(provider, MAX_PROVIDER_LENGTH);
      record := record.(parties := record.parties.(cacheHit := true));
      if record.parties.initial.None? {
        record := record.(parties := record.parties.(initial := Some(name)));
      }
      record := record.(parties := record.parties.(final := Some(name)));
    }

    method FinishAttempt(index: int, outcome: Outcome, t: Tick, hasTTFC: bool, usage: Option<Usage>)
      modifies this
      ensures Contents() == if index < 0 then old(Contents()) else WithFinish(old(Contents()), index, outcome, t, hasTTFC, usage)
    {
      if index < 0 || index >= |record.attempts| { return; }
      var a := record.attempts[index];
      a := a.(span := a.span.(completedAt := t.now));
      if a.span.completedAt < a.span.startedAt { a := a.(span := a.span.(completedAt := a.span.startedAt)); }
      a := a.(span := a.span.(durationUS := NonNegativeMicroseconds(t.duration)));
      var facts := a.facts;
      if hasTTFC { facts := facts.(ttfcUS := Some(NonNegativeMicroseconds(t.ttfc))); }
      facts := facts.(outcome := OutcomeName(outcome));
      if usage.Some? { facts := facts.(usage := usage.value); }
      if t.cost.Some? { facts := facts.(cost := t.cost); }
      a := a.(facts := facts);
      assert a == Settled(record.attempts[index], outcome, t, hasTTFC, usage);
      lastOutcome, hasAttempt := outcome, true;
      record := record.(attempts := record.attempts[index := a]);
      if outcome == Success { record := record.(parties := record.parties.(final := Some(a.provider))); }
    }

    method Finish(contextDone: bool, err: Option<Error>, now: int) returns (submitted: RequestRecord)
      modifies this
      ensures submitted == WithEnd(old(Contents()), contextDone, err, now) && record == submitted
    {
      record := record.(span := record.span.(completedAt := now));
      if record.span.completedAt < record.span.startedAt {
        record := record.(span := record.span.(completedAt := record.span.startedAt));
      }
      record := record.(span := record.span.(
        durationUS := NonNegativeMicroseconds(Telemetry.Elapsed(record.span.completedAt, record.span.startedAt))));
      var fallbacks := if |record.attempts| > 0 then |record.attempts| - 1 else 0;
      record := record.(counts := Counts(|record.attempts|, fallbacks));
      var outcome := OutcomeName(RequestOutcome(contextDone, err));
      if err.Some? && hasAttempt && lastOutcome == Canceled { outcome := OutcomeName(lastOutcome); }
      record := record.(outcome := outcome);
      submitted := record;
    }
  }

  // -------------------------------------------------------- whole requests

  function Apply(h: Log, op: HistoryOp, t: Tick): Log
  {
    match op
    case StartAttempt(provider, model) => WithStart(h, provider, model, t.now)
    case FinishAttempt(index, outcome, hasTTFC, usage) => WithFinish(h, index, outcome, t, hasTTFC, usage)
    case CacheHit(provider) => WithCacheHit(h, provider)
  }

  /** The record after a request's history operations, under any clock. */
  function Replay(h: Log, ops: seq<HistoryOp>, ticks: nat -> Tick): Log
  {
    if ops == [] then h else Apply(Replay(h, ops[..|ops| - 1], ticks), ops[|ops| - 1], ticks(|ops| - 1))
  }

  lemma ReplaySnoc(h: Log, ops: seq<HistoryOp>, op: HistoryOp, ticks: nat -> Tick)
    ensures Replay(h, ops + [op], ticks) == Apply(Replay(h, ops, ticks), op, ticks(|ops|))
  {
    assert (ops + [op])[..|ops|] == ops;
  }

  /** What an attempt record says of the attempt it was made for. */
  predicate Tells(rec: AttemptRecord, k: nat, a: Attempt)
  {
    && rec.number == k + 1 && rec.fallback == (k > 0)
    && rec.provider == Bounded(a.provider, MAX_PROVIDER_LENGTH) && rec.model == Bounded(a.model, MAX_MODEL_LENGTH)
    && rec.facts.outcome == OutcomeName(OutcomeOf(a))
    && rec.facts.usage == (if UsageOf(a).Some? then UsageOf(a).value else NO_USAGE)
    && (rec.facts.ttfcUS.Some? <==> HasContent(Consumed(a)))
    && ValidSpan(rec.span) && (rec.facts.ttfcUS.Some? ==> rec.facts.ttfcUS.value >= 0)
  }

  /** The times and the cost an attempt record shows, by what the outside said when it was
      started and when it was finished; a clock set back makes no attempt end early. */
  predicate Timed(rec: AttemptRecord, started: Tick, finished: Tick)
  {
    && rec.span.startedAt == started.now && rec.facts.cost == finished.cost
    && (started.now <= finished.now ==> rec.span.completedAt == finished.now)
    && (finished.now < started.now ==> rec.span.completedAt == started.now)
    && rec.span.durationUS == NonNegativeMicroseconds(finished.duration)
    && (rec.facts.ttfcUS.Some? ==> rec.facts.ttfcUS.value == NonNegativeMicroseconds(finished.ttfc))
  }

  function AfterAttempt(h: Log, a: Attempt, started: Tick, finished: Tick): Log
  {
    WithFinish(WithStart(h, a.provider, a.model, started.now), |h.record.attempts|, OutcomeOf(a), finished,
               HasContent(Consumed(a)), UsageOf(a))
  }

  /** Starting and finishing one attempt adds one telling record and keeps the rest. */
  lemma AttemptTold(h: Log, a: Attempt, started: Tick, finished: Tick)
    ensures var h' := AfterAttempt(h, a, started, finished);
            && |h'.record.attempts| == |h.record.attempts| + 1
            && h'.record.attempts[..|h.record.attempts|] == h.record.attempts
            && Tells(h'.record.attempts[|h.record.attempts|], |h.record.attempts|, a)
            && Timed(h'.record.attempts[|h.record.attempts|], started, finished)
            && h'.record.identity == h.record.identity && h'.record.span == h.record.span
            && h'.hasAttempt && h'.lastOutcome == OutcomeOf(a)
    ensures AfterAttempt(h, a, started, finished).record.parties
            == Parties(h.record.parties.cacheHit,
                       if h.record.attempts == [] then Some(Bounded(a.provider, MAX_PROVIDER_LENGTH)) else h.record.parties.initial,
                       if OutcomeOf(a) == Success then Some(Bounded(a.provider, MAX_PROVIDER_LENGTH)) else h.record.parties.final)
  {
    var n := |h.record.attempts|;
    var begun := WithStart(h, a.provider, a.model, started.now);
    assert begun.record.attempts[n] == NewAttempt(h.record, a.provider, a.model, started.now);
    var h' := AfterAttempt(h, a, started, finished);
    assert h'.record.attempts == begun.record.attempts[n := Settled(begun.record.attempts[n], OutcomeOf(a), finished,
                                                                    HasContent(Consumed(a)), UsageOf(a))];
    assert h'.record.attempts[..n] == h.record.attempts;
  }

  ghost predicate TellsAll(h: Log, attempts: seq<Attempt>)
  {
    && |h.record.attempts| == |attempts|
    && forall k :: 0 <= k < |attempts| ==> Tells(h.record.attempts[k], k, attempts[k])
  }

  lemma BothStepsApply(h: Log, a: Attempt, started: Tick, finished: Tick)
    ensures Apply(Apply(h, StartAttempt(a.provider, a.model), started),
                  FinishAttempt(|h.record.attempts|, OutcomeOf(a), HasContent(Consumed(a)), UsageOf(a)), finished)
            == AfterAttempt(h, a, started, finished)
  {
  }

  lemma ReplayTwo(start: Log, ops: seq<HistoryOp>, first: HistoryOp, second: HistoryOp, ticks: nat -> Tick)
    ensures Replay(start, ops + [first] + [second], ticks)
            == Apply(Apply(Replay(start, ops, ticks), first, ticks(|ops|)), second, ticks(|ops| + 1))
  {
    ReplaySnoc(start, ops, first, ticks);
    ReplaySnoc(start, ops + [first], second, ticks);
  }

  lemma ReplayAttempt(start: Log, attempts: seq<Attempt>, a: Attempt, ticks: nat -> Tick)
    requires |Replay(start, BooksOf(attempts).history, ticks).record.attempts| == |attempts|
    ensures Replay(start, BooksOf(attempts + [a]).history, ticks)
            == AfterAttempt(Replay(start, BooksOf(attempts).history, ticks), a, ticks(2 * |attempts|), ticks(2 * |attempts| + 1))
  {
    var ops := BooksOf(attempts).history;
    assert |ops| == 2 * |attempts| by { Ledgers.HistorySettledOnce(attempts, 0); }
    var starting := StartAttempt(a.provider, a.model);
    var finishing := FinishAttempt(|attempts|, OutcomeOf(a), HasContent(Consumed(a)), UsageOf(a));
    assert BooksOf(attempts + [a]).history == ops + [starting] + [finishing] by { BooksSnoc(attempts, a); }
    ReplayTwo(start, ops, starting, finishing, ticks);
    BothStepsApply(Replay(start, ops, ticks), a, ticks(2 * |attempts|), ticks(2 * |attempts| + 1));
  }

  /** The record of a request mirrors its attempts, one to one and in order, whatever
      the clock did. */
  lemma {:induction false} ReplayTells(requestID: string, policy: string, req: Request, now: int,
                                       attempts: seq<Attempt>, ticks: nat -> Tick)
    ensures var start := Begin(requestID, policy, req, now);
            var h := Replay(start, BooksOf(attempts).history, ticks);
            && TellsAll(h, attempts)
            && h.record.identity == start.record.identity && h.record.span == start.record.span
            && h.hasAttempt == (attempts != [])
            && (attempts != [] ==> h.lastOutcome == OutcomeOf(attempts[|attempts| - 1]))
  {
    if attempts != [] {
      var n := |attempts| - 1;
      var front, a := attempts[..n], attempts[n];
      assert front + [a] == attempts;
      var start := Begin(requestID, policy, req, now);
      var h := Replay(start, BooksOf(front).history, ticks);
      ReplayTells(requestID, policy, req, now, front, ticks);
      ReplayAttempt(start, front, a, ticks);
      AttemptTold(h, a, ticks(2 * n), ticks(2 * n + 1));
      TellsAllSnoc(h, AfterAttempt(h, a, ticks(2 * n), ticks(2 * n + 1)), front, a);
    }
  }

  lemma TellsAllSnoc(h: Log, h': Log, attempts: seq<Attempt>, a: Attempt)
    requires TellsAll(h, attempts) && |h'.record.attempts| == |attempts| + 1
    requires h'.record.attempts[..|attempts|] == h.record.attempts && Tells(h'.record.attempts[|attempts|], |attempts|, a)
    ensures TellsAll(h', attempts + [a])
  {
    forall k | 0 <= k < |attempts|
      ensures Tells(h'.record.attempts[k], k, (attempts + [a])[k])
    {
      assert h'.record.attempts[k] == h'.record.attempts[..|attempts|][k];
    }
  }

  /** How a request ended: what its context answered then, its error, and the clock. */
  datatype Ending = Ending(contextDone: bool, err: Option<Error>, now: int)

  /** The record that finish submits after these history calls. */
  function Submitted(requestID: string, policy: string, req: Request, now: int, ops: seq<HistoryOp>,
                     ticks: nat -> Tick, end: Ending): RequestRecord
  {
    WithEnd(Replay(Begin(requestID, policy, req, now), ops, ticks), end.contextDone, end.err, end.now)
  }

  predicate Persistable(requestID: string, policy: string)
  {
    && requestID != "" && ByteLength(requestID) <= 64
    && policy != "" && ByteLength(Bounded(policy, MAX_POLICY_LENGTH)) <= 32
  }

  lemma TellsIsValid(rec: AttemptRecord, k: nat, a: Attempt)
    requires Tells(rec, k, a)
    ensures ValidAttempt(rec, k) <==> a.provider != "" && a.model != ""
  {
    OutcomeNameFits(OutcomeOf(a));
  }

  /** Whatever a record holds, finish gives it a valid outcome, span and counts. */
  lemma EndIsValid(h: Log, end: Ending)
    ensures var r := WithEnd(h, end.contextDone, end.err, end.now);
            && ValidOutcome(r.outcome) && ValidSpan(r.span) && r.attempts == h.record.attempts && r.identity == h.record.identity
            && r.counts.attempts == |r.attempts| && r.counts.fallbacks <= r.counts.attempts
  {
    OutcomeNameFits(RequestOutcome(end.contextDone, end.err));
    OutcomeNameFits(Canceled);
  }

  /** The history calls of a request: its attempts, and a cache hit at the end, if any. */
  function CallsFor(attempts: seq<Attempt>, hit: seq<HistoryOp>): seq<HistoryOp> { BooksOf(attempts).history + hit }

  lemma ReplayWithHit(start: Log, ops: seq<HistoryOp>, hit: seq<HistoryOp>, ticks: nat -> Tick)
    requires hit == [] || (|hit| == 1 && hit[0].CacheHit?)
    ensures Replay(start, ops + hit, ticks)
            == if hit == [] then Replay(start, ops, ticks) else WithCacheHit(Replay(start, ops, ticks), hit[0].provider)
  {
    if hit == [] {
      assert ops + hit == ops;
    } else {
      assert ops + hit == ops + [hit[0]];
      ReplaySnoc(start, ops, hit[0], ticks);
    }
  }

  /** A cache hit changes the parties of a record and nothing else. */
  lemma HitKeepsRecord(start: Log, ops: seq<HistoryOp>, hit: seq<HistoryOp>, ticks: nat -> Tick)
    requires hit == [] || (|hit| == 1 && hit[0].CacheHit?)
    ensures var h, h' := Replay(start, ops, ticks), Replay(start, ops + hit, ticks);
            h'.record.attempts == h.record.attempts && h'.record.identity == h.record.identity && h'.record.span == h.record.span
  {
    ReplayWithHit(start, ops, hit, ticks);
  }

  /** Exactly when the store takes a submitted record, for every outcome, clock, cache
      hit and chain of fallbacks: the identity is persistable and no attempt was made
      of a nameless provider or model. */
  lemma SubmittedIsValid(requestID: string, policy: string, req: Request, now: int, attempts: seq<Attempt>,
                         hit: seq<HistoryOp>, ticks: nat -> Tick, end: Ending)
    requires hit == [] || (|hit| == 1 && hit[0].CacheHit?)
    ensures ValidRecord(Submitted(requestID, policy, req, now, CallsFor(attempts, hit), ticks, end))
            <==> Persistable(requestID, policy)
                 && forall k :: 0 <= k < |attempts| ==> attempts[k].provider != "" && attempts[k].model != ""
  {
    var h := Replay(Begin(requestID, policy, req, now), BooksOf(attempts).history, ticks);
    ReplayTells(requestID, policy, req, now, attempts, ticks);
    HitKeepsRecord(Begin(requestID, policy, req, now), BooksOf(attempts).history, hit, ticks);
    var r := Submitted(requestID, policy, req, now, CallsFor(attempts, hit), ticks, end);
    EndIsValid(Replay(Begin(requestID, policy, req, now), CallsFor(attempts, hit), ticks), end);
    forall k | 0 <= k < |attempts|
      ensures ValidAttempt(r.attempts[k], k) <==> attempts[k].provider != "" && attempts[k].model != ""
    {
      TellsIsValid(r.attempts[k], k, attempts[k]);
    }
  }

  // ---------------------------------------------------- the gateway's records

  /** No attempt is made under an empty model. */
  lemma AttemptedModelsAreNamed(c: Call, visits: seq<Visit>, k: nat)
    requires Walk(c, visits) && Acceptable(c) && k < |AttemptsOf(visits)|
    ensures AttemptsOf(visits)[k].model != ""
  {
    AttemptIsVisit(c, visits, k);
    var i := AttemptsOf(visits)[k].position;
    assert VisitFits(c, i, visits[i]);
    assert TrimSpace("") == "";
  }

  /** Every record the gateway submits passes the store's check, exactly when the
      request ID and policy name are persistable and the attempted providers have
      names: for the history calls of any run of Complete or Stream. */
  lemma GatewayRecordsAreValid(x: Run, requestID: string, policy: string, now: int, ticks: nat -> Tick, end: Ending)
    requires Promised(x)
    ensures ValidRecord(Submitted(requestID, policy, x.c.req, now, Pick(x.log, HistoryStep), ticks, end))
            <==> Persistable(requestID, policy)
                 && forall k :: 0 <= k < |AttemptsOf(x.visits)| ==> AttemptsOf(x.visits)[k].provider != ""
  {
    var attempts := AttemptsOf(x.visits);
    RunTells(x.c, x.visits);
    SubmittedIsValid(requestID, policy, x.c.req, now, attempts, HitNote(x.c, x.visits), ticks, end);
    forall k | 0 <= k < |attempts|
      ensures attempts[k].model != ""
    {
      AttemptedModelsAreNamed(x.c, x.visits, k);
    }
  }

  // --------------------------------------------- what a record says of a run

  function Named(provider: string): Option<string> { Some(Bounded(provider, MAX_PROVIDER_LENGTH)) }

  /** The provider of the latest attempt that succeeded. */
  function LatestSuccess(attempts: seq<Attempt>): Option<string>
  {
    if attempts == [] then None
    else
      var a := attempts[|attempts| - 1];
      if OutcomeOf(a) == Success then Named(a.provider) else LatestSuccess(attempts[..|attempts| - 1])
  }

  function FirstTried(attempts: seq<Attempt>): Option<string>
  {
    if attempts == [] then None else Named(attempts[0].provider)
  }

  /** The parties of a record, from the attempts alone. */
  lemma {:induction false} ReplayParties(requestID: string, policy: string, req: Request, now: int,
                                         attempts: seq<Attempt>, ticks: nat -> Tick)
    ensures Replay(Begin(requestID, policy, req, now), BooksOf(attempts).history, ticks).record.parties
            == Parties(false, FirstTried(attempts), LatestSuccess(attempts))
  {
    if attempts != [] {
      var n := |attempts| - 1;
      var front, a := attempts[..n], attempts[n];
      assert front + [a] == attempts;
      var start := Begin(requestID, policy, req, now);
      ReplayParties(requestID, policy, req, now, front, ticks);
      ReplayTells(requestID, policy, req, now, front, ticks);
      ReplayAttempt(start, front, a, ticks);
      AttemptTold(Replay(start, BooksOf(front).history, ticks), a, ticks(2 * n), ticks(2 * n + 1));
    }
  }

  ghost predicate AllTimed(h: Log, n: nat, ticks: nat -> Tick)
  {
    |h.record.attempts| == n && forall k: nat :: k < n ==> Timed(h.record.attempts[k], ticks(2 * k), ticks(2 * k + 1))
  }

  lemma AllTimedSnoc(h: Log, h': Log, n: nat, ticks: nat -> Tick)
    requires AllTimed(h, n, ticks) && |h'.record.attempts| == n + 1 && h'.record.attempts[..n] == h.record.attempts
    requires Timed(h'.record.attempts[n], ticks(2 * n), ticks(2 * n + 1))
    ensures AllTimed(h', n + 1, ticks)
  {
    forall k: nat | k < n
      ensures Timed(h'.record.attempts[k], ticks(2 * k), ticks(2 * k + 1))
    {
      assert h'.record.attempts[k] == h'.record.attempts[..n][k];
    }
  }

  /** The times of a record: each attempt's are those of its own two calls. */
  lemma {:induction false} ReplayTimes(requestID: string, policy: string, req: Request, now: int,
                                       attempts: seq<Attempt>, ticks: nat -> Tick)
    ensures AllTimed(Replay(Begin(requestID, policy, req, now), BooksOf(attempts).history, ticks), |attempts|, ticks)
  {
    if attempts != [] {
      var n := |attempts| - 1;
      var front, a := attempts[..n], attempts[n];
      assert front + [a] == attempts;
      ReplayTimes(requestID, policy, req, now, front, ticks);
      AttemptTimes(Begin(requestID, policy, req, now), front, a, ticks);
    }
  }

  lemma AttemptTimes(start: Log, attempts: seq<Attempt>, a: Attempt, ticks: nat -> Tick)
    requires AllTimed(Replay(start, BooksOf(attempts).history, ticks), |attempts|, ticks)
    ensures AllTimed(Replay(start, BooksOf(attempts + [a]).history, ticks), |attempts| + 1, ticks)
  {
    var n := |attempts|;
    var h, h' := Replay(start, BooksOf(attempts).history, ticks), Replay(start, BooksOf(attempts + [a]).history, ticks);
    assert h' == AfterAttempt(h, a, ticks(2 * n), ticks(2 * n + 1)) by { ReplayAttempt(start, attempts, a, ticks); }
    OneMoreTimed(h, h', a, n, ticks);
  }

  lemma OneMoreTimed(h: Log, h': Log, a: Attempt, n: nat, ticks: nat -> Tick)
    requires AllTimed(h, n, ticks) && h' == AfterAttempt(h, a, ticks(2 * n), ticks(2 * n + 1))
    ensures AllTimed(h', n + 1, ticks)
  {
    AttemptTold(h, a, ticks(2 * n), ticks(2 * n + 1));
    AllTimedSnoc(h, h', n, ticks);
  }

  lemma LatestSuccessAfter(visits: seq<Visit>)
    requires visits != []
    ensures var n := |visits| - 1;
            LatestSuccess(AttemptsOf(visits))
            == if visits[n].Tried? && FailureOf(visits[n].attempt).None? then Named(visits[n].attempt.provider)
               else LatestSuccess(AttemptsOf(visits[..n]))
  {
    var n := |visits| - 1;
    var attempts := AttemptsOf(visits[..n]);
    if visits[n].Tried? {
      SuccessIsNoFailure(visits[n].attempt);
      assert (attempts + [visits[n].attempt])[..|attempts|] == attempts;
    } else {
      assert attempts + [] == attempts;
    }
  }

  lemma {:induction false} GoingOnHasNoSuccess(c: Call, visits: seq<Visit>)
    requires GoesOn(c, visits)
    ensures LatestSuccess(AttemptsOf(visits)) == None
  {
    if visits != [] {
      FrontGoesOn(c, visits);
      GoingOnHasNoSuccess(c, visits[..|visits| - 1]);
      LatestSuccessAfter(visits);
    }
  }

  /** Whether a visit answered the request. */
  predicate DidAnswer(v: Visit) { v.Hit? || (v.Tried? && FailureOf(v.attempt).None?) }

  /** The latest success of a finished run is its last visit's, if that one was tried and
      did not fail. */
  lemma LatestSuccessIsLast(c: Call, visits: seq<Visit>)
    requires Walk(c, visits) && visits != []
    ensures var v := visits[|visits| - 1];
            LatestSuccess(AttemptsOf(visits)) == if v.Tried? && FailureOf(v.attempt).None? then Named(v.attempt.provider) else None
  {
    FrontGoesOn(c, visits);
    GoingOnHasNoSuccess(c, visits[..|visits| - 1]);
    LatestSuccessAfter(visits);
  }

  lemma SuccessIsNoFailure(a: Attempt)
    ensures OutcomeOf(a) == Success <==> FailureOf(a).None?
  {
  }

  /** The provider that answered a run, if any. */
  function Answering(c: Call, visits: seq<Visit>): Option<string>
    requires |visits| <= |c.ordered|
  {
    if visits != [] && DidAnswer(visits[|visits| - 1]) then Named(c.ordered[|visits| - 1].name) else None
  }

  /** The provider a run began with: the first attempted, or the one served from the
      cache when none was. */
  function BeganWith(c: Call, visits: seq<Visit>): Option<string>
    requires |visits| <= |c.ordered|
  {
    if AttemptsOf(visits) != [] then FirstTried(AttemptsOf(visits))
    else if visits != [] && visits[|visits| - 1].Hit? then Named(c.ordered[|visits| - 1].name)
    else None
  }

  /** A run answers exactly when its last visit did. */
  lemma AnsweredMeansNoFailure(x: Run)
    requires Promised(x)
    ensures !x.result.Failure? <==> x.visits != [] && DidAnswer(x.visits[|x.visits| - 1])
  {
    if x.visits != [] {
      assert VisitFits(x.c, |x.visits| - 1, x.visits[|x.visits| - 1]);
    }
  }

  /** The parties of the record of any run: it began with the first provider attempted or
      served, ended with the one that answered, and none exactly on failure; the cache is
      named exactly for a run it served. */
  lemma RecordNamesParties(x: Run, requestID: string, policy: string, now: int, ticks: nat -> Tick, end: Ending)
    requires Promised(x)
    ensures var p := Submitted(requestID, policy, x.c.req, now, Pick(x.log, HistoryStep), ticks, end).parties;
            && p.initial == BeganWith(x.c, x.visits) && p.final == Answering(x.c, x.visits)
            && (p.final.None? <==> x.result.Failure?)
            && (p.cacheHit <==> x.visits != [] && x.visits[|x.visits| - 1].Hit?)
  {
    var c, visits := x.c, x.visits;
    var start, attempts, hit := Begin(requestID, policy, c.req, now), AttemptsOf(visits), HitNote(c, visits);
    RunTells(c, visits);
    ReplayParties(requestID, policy, c.req, now, attempts, ticks);
    ReplayWithHit(start, BooksOf(attempts).history, hit, ticks);
    AnsweredMeansNoFailure(x);
    if visits != [] {
      LatestSuccessIsLast(c, visits);
      assert VisitFits(c, |visits| - 1, visits[|visits| - 1]);
    }
  }

  /** What a run of n attempts leaves in its record apart from parties and outcome: who
      asked for what, when it began and ended, and how often it was tried and fell back. */
  predicate Framed(r: RequestRecord, requestID: string, policy: string, req: Request, now: int, ended: int, n: nat)
  {
    && r.identity.requestID == requestID && r.identity.streaming == req.stream
    && r.identity.routingPolicy == Bounded(policy, MAX_POLICY_LENGTH) && r.identity.logicalModel == Bounded(req.model, MAX_MODEL_LENGTH)
    && r.span.startedAt == now && (now <= ended ==> r.span.completedAt == ended) && (ended < now ==> r.span.completedAt == now)
    && (0 <= ended - now < TWO_63 ==> r.span.durationUS * 1000 <= ended - now < r.span.durationUS * 1000 + 1000)
    && |r.attempts| == r.counts.attempts == n && (n == 0 ==> r.counts.fallbacks == 0) && (n > 0 ==> r.counts.fallbacks == n - 1)
  }

  lemma EndFrames(h: Log, requestID: string, policy: string, req: Request, now: int, end: Ending)
    requires h.record.identity == Begin(requestID, policy, req, now).record.identity && h.record.span.startedAt == now
    ensures Framed(WithEnd(h, end.contextDone, end.err, end.now), requestID, policy, req, now, end.now, |h.record.attempts|)
  {
  }

  /** The record of any run counts the providers invoked, and one fallback less, and times
      each attempt by its own calls. */
  lemma RecordCountsAttempts(x: Run, requestID: string, policy: string, now: int, ticks: nat -> Tick, end: Ending)
    requires Promised(x)
    ensures var r, n := Submitted(requestID, policy, x.c.req, now, Pick(x.log, HistoryStep), ticks, end), |Pick(x.log, InvokeStep)|;
            && Framed(r, requestID, policy, x.c.req, now, end.now, n)
            && forall k: nat :: k < n ==> Timed(r.attempts[k], ticks(2 * k), ticks(2 * k + 1))
  {
    var start, attempts, hit := Begin(requestID, policy, x.c.req, now), AttemptsOf(x.visits), HitNote(x.c, x.visits);
    RunTells(x.c, x.visits);
    RunInvokes(x.c, x.visits);
    InvokedLength(attempts);
    ReplayTells(requestID, policy, x.c.req, now, attempts, ticks);
    ReplayTimes(requestID, policy, x.c.req, now, attempts, ticks);
    HitKeepsRecord(start, BooksOf(attempts).history, hit, ticks);
    EndFrames(Replay(start, Pick(x.log, HistoryStep), ticks), requestID, policy, x.c.req, now, end);
  }

  /** What finish is given as the error of a run. */
  function ErrorOf(result: Result): Option<Error> { if result.Failure? then Some(result.err) else None }

  /** The recorded outcome of any run is success exactly when the run did not fail. */
  lemma RecordTellsSuccess(x: Run, requestID: string, policy: string, now: int, ticks: nat -> Tick, contextDone: bool, ended: int)
    ensures Submitted(requestID, policy, x.c.req, now, Pick(x.log, HistoryStep), ticks,
                      Ending(contextDone, ErrorOf(x.result), ended)).outcome == OutcomeName(Success)
            <==> !x.result.Failure?
  {
    EndTellsSuccess(Replay(Begin(requestID, policy, x.c.req, now), Pick(x.log, HistoryStep), ticks),
                    contextDone, ErrorOf(x.result), ended);
  }

  lemma EndTellsSuccess(h: Log, contextDone: bool, err: Option<Error>, ended: int)
    ensures WithEnd(h, contextDone, err, ended).outcome == OutcomeName(Success) <==> err.None?
  {
    SuccessIsItsName(RequestOutcome(contextDone, err));
    SuccessIsItsName(Canceled);
  }

  /** A failed run was given up: its context was done, its last attempt was given up, or
      its error says so itself. */
  predicate GaveUp(x: Run, contextDone: bool)
    requires x.result.Failure?
  {
    var attempts := AttemptsOf(x.visits);
    || contextDone || (attempts != [] && GivenUp(attempts[|attempts| - 1]))
    || (x.result.err.Upstream? && x.result.err.cause.kind.None? && x.result.err.cause.isCanceled)
  }

  /** The name a failure is recorded under when nobody gave up. */
  function FailureName(err: Error): string
  {
    match err
    case ModelRequired => "invalid_request"
    case MessagesRequired => "invalid_request"
    case StreamingUnsupported => "invalid_request"
    case NativeModelInAuto => "invalid_request"
    case UnsupportedRole(_) => "invalid_request"
    case CircuitIsOpen(_) => "unavailable"
    case StreamingUnavailable(_) => "internal"
    case Upstream(cause) => if cause.kind.Some? && cause.kind.value != KindUnknown then KindName(cause.kind.value) else "other_failure"
    case _ => "other_failure"
  }

  lemma EndTellsOutcome(h: Log, contextDone: bool, err: Error, ended: int)
    ensures var given := || contextDone || (h.hasAttempt && h.lastOutcome == Canceled)
                         || (err.Upstream? && err.cause.kind.None? && err.cause.isCanceled);
            WithEnd(h, contextDone, Some(err), ended).outcome == if given then "cancellation" else FailureName(err)
  {
  }

  /** What is recorded of any run that failed: a cancellation exactly if it was given up,
      and otherwise what its own error says. */
  lemma RecordTellsFailure(x: Run, requestID: string, policy: string, now: int, ticks: nat -> Tick, contextDone: bool, ended: int)
    requires Promised(x) && x.result.Failure?
    ensures Submitted(requestID, policy, x.c.req, now, Pick(x.log, HistoryStep), ticks,
                      Ending(contextDone, ErrorOf(x.result), ended)).outcome
            == if GaveUp(x, contextDone) then "cancellation" else FailureName(x.result.err)
  {
    var start, attempts, hit := Begin(requestID, policy, x.c.req, now), AttemptsOf(x.visits), HitNote(x.c, x.visits);
    RunTells(x.c, x.visits);
    ReplayTells(requestID, policy, x.c.req, now, attempts, ticks);
    ReplayWithHit(start, BooksOf(attempts).history, hit, ticks);
    if attempts != [] {
      OutcomesAreRight(attempts[|attempts| - 1]);
    }
    EndTellsOutcome(Replay(start, Pick(x.log, HistoryStep), ticks), contextDone, x.result.err, ended);
  }

  lemma SuccessIsItsName(o: Outcome)
    ensures OutcomeName(o) == OutcomeName(Success) <==> o == Success
  {
    assert |OutcomeName(Success)| == |OutcomeName(Timeout)| && OutcomeName(Success)[0] != OutcomeName(Timeout)[0];
  }

  /** A policy name accepted by a runtime update is always persistable. */
  lemma UpdatedPolicyIsPersistable(requestID: string, s: Exploration.Settings)
    requires requestID != "" && ByteLength(requestID) <= 64 && Exploration.SettingsInRange(s)
    ensures Persistable(requestID, s.policy)
  {
    if s.policy == "deterministic" {
      AsciiIsPersistable(requestID, "deterministic");
    } else if s.policy == "latency" {
      AsciiIsPersistable(requestID, "latency");
    } else if s.policy == "cost" {
      AsciiIsPersistable(requestID, "cost");
    } else {
      AsciiIsPersistable(requestID, "cost_latency");
    }
  }

  lemma AsciiIsPersistable(requestID: string, policy: string)
    requires requestID != "" && ByteLength(requestID) <= 64
    requires 0 < |policy| <= MAX_POLICY_LENGTH && forall i :: 0 <= i < |policy| ==> policy[i] < '\U{80}'
    ensures Persistable(requestID, policy)
  {
    AsciiBytes(policy);
  }

  /** ConfigureRouting also accepts the empty policy name, as deterministic, and keeps
      it as given; every record made under it is refused by the store. */
  lemma EmptyPolicyIsRefused(requestID: string, req: Request, now: int, ops: seq<HistoryOp>, ticks: nat -> Tick, end: Ending,
                             config: Exploration.Config)
    ensures Exploration.Buildable(config.(policy := ""))
    ensures !ValidRecord(Submitted(requestID, "", req, now, ops, ticks, end))
  {
    ReplayKeepsIdentity(Begin(requestID, "", req, now), ops, ticks);
  }

  lemma {:induction false} ReplayKeepsIdentity(start: Log, ops: seq<HistoryOp>, ticks: nat -> Tick)
    ensures Replay(start, ops, ticks).record.identity == start.record.identity
  {
    if ops != [] {
      ReplayKeepsIdentity(start, ops[..|ops| - 1], ticks);
    }
  }
}
