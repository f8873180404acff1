/** What a request does to everything outside it, call by call. A transcript lists the
    calls in order with their answers; `Script` says which transcript belongs to which
    walk along the providers. */
module Transcripts {
  import opened Common
  import opened Pricing
  import opened PriceDominance
  import opened Outcomes
  import opened Requests
  import CircuitBreaker

  datatype CacheKey = CacheKey(request: Request, provider: string, model: string)

  datatype Opened = OpenFailed(err: Cause) | Streaming(chunks: seq<Chunk>, end: Cause)

  datatype Invocation = Completes(response: Response, failure: Option<Cause>) | Opens(opening: Opened)

  /** One call to the outside, with its answer. */
  datatype Step =
    | EligibleAsked(provider: string, eligible: bool)
    | ContextAsked(done: bool)
    | CacheGet(key: CacheKey, answer: Option<Response>)
    | CachePut(key: CacheKey, response: Response)
    | Invoke(provider: string, model: string, invocation: Invocation)
    | Pull(chunk: Chunk)
    | PullEnd(err: Cause)
    | Close
    | Emit(chunk: Chunk, failure: Option<Cause>)
    | ToHealth(health: HealthOp)
    | ToTelemetry(telemetry: TelemetryOp)
    | ToAccounting(account: AccountOp)
    | ToHistory(history: HistoryOp)

  // ------------------------------------------------------------- the world

  /** The answers of the outside, by the number of calls made before. They are
      arbitrary, so they cover whatever other requests do in between. */
  datatype World = World(
    contextDone: nat -> bool,
    eligible: (nat, string) -> bool,
    admits: (nat, string) -> bool,
    lookup: (nat, CacheKey) -> Option<Response>,
    completes: (nat, string, string) -> (Response, Option<Cause>),
    opens: (nat, string, string) -> Opened,
    emits: (nat, Chunk) -> Option<Cause>)

  /** A context that is done stays done. */
  ghost predicate Monotone(w: World) { forall t, u :: 0 <= t <= u && w.contextDone(t) ==> w.contextDone(u) }

  /** The call at index i was answered as the world answers then. */
  predicate AnsweredAt(w: World, i: nat, s: Step)
  {
    match s
    case EligibleAsked(provider, eligible) => eligible == w.eligible(i, provider)
    case ContextAsked(done) => done == w.contextDone(i)
    case CacheGet(key, answer) => answer == w.lookup(i, key)
    case Invoke(provider, model, Completes(response, failure)) => (response, failure) == w.completes(i, provider, model)
    case Invoke(provider, model, Opens(opening)) => opening == w.opens(i, provider, model)
    case Emit(chunk, failure) => failure == w.emits(i, chunk)
    case ToHealth(Admitted(_, provider)) => w.admits(i, provider)
    case ToHealth(TurnedAway(provider)) => !w.admits(i, provider)
    case _ => true
  }

  ghost predicate Answered(w: World, log: seq<Step>)
  {
    forall i :: 0 <= i < |log| ==> AnsweredAt(w, i, log[i])
  }

  lemma AnsweredSnoc(w: World, log: seq<Step>, s: Step)
    requires Answered(w, log) && AnsweredAt(w, |log|, s)
    ensures Answered(w, log + [s])
  {
  }

  /** The handles given out so far by the circuits, by telemetry and by the record. */
  datatype Handles = Handles(health: nat, telemetry: nat, history: nat)

  /** Everything outside a request. Each method is one call, and leaves one step with its
      answer in the transcript. */
  class Surroundings {
    const w: World
    var tick: nat
    var next: Handles
    ghost var log: seq<Step>

    ghost predicate Valid()
      reads this
    {
      tick == |log| && Answered(w, log)
    }

    constructor (w: World)
      ensures Valid() && this.w == w && log == [] && next == Handles(0, 0, 0)
    {
      this.w, tick, next, log := w, 0, Handles(0, 0, 0), [];
    }

    method Note(ghost s: Step)
      requires Valid() && AnsweredAt(w, tick, s)
      modifies `tick, `log
      ensures Valid() && log == old(log) + [s]
    {
      AnsweredSnoc(w, log, s);
      tick, log := tick + 1, log + [s];
    }

    method AskEligible(provider: string) returns (eligible: bool)
      requires Valid()
      modifies `tick, `log
      ensures Valid() && log == old(log) + [EligibleAsked(provider, eligible)]
    {
      eligible := w.eligible(tick, provider);
      Note(EligibleAsked(provider, eligible));
    }

    method AskContext() returns (done: bool)
      requires Valid()
      modifies `tick, `log
      ensures Valid() && log == old(log) + [ContextAsked(done)] && done == w.contextDone(old(tick))
    {
      done := w.contextDone(tick);
      Note(ContextAsked(done));
    }

    method Lookup(key: CacheKey) returns (answer: Option<Response>)
      requires Valid()
      modifies `tick, `log
      ensures Valid() && log == old(log) + [CacheGet(key, answer)]
    {
      answer := w.lookup(tick, key);
      Note(CacheGet(key, answer));
    }

    method Store(key: CacheKey, response: Response)
      requires Valid()
      modifies `tick, `log
      ensures Valid() && log == old(log) + [CachePut(key, response)]
    {
      Note(CachePut(key, response));
    }

    /** begin: a handle when admitted. */
    method Begin(provider: string) returns (handle: Option<nat>)
      requires Valid()
      modifies this
      ensures Valid()
      ensures handle.None? ==> log == old(log) + [ToHealth(TurnedAway(provider))] && next == old(next)
      ensures handle.Some? ==> log == old(log) + [ToHealth(Admitted(handle.value, provider))]
                               && handle.value == old(next).health && next == old(next).(health := old(next).health + 1)
    {
      if !w.admits(tick, provider) {
        Note(ToHealth(TurnedAway(provider)));
        return None;
      }
      handle := Some(next.health);
      Note(ToHealth(Admitted(next.health, provider)));
      next := next.(health := next.health + 1);
    }

    method Report(handle: nat, provider: string, report: CircuitBreaker.Report)
      requires Valid()
      modifies `tick, `log
      ensures Valid() && log == old(log) + [ToHealth(Reported(handle, provider, report))]
    {
      Note(ToHealth(Reported(handle, provider, report)));
    }

    method Invokes(provider: string, model: string) returns (response: Response, failure: Option<Cause>)
      requires Valid()
      modifies `tick, `log
      ensures Valid() && log == old(log) + [Invoke(provider, model, Completes(response, failure))]
    {
      var (r, f) := w.completes(tick, provider, model);
      response, failure := r, f;
      Note(Invoke(provider, model, Completes(response, failure)));
    }

    method Open(provider: string, model: string) returns (opening: Opened)
      requires Valid()
      modifies `tick, `log
      ensures Valid() && log == old(log) + [Invoke(provider, model, Opens(opening))]
    {
      opening := w.opens(tick, provider, model);
      Note(Invoke(provider, model, Opens(opening)));
    }

    /** Next on an open stream that has delivered its first j chunks. */
    method Next(chunks: seq<Chunk>, end: Cause, j: nat) returns (chunk: Option<Chunk>)
      requires Valid() && j <= |chunks|
      modifies `tick, `log
      ensures Valid() && (chunk.Some? <==> j < |chunks|)
      ensures chunk.Some? ==> chunk.value == chunks[j] && log == old(log) + [Pull(chunk.value)]
      ensures chunk.None? ==> log == old(log) + [PullEnd(end)]
    {
      if j == |chunks| {
        Note(PullEnd(end));
        return None;
      }
      chunk := Some(chunks[j]);
      Note(Pull(chunks[j]));
    }

    method CloseStream()
      requires Valid()
      modifies `tick, `log
      ensures Valid() && log == old(log) + [Close]
    {
      Note(Close);
    }

    method EmitChunk(chunk: Chunk) returns (failure: Option<Cause>)
      requires Valid()
      modifies `tick, `log
      ensures Valid() && log == old(log) + [Emit(chunk, failure)]
    {
      failure := w.emits(tick, chunk);
      Note(Emit(chunk, failure));
    }

    method StartTelemetry(provider: string) returns (handle: nat)
      requires Valid()
      modifies this
      ensures Valid() && log == old(log) + [ToTelemetry(Started(handle, provider))]
      ensures handle == old(next).telemetry && next == old(next).(telemetry := handle + 1)
    {
      handle := next.telemetry;
      Note(ToTelemetry(Started(handle, provider)));
      next := next.(telemetry := handle + 1);
    }

    method MarkFirstContent(handle: nat, provider: string)
      requires Valid()
      modifies `tick, `log
      ensures Valid() && log == old(log) + [ToTelemetry(FirstContent(handle, provider))]
    {
      Note(ToTelemetry(FirstContent(handle, provider)));
    }

    method StopTelemetry(handle: nat, provider: string, outcome: Outcome)
      requires Valid()
      modifies `tick, `log
      ensures Valid() && log == old(log) + [ToTelemetry(Stopped(handle, provider, outcome))]
    {
      Note(ToTelemetry(Stopped(handle, provider, outcome)));
    }

    method RecordUsage(provider: string, model: string, usage: Option<Usage>)
      requires Valid()
      modifies `tick, `log
      ensures Valid() && log == old(log) + [ToAccounting(AccountOp(provider, model, usage))]
    {
      Note(ToAccounting(AccountOp(provider, model, usage)));
    }

    method StartHistory(provider: string, model: string) returns (index: nat)
      requires Valid()
      modifies this
      ensures Valid() && log == old(log) + [ToHistory(StartAttempt(provider, model))]
      ensures index == old(next).history && next == old(next).(history := index + 1)
    {
      index := next.history;
      Note(ToHistory(StartAttempt(provider, model)));
      next := next.(history := index + 1);
    }

    method FinishHistory(index: nat, outcome: Outcome, hasTTFC: bool, usage: Option<Usage>)
      requires Valid()
      modifies `tick, `log
      ensures Valid() && log == old(log) + [ToHistory(FinishAttempt(index, outcome, hasTTFC, usage))]
    {
      Note(ToHistory(FinishAttempt(index, outcome, hasTTFC, usage)));
    }

    method HitHistory(provider: string)
      requires Valid()
      modifies `tick, `log
      ensures Valid() && log == old(log) + [ToHistory(CacheHit(provider))]
    {
      Note(ToHistory(CacheHit(provider)));
    }
  }

  // -------------------------------------------------------------- the walk

  /** What the cache part of a round learnt; what was not asked is false or nothing. */
  datatype Consult = Consult(eligible: bool, done: bool, answer: Option<Response>, stillEligible: bool, stillDone: bool)

  const NOT_CONSULTED := Consult(false, false, None, false, false)

  predicate Caches(c: Call) { c.s.cacheEnabled && !c.streams }

  /** A key was made, so an answer may be stored under it later. */
  predicate Keyed(q: Consult) { q.eligible && !q.done }

  function HitOf(q: Consult): Option<Response>
  {
    if Keyed(q) && q.answer.Some? && q.stillEligible && !q.stillDone then q.answer else None
  }

  /** What became of a position of the order: no model is mapped for it, the cache
      answered for it, its circuit turned it away, or it was invoked; and then what the
      context answered when asked once more, before storing or falling back. */
  datatype Visit =
    | NoMapping
    | Hit(consult: Consult)
    | Barred(consult: Consult)
    | Tried(consult: Consult, attempt: Attempt, after: Option<bool>)

  /** Whether the context is asked once more after an attempt: before storing a cacheable
      answer, or before falling back from a failure the client has seen nothing of. */
  predicate AsksAgain(c: Call, q: Consult, a: Attempt)
  {
    if a.end.EmitFailed? then false
    else if FailureOf(a).None? then a.end.Completed? && Keyed(q)
    else c.s.fallback && ShownBy(c, a) == []
  }

  /** The client's side fails only while it is shown a chunk. */
  predicate Possible(end: End)
  {
    end.EmitFailed? ==> end.consumed != [] && ClientVisible(end.consumed[|end.consumed| - 1])
  }

  /** An attempt made at a position: of its provider, under the model it resolves to. */
  predicate AttemptFits(c: Call, i: nat, a: Attempt)
    requires i < |c.ordered|
  {
    && a.position == i && a.provider == c.ordered[i].name && ModelAt(c, i) == Resolved(a.model)
    && (c.streams <==> !a.end.Completed?) && Possible(a.end)
  }

  predicate VisitFits(c: Call, i: nat, v: Visit)
    requires i < |c.ordered|
  {
    if v.NoMapping? then c.s.fallback && ModelAt(c, i) == Unresolved(MissingMapping)
    else
      && ModelAt(c, i).Resolved? && (c.streams ==> c.ordered[i].streaming)
      && (!Caches(c) ==> v.consult == NOT_CONSULTED) && (v.Hit? <==> HitOf(v.consult).Some?)
      && (v.Tried? ==> && AttemptFits(c, i, v.attempt)
                       && (v.after.Some? <==> AsksAgain(c, v.consult, v.attempt))
                       && (v.attempt.contextDone ==> v.after != Some(false)))
  }

  /** A visit after which the next position is looked at. */
  predicate PassesOn(c: Call, v: Visit)
  {
    match v
    case NoMapping => true
    case Hit(_) => false
    case Barred(_) => c.s.fallback
    case Tried(_, a, after) => FailureOf(a).Some? && EligibleForFallback(FailureOf(a).value) && after == Some(false)
  }

  /** A walk: a visit of each position in turn, each but the last passing on. */
  ghost predicate Walk(c: Call, visits: seq<Visit>)
  {
    && |visits| <= |c.ordered|
    && (forall i :: 0 <= i < |visits| ==> VisitFits(c, i, visits[i]))
    && (forall i :: 0 <= i < |visits| - 1 ==> PassesOn(c, visits[i]))
  }

  ghost predicate GoesOn(c: Call, visits: seq<Visit>)
  {
    Walk(c, visits) && (visits != [] ==> PassesOn(c, visits[|visits| - 1]))
  }

  /** A walk that is about to look at a position its provider cannot stream from. */
  ghost predicate CannotStream(c: Call, visits: seq<Visit>)
  {
    && GoesOn(c, visits) && |visits| < |c.ordered| && ModelAt(c, |visits|).Resolved?
    && c.streams && !c.ordered[|visits|].streaming
  }

  /** A walk that is about to look at a position whose model cannot be resolved. */
  ghost predicate CannotResolve(c: Call, visits: seq<Visit>)
  {
    && GoesOn(c, visits) && |visits| < |c.ordered| && ModelAt(c, |visits|).Unresolved?
    && !(c.s.fallback && ModelAt(c, |visits|).err == MissingMapping)
  }

  /** A walk that ends there: its last visit keeps it, the order is exhausted, or the
      next position cannot be used. */
  ghost predicate Finished(c: Call, visits: seq<Visit>)
  {
    Walk(c, visits) && (!GoesOn(c, visits) || |visits| == |c.ordered| || CannotStream(c, visits) || CannotResolve(c, visits))
  }

  /** The error of the latest position that had a mapping. */
  function LastError(c: Call, visits: seq<Visit>): Error
    requires |visits| <= |c.ordered|
  {
    if visits == [] then NoUsableModelMapping
    else
      var last := visits[|visits| - 1];
      if last.Barred? then CircuitIsOpen(c.ordered[|visits| - 1].name)
      else if last.Tried? && FailureOf(last.attempt).Some? then FailureOf(last.attempt).value
      else LastError(c, visits[..|visits| - 1])
  }

  datatype Result = Answer(response: Response) | Streamed | Failure(err: Error)

  /** What a last visit that does not pass on leaves the caller with. */
  function EndOf(c: Call, i: nat, v: Visit): Result
    requires i < |c.ordered|
  {
    match v
    case NoMapping => Failure(MissingMapping)
    case Hit(q) => if q.answer.Some? then Answer(q.answer.value) else Failure(MissingMapping)
    case Barred(_) => Failure(CircuitIsOpen(c.ordered[i].name))
    case Tried(_, a, _) =>
      if FailureOf(a).Some? then Failure(FailureOf(a).value)
      else if a.end.Completed? then Answer(Returned(c, a.end.response))
      else Streamed
  }

  /** What a finished walk returns. */
  ghost function ResultOf(c: Call, visits: seq<Visit>): Result
    requires Finished(c, visits)
  {
    if !GoesOn(c, visits) then EndOf(c, |visits| - 1, visits[|visits| - 1])
    else if |visits| == |c.ordered| then Failure(LastError(c, visits))
    else if CannotStream(c, visits) then Failure(StreamingUnavailable(c.ordered[|visits|].name))
    else Failure(ModelAt(c, |visits|).err)
  }

  function AttemptsOf(visits: seq<Visit>): seq<Attempt>
  {
    if visits == [] then []
    else
      var last := visits[|visits| - 1];
      AttemptsOf(visits[..|visits| - 1]) + (if last.Tried? then [last.attempt] else [])
  }

  // ------------------------------------------------------------ the script

  /** A value found is used only if the circuit and the context still allow it. */
  function ConfirmSteps(provider: string, eligible: bool, done: bool): seq<Step>
  {
    if !eligible then [EligibleAsked(provider, false)] else [EligibleAsked(provider, true)] + [ContextAsked(done)]
  }

  function ConsultSteps(c: Call, key: CacheKey, q: Consult): seq<Step>
  {
    if !Caches(c) then []
    else if !q.eligible then [EligibleAsked(key.provider, false)]
    else if q.done then [EligibleAsked(key.provider, true)] + [ContextAsked(true)]
    else
      [EligibleAsked(key.provider, true)] + [ContextAsked(false)] + [CacheGet(key, q.answer)]
      + (if q.answer.None? then [] else ConfirmSteps(key.provider, q.stillEligible, q.stillDone))
  }

  function OpeningSteps(n: nat, provider: string, model: string): seq<Step>
  {
    [ToHealth(Admitted(n, provider))] + [ToHistory(StartAttempt(provider, model))] + [ToTelemetry(Started(n, provider))]
  }

  /** What one chunk leads to: the first content is marked, and a visible chunk shown. */
  function ChunkSteps(c: Call, n: nat, provider: string, before: seq<Chunk>, chunk: Chunk, failure: Option<Cause>): seq<Step>
  {
    [Pull(chunk)]
    + (if chunk.content != "" && !HasContent(before) then [ToTelemetry(FirstContent(n, provider))] else [])
    + (if ClientVisible(chunk) then [Emit(Restored(chunk, IsLogical(c.req.model), c.req.model), failure)] else [])
  }

  function RelaySteps(c: Call, n: nat, provider: string, chunks: seq<Chunk>): seq<Step>
  {
    if chunks == [] then []
    else
      var front := chunks[..|chunks| - 1];
      RelaySteps(c, n, provider, front) + ChunkSteps(c, n, provider, front, chunks[|chunks| - 1], None)
  }

  function InvocationOf(end: End): Invocation
  {
    match end
    case Completed(response, failure) => Completes(response, failure)
    case Refused(err) => Opens(OpenFailed(err))
    case Ended(consumed, err) => Opens(Streaming(consumed, err))
    case EmitFailed(consumed, unread, ending, _) => Opens(Streaming(consumed + unread, ending))
  }

  /** The stream read and relayed, then closed, once. */
  function StreamSteps(c: Call, n: nat, provider: string, end: End): seq<Step>
    requires Possible(end)
  {
    match end
    case Completed(_, _) => []
    case Refused(_) => []
    case Ended(consumed, err) => RelaySteps(c, n, provider, consumed) + [PullEnd(err)] + [Close]
    case EmitFailed(consumed, _, _, err) =>
      var front := consumed[..|consumed| - 1];
      RelaySteps(c, n, provider, front) + ChunkSteps(c, n, provider, front, consumed[|consumed| - 1], Some(err)) + [Close]
  }

  /** The context is asked while classifying a failure, except one of the client's side. */
  predicate AsksContext(end: End) { !end.EmitFailed? && EndFailure(end).Some? }

  function ClosingSteps(n: nat, a: Attempt): seq<Step>
  {
    [ToAccounting(AccountOp(a.provider, a.model, UsageOf(a)))]
    + (if AsksContext(a.end) then [ContextAsked(a.contextDone)] else [])
    + [ToHealth(Reported(n, a.provider, ReportOf(OutcomeOf(a))))] + [ToTelemetry(Stopped(n, a.provider, OutcomeOf(a)))]
    + [ToHistory(FinishAttempt(n, OutcomeOf(a), HasContent(Consumed(a)), UsageOf(a)))]
  }

  function AttemptSteps(c: Call, n: nat, a: Attempt): seq<Step>
    requires Possible(a.end)
  {
    OpeningSteps(n, a.provider, a.model) + [Invoke(a.provider, a.model, InvocationOf(a.end))]
    + StreamSteps(c, n, a.provider, a.end) + ClosingSteps(n, a)
  }

  function KeyOf(c: Call, provider: string, model: string): CacheKey { CacheKey(c.req, provider, model) }

  function AfterSteps(c: Call, a: Attempt, after: Option<bool>): seq<Step>
  {
    if after.None? then []
    else if a.end.Completed? && a.end.failure.None? && !after.value then
      [ContextAsked(false)] + [CachePut(KeyOf(c, a.provider, a.model), Returned(c, a.end.response))]
    else [ContextAsked(after.value)]
  }

  /** The calls of one visit, when n attempts were made before. */
  function VisitSteps(c: Call, n: nat, i: nat, v: Visit): seq<Step>
    requires i < |c.ordered| && VisitFits(c, i, v)
  {
    if v.NoMapping? then []
    else
      var provider := c.ordered[i].name;
      ConsultSteps(c, KeyOf(c, provider, ModelAt(c, i).model), v.consult)
      + match v
        case Hit(_) => [ToHistory(CacheHit(provider))]
        case Barred(_) => [ToHealth(TurnedAway(provider))]
        case Tried(_, a, after) => AttemptSteps(c, n, a) + AfterSteps(c, a, after)
  }

  /** The whole transcript of a walk. */
  ghost function Script(c: Call, visits: seq<Visit>): seq<Step>
    requires Walk(c, visits)
  {
    if visits == [] then []
    else
      var front := visits[..|visits| - 1];
      Script(c, front) + VisitSteps(c, |AttemptsOf(front)|, |visits| - 1, visits[|visits| - 1])
  }

  /** What a run of Complete or Stream promises: its calls are exactly those of a
      finished walk, and it returns what that walk comes to. A refused request makes
      no call. */
  ghost predicate Lawful(c: Call, log: seq<Step>, visits: seq<Visit>, result: Result)
  {
    && Walk(c, visits) && log == Script(c, visits)
    && if Acceptable(c) then Finished(c, visits) && result == ResultOf(c, visits)
       else visits == [] && result.Failure? && RefusalExplained(c, result.err)
  }

  /** A run of Complete or Stream, with what it promised. */
  datatype Run = Run(c: Call, log: seq<Step>, visits: seq<Visit>, result: Result)

  ghost predicate Promised(x: Run) { Lawful(x.c, x.log, x.visits, x.result) }

  ghost predicate AllPromised(runs: nat -> Run) { forall r: nat {:trigger Promised(runs(r))} :: Promised(runs(r)) }

  lemma WalkSnoc(c: Call, visits: seq<Visit>, v: Visit)
    requires GoesOn(c, visits) && |visits| < |c.ordered| && VisitFits(c, |visits|, v)
    ensures Walk(c, visits + [v]) && (GoesOn(c, visits + [v]) <==> PassesOn(c, v))
    ensures Script(c, visits + [v]) == Script(c, visits) + VisitSteps(c, |AttemptsOf(visits)|, |visits|, v)
    ensures AttemptsOf(visits + [v]) == AttemptsOf(visits) + (if v.Tried? then [v.attempt] else [])
  {
    var longer := visits + [v];
    assert longer[..|visits|] == visits;
    forall i | 0 <= i < |visits|
      ensures VisitFits(c, i, longer[i]) && PassesOn(c, longer[i])
    {
      assert longer[i] == visits[i];
    }
  }

  lemma LastErrorSnoc(c: Call, visits: seq<Visit>, v: Visit)
    requires |visits| < |c.ordered|
    ensures v.Barred? ==> LastError(c, visits + [v]) == CircuitIsOpen(c.ordered[|visits|].name)
    ensures v.Tried? && FailureOf(v.attempt).Some? ==> LastError(c, visits + [v]) == FailureOf(v.attempt).value
    ensures v.NoMapping? || v.Hit? ==> LastError(c, visits + [v]) == LastError(c, visits)
  {
    assert (visits + [v])[..|visits|] == visits;
  }
}
