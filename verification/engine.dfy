/** The request engine: Complete and Stream (internal/gateway/service.go). Both walk
    along the ordered providers and act on their surroundings call by call; each method
    states the exact calls it made. */
module Engine {
  import opened Common
  import opened Pricing
  import opened PriceDominance
  import opened Outcomes
  import opened Requests
  import opened Transcripts

  method ConfirmHit(env: Surroundings, provider: string) returns (eligible: bool, done: bool)
    requires env.Valid()
    modifies env`tick, env`log
    ensures env.Valid() && env.log == old(env.log) + ConfirmSteps(provider, eligible, done)
  {
    done := false;
    eligible := env.AskEligible(provider);
    if eligible { done := env.AskContext(); }
  }

  /** The cache part of a round: the circuit and the context are consulted before the
      lookup and after it. */
  method ConsultCache(c: Call, env: Surroundings, key: CacheKey) returns (q: Consult)
    requires env.Valid()
    modifies env`tick, env`log
    ensures env.Valid() && env.log == old(env.log) + ConsultSteps(c, key, q)
    ensures !Caches(c) ==> q == NOT_CONSULTED
  {
    q := NOT_CONSULTED;
    if !Caches(c) { return; }
    var eligible := env.AskEligible(key.provider);
    if !eligible { return; }
    var done := env.AskContext();
    if done { return Consult(true, true, None, false, false); }
    var answer := env.Lookup(key);
    if answer.None? { return Consult(true, false, None, false, false); }
    var stillEligible, stillDone := ConfirmHit(env, key.provider);
    q := Consult(true, false, answer, stillEligible, stillDone);
  }

  /** classifyProviderOutcome asks the context only about a failure; a failure of the
      client's side is not classified at all. */
  method Classification(env: Surroundings, end: End) returns (done: bool, outcome: Outcome)
    requires env.Valid() && Monotone(env.w)
    modifies env`tick, env`log
    ensures env.Valid() && (done ==> AsksContext(end) && env.w.contextDone(env.tick))
    ensures env.log == old(env.log) + (if AsksContext(end) then [ContextAsked(done)] else [])
    ensures outcome == EndOutcome(end, done)
  {
    done := false;
    if end.EmitFailed? { return done, Canceled; }
    if EndFailure(end).Some? { done := env.AskContext(); }
    outcome := Classify(done, EndFailure(end));
  }

  lemma ClosingChain(log: seq<Step>, n: nat, a: Attempt)
    ensures log + [ToAccounting(AccountOp(a.provider, a.model, UsageOf(a)))]
            + (if AsksContext(a.end) then [ContextAsked(a.contextDone)] else [])
            + [ToHealth(Reported(n, a.provider, ReportOf(OutcomeOf(a))))] + [ToTelemetry(Stopped(n, a.provider, OutcomeOf(a)))]
            + [ToHistory(FinishAttempt(n, OutcomeOf(a), HasContent(Consumed(a)), UsageOf(a)))]
            == log + ClosingSteps(n, a)
  {
  }

  /** The end of every attempt: account, classify, report, and finish both records. */
  method SettleAttempt(env: Surroundings, n: nat, position: nat, provider: string, model: string, end: End,
                       usage: Option<Usage>, ttfc: bool)
    returns (a: Attempt)
    requires env.Valid() && Monotone(env.w) && usage == EndUsage(end) && ttfc == HasContent(EndConsumed(end))
    modifies env`tick, env`log
    ensures env.Valid() && env.log == old(env.log) + ClosingSteps(n, a)
    ensures a == Attempt(position, provider, model, end, a.contextDone)
    ensures a.contextDone ==> AsksContext(end) && env.w.contextDone(env.tick)
  {
    env.RecordUsage(provider, model, usage);
    var done, outcome := Classification(env, end);
    env.Report(n, provider, ReportOf(outcome));
    env.StopTelemetry(n, provider, outcome);
    env.FinishHistory(n, outcome, ttfc, usage);
    a := Attempt(position, provider, model, end, done);
    ClosingChain(old(env.log), n, a);
  }

  /** The start of every admitted attempt; all three handles number it. */
  method OpenAttempt(env: Surroundings, n: nat, provider: string, model: string)
    requires env.Valid() && env.next == Handles(n + 1, n, n)
    modifies env
    ensures env.Valid() && env.next == Handles(n + 1, n + 1, n + 1)
    ensures env.log == old(env.log) + [ToHistory(StartAttempt(provider, model))] + [ToTelemetry(Started(n, provider))]
  {
    var index := env.StartHistory(provider, model);
    var handle := env.StartTelemetry(provider);
  }

  // ------------------------------------------------------- non-streaming

  /** One admitted non-streaming attempt, from startAttempt to finishAttempt: the
      provider is invoked once. */
  method AttemptCompletion(c: Call, env: Surroundings, i: nat, n: nat, provider: string, model: string, ghost base: seq<Step>)
    returns (a: Attempt)
    requires env.Valid() && Monotone(env.w) && env.next == Handles(n + 1, n, n)
    requires env.log == base + [ToHealth(Admitted(n, provider))]
    modifies env
    ensures env.Valid() && env.next == Handles(n + 1, n + 1, n + 1)
    ensures a.position == i && a.provider == provider && a.model == model && a.end.Completed?
    ensures env.log == base + AttemptSteps(c, n, a)
    ensures a.contextDone ==> AsksContext(a.end) && env.w.contextDone(env.tick)
  {
    OpenAttempt(env, n, provider, model);
    var response, failure := env.Invokes(provider, model);
    ghost var invoked := env.log;
    a := SettleAttempt(env, n, i, provider, model, Completed(response, failure), response.usage, false);
    CompletionSteps(c, n, a, base);
    assert env.log == invoked + ClosingSteps(n, a);
  }

  lemma CompletionSteps(c: Call, n: nat, a: Attempt, base: seq<Step>)
    requires a.end.Completed?
    ensures base + [ToHealth(Admitted(n, a.provider))] + [ToHistory(StartAttempt(a.provider, a.model))]
            + [ToTelemetry(Started(n, a.provider))] + [Invoke(a.provider, a.model, InvocationOf(a.end))] + ClosingSteps(n, a)
            == base + AttemptSteps(c, n, a)
  {
    var closing := ClosingSteps(n, a);
    assert [] + closing == closing;
  }

  // ------------------------------------------------------------- a round

  /** How one round of a provider loop ends. */
  datatype Round = Return(result: Result) | Next(lastErr: Error)

  /** The error a visit leaves for the end of the order; a position without a mapping
      leaves the one before it. */
  function ErrorAfter(c: Call, i: nat, v: Visit, lastErr: Error): Error
    requires i < |c.ordered|
  {
    if v.Barred? then CircuitIsOpen(c.ordered[i].name)
    else if v.Tried? && FailureOf(v.attempt).Some? then FailureOf(v.attempt).value
    else lastErr
  }

  function RoundOf(c: Call, i: nat, v: Visit, lastErr: Error): Round
    requires i < |c.ordered|
  {
    if PassesOn(c, v) then Next(ErrorAfter(c, i, v, lastErr)) else Return(EndOf(c, i, v))
  }

  /** What keeps a position from being used at all: its error, which ends the request. */
  function BlockedBy(c: Call, i: nat): Option<Error>
    requires i < |c.ordered|
  {
    var model := ModelAt(c, i);
    if model.Unresolved? then if c.s.fallback && model.err == MissingMapping then None else Some(model.err)
    else if c.streams && !c.ordered[i].streaming then Some(StreamingUnavailable(c.ordered[i].name))
    else None
  }

  /** What a round does at position i, n attempts having been made before: it makes
      exactly the calls of one visit and decides as that visit does; a blocked position
      gets no call and ends the request. */
  ghost predicate Rounded(c: Call, i: nat, n: nat, was: seq<Step>, env: Surroundings, lastErr: Error, v: Option<Visit>, round: Round)
    reads env
    requires i < |c.ordered|
  {
    && env.Valid() && (v.None? <==> BlockedBy(c, i).Some?)
    && if v.None? then
         env.log == was && env.next == Handles(n, n, n) && round == Return(Failure(BlockedBy(c, i).value))
       else
         && VisitFits(c, i, v.value) && env.log == was + VisitSteps(c, n, i, v.value) && round == RoundOf(c, i, v.value, lastErr)
         && var n' := n + (if v.value.Tried? then 1 else 0); env.next == Handles(n', n', n')
  }

  function KeyAt(c: Call, i: nat): CacheKey
    requires i < |c.ordered| && ModelAt(c, i).Resolved?
  {
    KeyOf(c, c.ordered[i].name, ModelAt(c, i).model)
  }

  /** A position whose circuit was asked, and what the cache had said of it. */
  predicate Askable(c: Call, i: nat, q: Consult)
    requires i < |c.ordered|
  {
    && BlockedBy(c, i).None? && ModelAt(c, i).Resolved?
    && HitOf(q).None? && (!Caches(c) ==> q == NOT_CONSULTED)
  }

  lemma TriedFits(c: Call, i: nat, q: Consult, a: Attempt, after: Option<bool>)
    requires i < |c.ordered| && Askable(c, i, q) && AttemptFits(c, i, a)
    requires (after.Some? <==> AsksAgain(c, q, a)) && (a.contextDone ==> after != Some(false))
    ensures VisitFits(c, i, Tried(q, a, after))
  {
  }

  /** The calls of an attempt and of what comes before and after it, put together. */
  lemma TriedSteps(c: Call, n: nat, i: nat, v: Visit, was: seq<Step>)
    requires i < |c.ordered| && v.Tried? && VisitFits(c, i, v)
    ensures was + ConsultSteps(c, KeyAt(c, i), v.consult) + AttemptSteps(c, n, v.attempt) + AfterSteps(c, v.attempt, v.after)
            == was + VisitSteps(c, n, i, v)
  {
    var consult, attempt, after := ConsultSteps(c, KeyAt(c, i), v.consult), AttemptSteps(c, n, v.attempt),
                                   AfterSteps(c, v.attempt, v.after);
    Regrouped(was, consult, attempt, after);
    Reassociate(consult, attempt, after);
  }

  /** After an attempt that succeeded: the answer under the logical model, stored exactly
      when a key was made and the context is live. */
  method ConcludeCompletion(c: Call, env: Surroundings, q: Consult, a: Attempt) returns (answer: Response, after: Option<bool>)
    requires env.Valid() && a.end.Completed? && a.end.failure.None?
    modifies env`tick, env`log
    ensures env.Valid() && env.log == old(env.log) + AfterSteps(c, a, after)
    ensures answer == Returned(c, a.end.response) && (after.Some? <==> AsksAgain(c, q, a))
  {
    answer := Returned(c, a.end.response);
    after := None;
    if !Keyed(q) { return; }
    var done := env.AskContext();
    after := Some(done);
    if !done { env.Store(KeyOf(c, a.provider, a.model), answer); }
  }

  /** After an attempt that failed before the client saw anything of it: whether to go on. */
  method DecideFallback(c: Call, env: Surroundings, a: Attempt) returns (goOn: bool, after: Option<bool>)
    requires env.Valid() && Monotone(env.w) && FailureOf(a).Some?
    requires a.contextDone ==> env.w.contextDone(env.tick)
    modifies env`tick, env`log
    ensures env.Valid() && env.log == old(env.log) + AfterSteps(c, a, after)
    ensures after.Some? <==> c.s.fallback
    ensures a.contextDone ==> after != Some(false)
    ensures goOn <==> EligibleForFallback(FailureOf(a).value) && after == Some(false)
  {
    goOn, after := false, None;
    if !c.s.fallback { return; }
    var done := env.AskContext();
    after := Some(done);
    goOn := !done && EligibleForFallback(FailureOf(a).value);
  }

  /** What an attempt leads to in Complete: answer and store, give up, or go on. */
  method AfterCompletion(c: Call, env: Surroundings, q: Consult, a: Attempt, ghost i: nat, ghost lastErr: Error)
    returns (round: Round, after: Option<bool>)
    requires env.Valid() && Monotone(env.w) && a.end.Completed? && i < |c.ordered|
    requires a.contextDone ==> AsksContext(a.end) && env.w.contextDone(env.tick)
    modifies env`tick, env`log
    ensures env.Valid() && env.log == old(env.log) + AfterSteps(c, a, after)
    ensures (after.Some? <==> AsksAgain(c, q, a)) && (a.contextDone ==> after != Some(false))
    ensures round == RoundOf(c, i, Tried(q, a, after), lastErr)
  {
    if a.end.failure.None? {
      var answer;
      answer, after := ConcludeCompletion(c, env, q, a);
      return Return(Answer(answer)), after;
    }
    var goOn;
    goOn, after := DecideFallback(c, env, a);
    round := if goOn then Next(FailureOf(a).value) else Return(Failure(FailureOf(a).value));
  }

  /** What follows an admission in Complete: invoke, settle, then answer, give up or go on. */
  method TryCompletion(c: Call, env: Surroundings, i: nat, q: Consult, n: nat, ghost was: seq<Step>, ghost lastErr: Error)
    returns (round: Round, ghost v: Visit)
    requires !c.streams && Monotone(env.w) && env.Valid() && i < |c.ordered| && Askable(c, i, q)
    requires env.next == Handles(n + 1, n, n)
    requires env.log == was + ConsultSteps(c, KeyAt(c, i), q) + [ToHealth(Admitted(n, c.ordered[i].name))]
    modifies env
    ensures v.Tried? && Rounded(c, i, n, was, env, lastErr, Some(v), round)
  {
    ghost var base := was + ConsultSteps(c, KeyAt(c, i), q);
    var a := AttemptCompletion(c, env, i, n, c.ordered[i].name, ModelAt(c, i).model, base);
    var after;
    round, after := AfterCompletion(c, env, q, a, i, lastErr);
    TriedFits(c, i, q, a, after);
    v := Tried(q, a, after);
    TriedSteps(c, n, i, v, was);
  }

  /** The circuit is asked once. Turned away, the request goes on to the next position
      if it may fall back, and fails if not. */
  method AskAdmission(c: Call, env: Surroundings, i: nat, q: Consult, ghost n: nat, ghost was: seq<Step>, ghost lastErr: Error)
    returns (handle: Option<nat>, barred: Round)
    requires env.Valid() && i < |c.ordered| && Askable(c, i, q) && env.next == Handles(n, n, n)
    requires env.log == was + ConsultSteps(c, KeyAt(c, i), q)
    modifies env
    ensures handle.None? ==> Rounded(c, i, n, was, env, lastErr, Some(Barred(q)), barred)
    ensures handle.Some? ==> handle.value == n && env.Valid() && env.next == Handles(n + 1, n, n)
                             && env.log == was + ConsultSteps(c, KeyAt(c, i), q) + [ToHealth(Admitted(n, c.ordered[i].name))]
  {
    handle := env.Begin(c.ordered[i].name);
    var err := CircuitIsOpen(c.ordered[i].name);
    barred := if c.s.fallback then Next(err) else Return(Failure(err));
  }

  /** A cache hit is told to the history and to nobody else. */
  method AnswerFromCache(c: Call, env: Surroundings, i: nat, q: Consult, ghost n: nat, ghost was: seq<Step>, ghost lastErr: Error)
    returns (round: Round)
    requires env.Valid() && i < |c.ordered| && env.next == Handles(n, n, n) && Caches(c) && HitOf(q).Some?
    requires BlockedBy(c, i).None? && ModelAt(c, i).Resolved?
    requires env.log == was + ConsultSteps(c, KeyAt(c, i), q)
    modifies env`tick, env`log
    ensures Rounded(c, i, n, was, env, lastErr, Some(Hit(q)), round)
  {
    env.HitHistory(c.ordered[i].name);
    round := Return(Answer(HitOf(q).value));
  }

  /** One round of Complete's loop: resolve, consult the cache, ask for admission. */
  method CompletionRound(c: Call, env: Surroundings, i: nat, ghost n: nat, lastErr: Error)
    returns (round: Round, ghost v: Option<Visit>)
    requires !c.streams && Monotone(env.w) && env.Valid() && i < |c.ordered| && env.next == Handles(n, n, n)
    modifies env
    ensures Rounded(c, i, n, old(env.log), env, lastErr, v, round)
  {
    var model := ModelAt(c, i);
    if model.Unresolved? {
      if c.s.fallback && model.err == MissingMapping { return Next(lastErr), Some(NoMapping); }
      return Return(Failure(model.err)), None;
    }
    var q := ConsultCache(c, env, KeyAt(c, i));
    if HitOf(q).Some? {
      round := AnswerFromCache(c, env, i, q, n, old(env.log), lastErr);
      return round, Some(Hit(q));
    }
    var handle, barred := AskAdmission(c, env, i, q, n, old(env.log), lastErr);
    if handle.None? { return barred, Some(Barred(q)); }
    ghost var tried;
    round, tried := TryCompletion(c, env, i, q, handle.value, old(env.log), lastErr);
    v := Some(tried);
  }

  // ------------------------------------------------------------ the loop

  /** The walk so far, with every call made for it, and every handle given out. */
  ghost predicate Recorded(c: Call, env: Surroundings, visits: seq<Visit>)
    reads env
  {
    && env.Valid() && Walk(c, visits) && env.log == Script(c, visits)
    && env.next == Handles(|AttemptsOf(visits)|, |AttemptsOf(visits)|, |AttemptsOf(visits)|)
  }

  /** What the provider loop keeps when it is about to look at position i. */
  ghost predicate Looping(c: Call, env: Surroundings, i: nat, visits: seq<Visit>, lastErr: Error)
    reads env
  {
    Recorded(c, env, visits) && GoesOn(c, visits) && |visits| == i && lastErr == LastError(c, visits)
  }

  ghost predicate RoundKept(c: Call, env: Surroundings, i: nat, visits: seq<Visit>, round: Round)
    reads env
  {
    match round
    case Return(result) => Recorded(c, env, visits) && Finished(c, visits) && result == ResultOf(c, visits)
    case Next(lastErr) => i < |c.ordered| && Looping(c, env, i + 1, visits, lastErr)
  }

  function Extended(visits: seq<Visit>, v: Option<Visit>): seq<Visit>
  {
    if v.None? then visits else visits + [v.value]
  }

  /** A visit's calls, appended to those of the walk before it. */
  lemma VisitRecorded(c: Call, env: Surroundings, visits: seq<Visit>, v: Visit, lastErr: Error, round: Round)
    requires GoesOn(c, visits) && |visits| < |c.ordered|
    requires Rounded(c, |visits|, |AttemptsOf(visits)|, Script(c, visits), env, lastErr, Some(v), round)
    ensures Recorded(c, env, visits + [v])
  {
    WalkSnoc(c, visits, v);
  }

  /** What a visit decides: the loop goes on with its error, or ends with its result. */
  lemma VisitDecides(c: Call, visits: seq<Visit>, v: Visit)
    requires GoesOn(c, visits) && |visits| < |c.ordered| && VisitFits(c, |visits|, v)
    ensures PassesOn(c, v) ==> GoesOn(c, visits + [v])
    ensures !PassesOn(c, v) ==> Finished(c, visits + [v]) && ResultOf(c, visits + [v]) == EndOf(c, |visits|, v)
  {
    WalkSnoc(c, visits, v);
  }

  lemma ErrorFollows(c: Call, visits: seq<Visit>, v: Visit)
    requires |visits| < |c.ordered|
    ensures LastError(c, visits + [v]) == ErrorAfter(c, |visits|, v, LastError(c, visits))
  {
    LastErrorSnoc(c, visits, v);
  }

  lemma BlockedEnds(c: Call, visits: seq<Visit>)
    requires GoesOn(c, visits) && |visits| < |c.ordered| && BlockedBy(c, |visits|).Some?
    ensures Finished(c, visits) && ResultOf(c, visits) == Failure(BlockedBy(c, |visits|).value)
  {
  }

  lemma RoundExtends(c: Call, env: Surroundings, i: nat, visits: seq<Visit>, lastErr: Error, v: Option<Visit>, round: Round)
    requires GoesOn(c, visits) && |visits| == i < |c.ordered| && lastErr == LastError(c, visits)
    requires Rounded(c, i, |AttemptsOf(visits)|, Script(c, visits), env, lastErr, v, round)
    ensures RoundKept(c, env, i, Extended(visits, v), round)
  {
    if v.None? {
      BlockedEnds(c, visits);
    } else {
      VisitRecorded(c, env, visits, v.value, lastErr, round);
      VisitDecides(c, visits, v.value);
      ErrorFollows(c, visits, v.value);
    }
  }

  /** Complete. Whatever its surroundings answer, its calls are exactly those of a walk
      along the ordered providers, and its result is what that walk comes to. */
  method Complete(c: Call, env: Surroundings) returns (result: Result, ghost visits: seq<Visit>)
    requires !c.streams && Monotone(env.w) && env.Valid() && env.log == [] && env.next == Handles(0, 0, 0)
    modifies env
    ensures env.Valid() && Lawful(c, env.log, visits, result)
  {
    visits := [];
    var refusal := Refuse(c);
    if refusal.Some? { return Failure(refusal.value), []; }
    var lastErr := NoUsableModelMapping;
    var i := 0;
    while i < |c.ordered|
      invariant 0 <= i <= |c.ordered|
      invariant Looping(c, env, i, visits, lastErr)
    {
      var round;
      ghost var v;
      round, v := CompletionRound(c, env, i, |AttemptsOf(visits)|, lastErr);
      RoundExtends(c, env, i, visits, lastErr, v, round);
      visits := Extended(visits, v);
      if round.Return? { return round.result, visits; }
      lastErr := round.lastErr;
      i := i + 1;
    }
    result := Failure(lastErr);
  }

  // ----------------------------------------------------------- streaming

  /** One more chunk relayed. */
  lemma RelaySnoc(c: Call, n: nat, provider: string, chunks: seq<Chunk>, chunk: Chunk, base: seq<Step>)
    ensures base + RelaySteps(c, n, provider, chunks) + ChunkSteps(c, n, provider, chunks, chunk, None)
            == base + RelaySteps(c, n, provider, chunks + [chunk])
  {
    assert (chunks + [chunk])[..|chunks|] == chunks;
  }

  /** What follows a chunk pulled: the first content is marked, a visible chunk shown. */
  method RelayChunk(c: Call, env: Surroundings, n: nat, provider: string, chunk: Chunk, ttfc: bool,
                    ghost before: seq<Chunk>, ghost base: seq<Step>)
    returns (failure: Option<Cause>)
    requires env.Valid() && ttfc == HasContent(before) && env.log == base + [Pull(chunk)]
    modifies env`tick, env`log
    ensures env.Valid() && (failure.Some? ==> ClientVisible(chunk))
    ensures env.log == base + ChunkSteps(c, n, provider, before, chunk, failure)
  {
    failure := None;
    if !ClientVisible(chunk) { return; }
    if chunk.content != "" && !ttfc { env.MarkFirstContent(n, provider); }
    failure := env.EmitChunk(Restored(chunk, IsLogical(c.req.model), c.req.model));
  }

  /** The chunks are the first j of a stream. */
  ghost predicate Consuming(consumed: seq<Chunk>, chunks: seq<Chunk>)
  {
    |consumed| <= |chunks| && consumed == chunks[..|consumed|]
  }

  lemma ConsumingSnoc(consumed: seq<Chunk>, chunks: seq<Chunk>)
    requires Consuming(consumed, chunks) && |consumed| < |chunks|
    ensures Consuming(consumed + [chunks[|consumed|]], chunks)
  {
  }

  lemma ConsumingSplits(consumed: seq<Chunk>, chunks: seq<Chunk>)
    requires Consuming(consumed, chunks)
    ensures |consumed| == |chunks| ==> consumed == chunks
    ensures |consumed| < |chunks| ==> consumed + [chunks[|consumed|]] + chunks[|consumed| + 1..] == chunks
  {
  }

  /** The steps of a stream read to its own end. */
  lemma EndedSteps(c: Call, n: nat, provider: string, consumed: seq<Chunk>, end: Cause, base: seq<Step>)
    ensures base + RelaySteps(c, n, provider, consumed) + [PullEnd(end)] + [Close]
            == base + StreamSteps(c, n, provider, Ended(consumed, end))
  {
    Regrouped(base, RelaySteps(c, n, provider, consumed), [PullEnd(end)], [Close]);
  }

  /** What a relayed stream stopped as: read to its own end, or left where an emit failed. */
  ghost predicate StoppedAs(stop: End, chunks: seq<Chunk>, end: Cause)
  {
    || stop == Ended(chunks, end)
    || (stop.EmitFailed? && stop.consumed + stop.unread == chunks && stop.ending == end)
  }

  /** The steps of a stream left because an emit failed. */
  lemma FailedEmitSteps(c: Call, n: nat, provider: string, before: seq<Chunk>, chunk: Chunk, unread: seq<Chunk>,
                        ending: Cause, err: Cause, base: seq<Step>)
    requires ClientVisible(chunk)
    ensures Possible(EmitFailed(before + [chunk], unread, ending, err))
    ensures base + RelaySteps(c, n, provider, before) + ChunkSteps(c, n, provider, before, chunk, Some(err)) + [Close]
            == base + StreamSteps(c, n, provider, EmitFailed(before + [chunk], unread, ending, err))
  {
    assert (before + [chunk])[..|before|] == before;
    Regrouped(base, RelaySteps(c, n, provider, before), ChunkSteps(c, n, provider, before, chunk, Some(err)), [Close]);
  }

  /** The local variables of the inner loop of Stream: usage merged so far, whether any
      content came, whether anything was shown. */
  datatype Tally = Tally(usage: Option<Usage>, ttfc: bool, committed: bool)

  predicate Tallies(c: Call, consumed: seq<Chunk>, t: Tally)
  {
    && t.usage == MergedUsage(consumed) && t.ttfc == HasContent(consumed)
    && (t.committed <==> Emissions(consumed, IsLogical(c.req.model), c.req.model) != [])
  }

  lemma TalliesSnoc(c: Call, consumed: seq<Chunk>, t: Tally, chunk: Chunk)
    requires Tallies(c, consumed, t)
    ensures Tallies(c, consumed + [chunk], Tally(MergeUsage(t.usage, chunk.usage), t.ttfc || chunk.content != "",
                                                 t.committed || ClientVisible(chunk)))
  {
    ChunksSnoc(consumed, chunk, IsLogical(c.req.model), c.req.model);
  }

  /** What the inner loop of Stream keeps: every call the consumed chunks led to. */
  ghost predicate Relaying(c: Call, env: Surroundings, n: nat, provider: string, consumed: seq<Chunk>, base: seq<Step>)
    reads env
  {
    env.Valid() && env.log == base + RelaySteps(c, n, provider, consumed)
  }

  /** How the inner loop leaves: the stream stopped, was closed, and every call is known. */
  ghost predicate Relayed(c: Call, env: Surroundings, n: nat, provider: string, stop: End, base: seq<Step>)
    reads env
  {
    env.Valid() && Possible(stop) && env.log == base + StreamSteps(c, n, provider, stop)
  }

  /** One chunk, pulled already: merged, then shown or swallowed; a failing emit closes
      the stream where it is. */
  method RelayOne(c: Call, env: Surroundings, n: nat, provider: string, consumed: seq<Chunk>, chunk: Chunk, unread: seq<Chunk>,
                  end: Cause, t: Tally, ghost base: seq<Step>)
    returns (stop: Option<End>, t': Tally)
    requires env.Valid() && env.log == base + RelaySteps(c, n, provider, consumed) + [Pull(chunk)] && Tallies(c, consumed, t)
    modifies env`tick, env`log
    ensures Tallies(c, consumed + [chunk], t')
    ensures stop.None? ==> Relaying(c, env, n, provider, consumed + [chunk], base)
    ensures stop.Some? ==> Relayed(c, env, n, provider, stop.value, base) && stop.value.EmitFailed?
                           && stop.value == EmitFailed(consumed + [chunk], unread, end, stop.value.err)
  {
    stop := None;
    t' := Tally(MergeUsage(t.usage, chunk.usage), t.ttfc || chunk.content != "", t.committed || ClientVisible(chunk));
    TalliesSnoc(c, consumed, t, chunk);
    var failure := RelayChunk(c, env, n, provider, chunk, t.ttfc, consumed, base + RelaySteps(c, n, provider, consumed));
    if failure.None? {
      RelaySnoc(c, n, provider, consumed, chunk, base);
    } else {
      env.CloseStream();
      stop := Some(EmitFailed(consumed + [chunk], unread, end, failure.value));
      FailedEmitSteps(c, n, provider, consumed, chunk, unread, end, failure.value, base);
    }
  }

  /** The inner loop of Stream: chunks are merged, shown or swallowed until the stream
      ends or the client's side fails; then it is closed. */
  method Relay(c: Call, env: Surroundings, n: nat, provider: string, chunks: seq<Chunk>, end: Cause, ghost base: seq<Step>)
    returns (stop: End, t: Tally)
    requires env.Valid() && env.log == base
    modifies env`tick, env`log
    ensures Relayed(c, env, n, provider, stop, base) && StoppedAs(stop, chunks, end)
    ensures Tallies(c, EndConsumed(stop), t)
  {
    t := Tally(None, false, false);
    var consumed := [];
    while true
      invariant Consuming(consumed, chunks) && Relaying(c, env, n, provider, consumed, base) && Tallies(c, consumed, t)
      decreases |chunks| - |consumed|
    {
      ConsumingSplits(consumed, chunks);
      EndedSteps(c, n, provider, consumed, end, base);
      var next := env.Next(chunks, end, |consumed|);
      if next.None? {
        env.CloseStream();
        return Ended(consumed, end), t;
      }
      var failed;
      ConsumingSnoc(consumed, chunks);
      failed, t := RelayOne(c, env, n, provider, consumed, next.value, chunks[|consumed| + 1..], end, t, base);
      if failed.Some? { return failed.value, t; }
      consumed := consumed + [next.value];
    }
  }

  lemma StreamAttemptSteps(c: Call, n: nat, a: Attempt, base: seq<Step>)
    requires Possible(a.end)
    ensures base + [ToHealth(Admitted(n, a.provider))] + [ToHistory(StartAttempt(a.provider, a.model))]
            + [ToTelemetry(Started(n, a.provider))] + [Invoke(a.provider, a.model, InvocationOf(a.end))]
            + StreamSteps(c, n, a.provider, a.end) + ClosingSteps(n, a)
            == base + AttemptSteps(c, n, a)
  {
    var opening := OpeningSteps(n, a.provider, a.model) + [Invoke(a.provider, a.model, InvocationOf(a.end))];
    Regrouped(base, opening, StreamSteps(c, n, a.provider, a.end), ClosingSteps(n, a));
  }

  /** One admitted streaming attempt, from startAttempt to finishAttempt: one stream is
      opened, and closed if it opened. */
  method AttemptStream(c: Call, env: Surroundings, i: nat, n: nat, provider: string, model: string, ghost base: seq<Step>)
    returns (a: Attempt, committed: bool)
    requires env.Valid() && Monotone(env.w) && env.next == Handles(n + 1, n, n)
    requires env.log == base + [ToHealth(Admitted(n, provider))]
    modifies env
    ensures env.Valid() && env.next == Handles(n + 1, n + 1, n + 1)
    ensures a.position == i && a.provider == provider && a.model == model && !a.end.Completed? && Possible(a.end)
    ensures env.log == base + AttemptSteps(c, n, a)
    ensures a.contextDone ==> AsksContext(a.end) && env.w.contextDone(env.tick)
    ensures committed <==> ShownBy(c, a) != []
  {
    OpenAttempt(env, n, provider, model);
    var opening := env.Open(provider, model);
    ghost var invoked := env.log;
    if opening.OpenFailed? {
      a := SettleAttempt(env, n, i, provider, model, Refused(opening.err), None, false);
      StreamAttemptSteps(c, n, a, base);
      return a, false;
    }
    var stop, t := Relay(c, env, n, provider, opening.chunks, opening.end, invoked);
    a := SettleAttempt(env, n, i, provider, model, stop, t.usage, t.ttfc);
    StreamAttemptSteps(c, n, a, base);
    committed := t.committed;
  }

  /** What a streaming attempt leads to: success, an end, or the next position, if the
      client has seen nothing. */
  method AfterStream(c: Call, env: Surroundings, a: Attempt, committed: bool, ghost i: nat, ghost lastErr: Error)
    returns (round: Round, after: Option<bool>)
    requires env.Valid() && Monotone(env.w) && !a.end.Completed? && i < |c.ordered|
    requires a.contextDone ==> AsksContext(a.end) && env.w.contextDone(env.tick)
    requires committed <==> ShownBy(c, a) != []
    modifies env`tick, env`log
    ensures env.Valid() && env.log == old(env.log) + AfterSteps(c, a, after)
    ensures (after.Some? <==> AsksAgain(c, NOT_CONSULTED, a)) && (a.contextDone ==> after != Some(false))
    ensures round == RoundOf(c, i, Tried(NOT_CONSULTED, a, after), lastErr)
  {
    after := None;
    var failure := FailureOf(a);
    if failure.None? { return Return(Streamed), None; }
    if a.end.EmitFailed? || committed { return Return(Failure(failure.value)), None; }
    var goOn;
    goOn, after := DecideFallback(c, env, a);
    round := if goOn then Next(failure.value) else Return(Failure(failure.value));
  }

  /** What follows an admission in Stream. */
  method TryStream(c: Call, env: Surroundings, i: nat, n: nat, ghost was: seq<Step>, ghost lastErr: Error)
    returns (round: Round, ghost v: Visit)
    requires c.streams && Monotone(env.w) && env.Valid() && i < |c.ordered| && Askable(c, i, NOT_CONSULTED)
    requires env.next == Handles(n + 1, n, n)
    requires env.log == was + ConsultSteps(c, KeyAt(c, i), NOT_CONSULTED) + [ToHealth(Admitted(n, c.ordered[i].name))]
    modifies env
    ensures v.Tried? && Rounded(c, i, n, was, env, lastErr, Some(v), round)
  {
    ghost var base := was + ConsultSteps(c, KeyAt(c, i), NOT_CONSULTED);
    var a, committed := AttemptStream(c, env, i, n, c.ordered[i].name, ModelAt(c, i).model, base);
    var after;
    round, after := AfterStream(c, env, a, committed, i, lastErr);
    TriedFits(c, i, NOT_CONSULTED, a, after);
    v := Tried(NOT_CONSULTED, a, after);
    TriedSteps(c, n, i, v, was);
  }

  /** One round of Stream's loop: resolve, require streaming, ask for admission. */
  method StreamingRound(c: Call, env: Surroundings, i: nat, ghost n: nat, lastErr: Error)
    returns (round: Round, ghost v: Option<Visit>)
    requires c.streams && Monotone(env.w) && env.Valid() && i < |c.ordered| && env.next == Handles(n, n, n)
    modifies env
    ensures Rounded(c, i, n, old(env.log), env, lastErr, v, round)
  {
    var model := ModelAt(c, i);
    if model.Unresolved? {
      if c.s.fallback && model.err == MissingMapping { return Next(lastErr), Some(NoMapping); }
      return Return(Failure(model.err)), None;
    }
    if !c.ordered[i].streaming { return Return(Failure(StreamingUnavailable(c.ordered[i].name))), None; }
    var handle, barred := AskAdmission(c, env, i, NOT_CONSULTED, n, old(env.log), lastErr);
    if handle.None? { return barred, Some(Barred(NOT_CONSULTED)); }
    ghost var tried;
    round, tried := TryStream(c, env, i, handle.value, old(env.log), lastErr);
    v := Some(tried);
  }

  /** Stream. Whatever its surroundings answer, its calls are exactly those of a walk
      along the ordered providers, and its result is what that walk comes to. */
  method Stream(c: Call, env: Surroundings) returns (result: Result, ghost visits: seq<Visit>)
    requires c.streams && Monotone(env.w) && env.Valid() && env.log == [] && env.next == Handles(0, 0, 0)
    modifies env
    ensures env.Valid() && Lawful(c, env.log, visits, result)
  {
    visits := [];
    var refusal := Refuse(c);
    if refusal.Some? { return Failure(refusal.value), []; }
    var lastErr := NoUsableModelMapping;
    var i := 0;
    while i < |c.ordered|
      invariant 0 <= i <= |c.ordered|
      invariant Looping(c, env, i, visits, lastErr)
    {
      var round;
      ghost var v;
      round, v := StreamingRound(c, env, i, |AttemptsOf(visits)|, lastErr);
      RoundExtends(c, env, i, visits, lastErr, v, round);
      visits := Extended(visits, v);
      if round.Return? { return round.result, visits; }
      lastErr := round.lastErr;
      i := i + 1;
    }
    result := Failure(lastErr);
  }
}
