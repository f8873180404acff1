/** A transcript read ledger by ledger: what a run said to the circuits, to telemetry,
    to accounting, to the history, to the providers, to the client and to the cache. */
module Projections {
  import opened Common
  import opened Pricing
  import opened PriceDominance
  import opened Outcomes
  import opened Requests
  import opened Transcripts
  import CircuitBreaker

  /** The steps that f picks, as what it makes of them. */
  function Pick<T>(steps: seq<Step>, f: Step -> Option<T>): seq<T>
  {
    if steps == [] then [] else Pick(steps[..|steps| - 1], f) + One(f(steps[|steps| - 1]))
  }

  function One<T>(o: Option<T>): seq<T> { if o.Some? then [o.value] else [] }

  lemma PickSnoc<T>(steps: seq<Step>, s: Step, f: Step -> Option<T>)
    ensures Pick(steps + [s], f) == Pick(steps, f) + One(f(s))
  {
    assert (steps + [s])[..|steps|] == steps;
  }

  lemma {:induction false} PickConcat<T>(a: seq<Step>, b: seq<Step>, f: Step -> Option<T>)
    ensures Pick(a + b, f) == Pick(a, f) + Pick(b, f)
  {
    if b == [] {
      assert a + b == a;
    } else {
      var n := |b| - 1;
      assert a + b == (a + b[..n]) + [b[n]];
      PickSnoc(a + b[..n], b[n], f);
      PickConcat(a, b[..n], f);
      assert b == b[..n] + [b[n]];
    }
  }

  lemma PickOne<T>(s: Step, f: Step -> Option<T>)
    ensures Pick([s], f) == One(f(s))
  {
    assert [s][..0] == [];
  }

  function HealthStep(s: Step): Option<HealthOp> { if s.ToHealth? then Some(s.health) else None }
  function GrantedStep(s: Step): Option<HealthOp> { if s.ToHealth? && !s.health.TurnedAway? then Some(s.health) else None }
  function TelemetryStep(s: Step): Option<TelemetryOp> { if s.ToTelemetry? then Some(s.telemetry) else None }
  function AccountStep(s: Step): Option<AccountOp> { if s.ToAccounting? then Some(s.account) else None }
  function HistoryStep(s: Step): Option<HistoryOp> { if s.ToHistory? then Some(s.history) else None }
  function EmitStep(s: Step): Option<Chunk> { if s.Emit? then Some(s.chunk) else None }

  datatype Invoked = Invoked(provider: string, model: string, invocation: Invocation)

  function InvokeStep(s: Step): Option<Invoked> { if s.Invoke? then Some(Invoked(s.provider, s.model, s.invocation)) else None }

  // -------------------------------------------------- the pieces of a script

  lemma PickOpening<T>(n: nat, provider: string, model: string, f: Step -> Option<T>)
    ensures Pick(OpeningSteps(n, provider, model), f)
            == One(f(ToHealth(Admitted(n, provider)))) + One(f(ToHistory(StartAttempt(provider, model))))
               + One(f(ToTelemetry(Started(n, provider))))
  {
    var a, b := [ToHealth(Admitted(n, provider))], ToHistory(StartAttempt(provider, model));
    PickOne(ToHealth(Admitted(n, provider)), f);
    PickSnoc(a, b, f);
    PickSnoc(a + [b], ToTelemetry(Started(n, provider)), f);
  }

  lemma PickClosing<T>(n: nat, a: Attempt, f: Step -> Option<T>)
    requires f(ContextAsked(a.contextDone)).None?
    ensures Pick(ClosingSteps(n, a), f)
            == One(f(ToAccounting(AccountOp(a.provider, a.model, UsageOf(a)))))
               + One(f(ToHealth(Reported(n, a.provider, ReportOf(OutcomeOf(a))))))
               + One(f(ToTelemetry(Stopped(n, a.provider, OutcomeOf(a)))))
               + One(f(ToHistory(FinishAttempt(n, OutcomeOf(a), HasContent(Consumed(a)), UsageOf(a)))))
  {
    var account := ToAccounting(AccountOp(a.provider, a.model, UsageOf(a)));
    var report := ToHealth(Reported(n, a.provider, ReportOf(OutcomeOf(a))));
    var stop := ToTelemetry(Stopped(n, a.provider, OutcomeOf(a)));
    var finish := ToHistory(FinishAttempt(n, OutcomeOf(a), HasContent(Consumed(a)), UsageOf(a)));
    var asked := if AsksContext(a.end) then [ContextAsked(a.contextDone)] else [];
    PickOne(account, f);
    PickOne(ContextAsked(a.contextDone), f);
    PickConcat([account], asked, f);
    assert Pick(asked, f) == [];
    PickSnoc([account] + asked, report, f);
    PickSnoc([account] + asked + [report], stop, f);
    PickSnoc([account] + asked + [report] + [stop], finish, f);
  }

  /** f has no use for questions to the circuit and the context, nor for the cache. */
  ghost predicate SkipsQuestions<T(!new)>(f: Step -> Option<T>)
  {
    forall s: Step :: s.EligibleAsked? || s.ContextAsked? || s.CacheGet? || s.CachePut? ==> f(s).None?
  }

  lemma PickConsult<T(!new)>(c: Call, key: CacheKey, q: Consult, f: Step -> Option<T>)
    requires SkipsQuestions(f)
    ensures Pick(ConsultSteps(c, key, q), f) == []
  {
    PickNothing(ConsultSteps(c, key, q), f);
  }

  lemma PickAfter<T(!new)>(c: Call, a: Attempt, after: Option<bool>, f: Step -> Option<T>)
    requires SkipsQuestions(f)
    ensures Pick(AfterSteps(c, a, after), f) == []
  {
    PickNothing(AfterSteps(c, a, after), f);
  }

  lemma {:induction false} PickNothing<T>(steps: seq<Step>, f: Step -> Option<T>)
    requires forall i :: 0 <= i < |steps| ==> f(steps[i]).None?
    ensures Pick(steps, f) == []
  {
    if steps != [] {
      PickNothing(steps[..|steps| - 1], f);
    }
  }

  lemma {:induction false} PickedNothing<T>(steps: seq<Step>, f: Step -> Option<T>, i: nat)
    requires Pick(steps, f) == [] && i < |steps|
    ensures f(steps[i]).None?
  {
    var n := |steps| - 1;
    if i < n {
      PickedNothing(steps[..n], f, i);
    }
  }

  // ------------------------------------------------------------ the stream

  /** f has no use for pulling, closing, emitting or marking. */
  ghost predicate SkipsStreams<T(!new)>(f: Step -> Option<T>)
  {
    forall s: Step :: s.Pull? || s.PullEnd? || s.Close? || s.Emit? || s.ToTelemetry? ==> f(s).None?
  }

  /** What f picks of one chunk. */
  lemma PickChunk<T>(c: Call, n: nat, provider: string, before: seq<Chunk>, chunk: Chunk, failure: Option<Cause>,
                     f: Step -> Option<T>)
    ensures Pick(ChunkSteps(c, n, provider, before, chunk, failure), f)
            == One(f(Pull(chunk)))
               + (if chunk.content != "" && !HasContent(before) then One(f(ToTelemetry(FirstContent(n, provider)))) else [])
               + (if ClientVisible(chunk) then One(f(Emit(Restored(chunk, IsLogical(c.req.model), c.req.model), failure))) else [])
  {
    var pull := [Pull(chunk)];
    var mark := if chunk.content != "" && !HasContent(before) then [ToTelemetry(FirstContent(n, provider))] else [];
    var shown := Emit(Restored(chunk, IsLogical(c.req.model), c.req.model), failure);
    var emit := if ClientVisible(chunk) then [shown] else [];
    PickOne(Pull(chunk), f);
    PickOne(ToTelemetry(FirstContent(n, provider)), f);
    PickOne(shown, f);
    PickConcat(pull, mark, f);
    PickConcat(pull + mark, emit, f);
  }

  lemma ChunkNothing<T(!new)>(c: Call, n: nat, provider: string, before: seq<Chunk>, chunk: Chunk, failure: Option<Cause>,
                              f: Step -> Option<T>)
    requires SkipsStreams(f)
    ensures Pick(ChunkSteps(c, n, provider, before, chunk, failure), f) == []
  {
    PickChunk(c, n, provider, before, chunk, failure, f);
    assert f(Pull(chunk)).None? && f(ToTelemetry(FirstContent(n, provider))).None?;
    assert f(Emit(Restored(chunk, IsLogical(c.req.model), c.req.model), failure)).None?;
  }

  lemma {:induction false} RelayNothing<T(!new)>(c: Call, n: nat, provider: string, chunks: seq<Chunk>, f: Step -> Option<T>)
    requires SkipsStreams(f)
    ensures Pick(RelaySteps(c, n, provider, chunks), f) == []
  {
    if chunks != [] {
      var front, chunk := chunks[..|chunks| - 1], chunks[|chunks| - 1];
      RelayNothing(c, n, provider, front, f);
      ChunkNothing(c, n, provider, front, chunk, None, f);
      PickConcat(RelaySteps(c, n, provider, front), ChunkSteps(c, n, provider, front, chunk, None), f);
    }
  }

  lemma EndedNothing<T(!new)>(relay: seq<Step>, err: Cause, f: Step -> Option<T>)
    requires SkipsStreams(f) && Pick(relay, f) == []
    ensures Pick(relay + [PullEnd(err)] + [Close], f) == []
  {
    PickSnoc(relay, PullEnd(err), f);
    PickSnoc(relay + [PullEnd(err)], Close, f);
  }

  lemma FailedNothing<T(!new)>(relay: seq<Step>, last: seq<Step>, f: Step -> Option<T>)
    requires SkipsStreams(f) && Pick(relay, f) == [] && Pick(last, f) == []
    ensures Pick(relay + last + [Close], f) == []
  {
    PickConcat(relay, last, f);
    PickSnoc(relay + last, Close, f);
  }

  lemma StreamNothing<T(!new)>(c: Call, n: nat, provider: string, end: End, f: Step -> Option<T>)
    requires Possible(end) && SkipsStreams(f)
    ensures Pick(StreamSteps(c, n, provider, end), f) == []
  {
    if end.Ended? {
      RelayNothing(c, n, provider, end.consumed, f);
      EndedNothing(RelaySteps(c, n, provider, end.consumed), end.err, f);
    } else if end.EmitFailed? {
      var front, chunk := end.consumed[..|end.consumed| - 1], end.consumed[|end.consumed| - 1];
      RelayNothing(c, n, provider, front, f);
      ChunkNothing(c, n, provider, front, chunk, Some(end.err), f);
      FailedNothing(RelaySteps(c, n, provider, front), ChunkSteps(c, n, provider, front, chunk, Some(end.err)), f);
    }
  }

  function Marks(n: nat, provider: string, chunks: seq<Chunk>): seq<TelemetryOp>
  {
    if HasContent(chunks) then [FirstContent(n, provider)] else []
  }

  lemma ChunkMarked(c: Call, n: nat, provider: string, before: seq<Chunk>, chunk: Chunk, failure: Option<Cause>)
    ensures Pick(ChunkSteps(c, n, provider, before, chunk, failure), TelemetryStep)
            == if chunk.content != "" && !HasContent(before) then [FirstContent(n, provider)] else []
  {
    PickChunk(c, n, provider, before, chunk, failure, TelemetryStep);
  }

  lemma ChunkMarks(c: Call, n: nat, provider: string, before: seq<Chunk>, chunk: Chunk, failure: Option<Cause>)
    ensures Marks(n, provider, before) + Pick(ChunkSteps(c, n, provider, before, chunk, failure), TelemetryStep)
            == Marks(n, provider, before + [chunk])
  {
    ChunkMarked(c, n, provider, before, chunk, failure);
    assert HasContent(before + [chunk]) <==> HasContent(before) || chunk.content != "" by {
      ChunksSnoc(before, chunk, false, "");
    }
  }

  lemma ChunkEmitted(c: Call, n: nat, provider: string, before: seq<Chunk>, chunk: Chunk, failure: Option<Cause>)
    ensures Pick(ChunkSteps(c, n, provider, before, chunk, failure), EmitStep)
            == if ClientVisible(chunk) then [Restored(chunk, IsLogical(c.req.model), c.req.model)] else []
  {
    PickChunk(c, n, provider, before, chunk, failure, EmitStep);
  }

  lemma ChunkEmits(c: Call, n: nat, provider: string, before: seq<Chunk>, chunk: Chunk, failure: Option<Cause>)
    ensures Emissions(before, IsLogical(c.req.model), c.req.model)
            + Pick(ChunkSteps(c, n, provider, before, chunk, failure), EmitStep)
            == Emissions(before + [chunk], IsLogical(c.req.model), c.req.model)
  {
    ChunkEmitted(c, n, provider, before, chunk, failure);
    ChunksSnoc(before, chunk, IsLogical(c.req.model), c.req.model);
  }

  lemma {:induction false} RelayMarks(c: Call, n: nat, provider: string, chunks: seq<Chunk>)
    ensures Pick(RelaySteps(c, n, provider, chunks), TelemetryStep) == Marks(n, provider, chunks)
  {
    if chunks != [] {
      var front, chunk := chunks[..|chunks| - 1], chunks[|chunks| - 1];
      assert front + [chunk] == chunks;
      RelayMarks(c, n, provider, front);
      PickConcat(RelaySteps(c, n, provider, front), ChunkSteps(c, n, provider, front, chunk, None), TelemetryStep);
      ChunkMarks(c, n, provider, front, chunk, None);
    }
  }

  lemma {:induction false} RelayEmits(c: Call, n: nat, provider: string, chunks: seq<Chunk>)
    ensures Pick(RelaySteps(c, n, provider, chunks), EmitStep) == Emissions(chunks, IsLogical(c.req.model), c.req.model)
  {
    if chunks != [] {
      var front, chunk := chunks[..|chunks| - 1], chunks[|chunks| - 1];
      assert front + [chunk] == chunks;
      RelayEmits(c, n, provider, front);
      PickConcat(RelaySteps(c, n, provider, front), ChunkSteps(c, n, provider, front, chunk, None), EmitStep);
      ChunkEmits(c, n, provider, front, chunk, None);
    }
  }

  /** A stream's own end and its closing add nothing to what f picks. */
  lemma EndAddsNothing<T>(relay: seq<Step>, err: Cause, f: Step -> Option<T>)
    requires f(PullEnd(err)).None? && f(Close).None?
    ensures Pick(relay + [PullEnd(err)] + [Close], f) == Pick(relay, f)
  {
    PickSnoc(relay, PullEnd(err), f);
    PickSnoc(relay + [PullEnd(err)], Close, f);
  }

  lemma CloseAddsNothing<T>(relay: seq<Step>, last: seq<Step>, f: Step -> Option<T>)
    requires f(Close).None?
    ensures Pick(relay + last + [Close], f) == Pick(relay, f) + Pick(last, f)
  {
    PickConcat(relay, last, f);
    PickSnoc(relay + last, Close, f);
  }

  lemma LastJoins(chunks: seq<Chunk>)
    requires chunks != []
    ensures chunks[..|chunks| - 1] + [chunks[|chunks| - 1]] == chunks
  {
  }

  lemma EndedMarks(c: Call, n: nat, provider: string, consumed: seq<Chunk>, err: Cause)
    ensures Pick(StreamSteps(c, n, provider, Ended(consumed, err)), TelemetryStep) == Marks(n, provider, consumed)
  {
    RelayMarks(c, n, provider, consumed);
    EndAddsNothing(RelaySteps(c, n, provider, consumed), err, TelemetryStep);
  }

  lemma FailedMarks(c: Call, n: nat, provider: string, front: seq<Chunk>, chunk: Chunk, err: Cause)
    ensures Pick(RelaySteps(c, n, provider, front) + ChunkSteps(c, n, provider, front, chunk, Some(err)) + [Close], TelemetryStep)
            == Marks(n, provider, front + [chunk])
  {
    RelayMarks(c, n, provider, front);
    ChunkMarks(c, n, provider, front, chunk, Some(err));
    CloseAddsNothing(RelaySteps(c, n, provider, front), ChunkSteps(c, n, provider, front, chunk, Some(err)), TelemetryStep);
  }

  lemma StreamMarks(c: Call, n: nat, provider: string, end: End)
    requires Possible(end)
    ensures Pick(StreamSteps(c, n, provider, end), TelemetryStep) == Marks(n, provider, EndConsumed(end))
  {
    match end
    case Completed(_, _) =>
    case Refused(_) =>
    case Ended(consumed, err) => EndedMarks(c, n, provider, consumed, err);
    case EmitFailed(consumed, _, _, err) =>
      FailedMarks(c, n, provider, consumed[..|consumed| - 1], consumed[|consumed| - 1], err);
      LastJoins(consumed);
  }

  lemma EndedEmits(c: Call, n: nat, provider: string, consumed: seq<Chunk>, err: Cause)
    ensures Pick(StreamSteps(c, n, provider, Ended(consumed, err)), EmitStep) == Emissions(consumed, IsLogical(c.req.model), c.req.model)
  {
    RelayEmits(c, n, provider, consumed);
    EndAddsNothing(RelaySteps(c, n, provider, consumed), err, EmitStep);
  }

  lemma FailedEmits(c: Call, n: nat, provider: string, front: seq<Chunk>, chunk: Chunk, err: Cause)
    ensures Pick(RelaySteps(c, n, provider, front) + ChunkSteps(c, n, provider, front, chunk, Some(err)) + [Close], EmitStep)
            == Emissions(front + [chunk], IsLogical(c.req.model), c.req.model)
  {
    RelayEmits(c, n, provider, front);
    ChunkEmits(c, n, provider, front, chunk, Some(err));
    CloseAddsNothing(RelaySteps(c, n, provider, front), ChunkSteps(c, n, provider, front, chunk, Some(err)), EmitStep);
  }

  lemma StreamEmits(c: Call, n: nat, provider: string, end: End)
    requires Possible(end)
    ensures Pick(StreamSteps(c, n, provider, end), EmitStep) == Emissions(EndConsumed(end), IsLogical(c.req.model), c.req.model)
  {
    match end
    case Completed(_, _) =>
    case Refused(_) =>
    case Ended(consumed, err) => EndedEmits(c, n, provider, consumed, err);
    case EmitFailed(consumed, _, _, err) =>
      FailedEmits(c, n, provider, consumed[..|consumed| - 1], consumed[|consumed| - 1], err);
      LastJoins(consumed);
  }

  // ----------------------------------------------------------- one attempt

  /** Four parts of an attempt read through f, the invocation and the stream for nothing. */
  lemma JoinEnds<T>(opening: seq<Step>, invoke: Step, stream: seq<Step>, closing: seq<Step>, f: Step -> Option<T>,
                    first: seq<T>, last: seq<T>)
    requires Pick(opening, f) == first && f(invoke).None? && Pick(stream, f) == [] && Pick(closing, f) == last
    ensures Pick(opening + [invoke] + stream + closing, f) == first + last
  {
    PickSnoc(opening, invoke, f);
    PickConcat(opening + [invoke], stream, f);
    PickConcat(opening + [invoke] + stream, closing, f);
  }

  /** And with something in between. */
  lemma JoinAll<T>(opening: seq<Step>, invoke: Step, stream: seq<Step>, closing: seq<Step>, f: Step -> Option<T>,
                   first: seq<T>, middle: seq<T>, last: seq<T>)
    requires Pick(opening, f) == first && One(f(invoke)) + Pick(stream, f) == middle && Pick(closing, f) == last
    ensures Pick(opening + [invoke] + stream + closing, f) == first + middle + last
  {
    PickSnoc(opening, invoke, f);
    PickConcat(opening + [invoke], stream, f);
    PickConcat(opening + [invoke] + stream, closing, f);
    Reassociate(first, One(f(invoke)), Pick(stream, f));
  }

  lemma OpeningHealth(n: nat, a: Attempt)
    ensures Pick(OpeningSteps(n, a.provider, a.model), HealthStep) == [Admitted(n, a.provider)]
  {
    PickOpening(n, a.provider, a.model, HealthStep);
  }

  lemma ClosingHealth(n: nat, a: Attempt)
    ensures Pick(ClosingSteps(n, a), HealthStep) == [Reported(n, a.provider, ReportOf(OutcomeOf(a)))]
  {
    PickClosing(n, a, HealthStep);
  }

  lemma AttemptHealth(c: Call, n: nat, a: Attempt)
    requires Possible(a.end)
    ensures Pick(AttemptSteps(c, n, a), HealthStep) == [Admitted(n, a.provider)] + [Reported(n, a.provider, ReportOf(OutcomeOf(a)))]
  {
    OpeningHealth(n, a);
    ClosingHealth(n, a);
    StreamNothing(c, n, a.provider, a.end, HealthStep);
    JoinEnds(OpeningSteps(n, a.provider, a.model), Invoke(a.provider, a.model, InvocationOf(a.end)),
             StreamSteps(c, n, a.provider, a.end), ClosingSteps(n, a), HealthStep,
             [Admitted(n, a.provider)], [Reported(n, a.provider, ReportOf(OutcomeOf(a)))]);
  }

  lemma OpeningTelemetry(n: nat, a: Attempt)
    ensures Pick(OpeningSteps(n, a.provider, a.model), TelemetryStep) == [Started(n, a.provider)]
  {
    PickOpening(n, a.provider, a.model, TelemetryStep);
  }

  lemma ClosingTelemetry(n: nat, a: Attempt)
    ensures Pick(ClosingSteps(n, a), TelemetryStep) == [Stopped(n, a.provider, OutcomeOf(a))]
  {
    PickClosing(n, a, TelemetryStep);
  }

  lemma AttemptTelemetry(c: Call, n: nat, a: Attempt)
    requires Possible(a.end)
    ensures Pick(AttemptSteps(c, n, a), TelemetryStep)
            == [Started(n, a.provider)] + Marks(n, a.provider, Consumed(a)) + [Stopped(n, a.provider, OutcomeOf(a))]
  {
    OpeningTelemetry(n, a);
    ClosingTelemetry(n, a);
    StreamMarks(c, n, a.provider, a.end);
    JoinAll(OpeningSteps(n, a.provider, a.model), Invoke(a.provider, a.model, InvocationOf(a.end)),
            StreamSteps(c, n, a.provider, a.end), ClosingSteps(n, a), TelemetryStep,
            [Started(n, a.provider)], Marks(n, a.provider, Consumed(a)), [Stopped(n, a.provider, OutcomeOf(a))]);
  }

  lemma OpeningAccount(n: nat, a: Attempt)
    ensures Pick(OpeningSteps(n, a.provider, a.model), AccountStep) == []
  {
    PickOpening(n, a.provider, a.model, AccountStep);
  }

  lemma ClosingAccount(n: nat, a: Attempt)
    ensures Pick(ClosingSteps(n, a), AccountStep) == [AccountOp(a.provider, a.model, UsageOf(a))]
  {
    PickClosing(n, a, AccountStep);
  }

  lemma AttemptAccount(c: Call, n: nat, a: Attempt)
    requires Possible(a.end)
    ensures Pick(AttemptSteps(c, n, a), AccountStep) == [AccountOp(a.provider, a.model, UsageOf(a))]
  {
    OpeningAccount(n, a);
    ClosingAccount(n, a);
    StreamNothing(c, n, a.provider, a.end, AccountStep);
    JoinEnds(OpeningSteps(n, a.provider, a.model), Invoke(a.provider, a.model, InvocationOf(a.end)),
             StreamSteps(c, n, a.provider, a.end), ClosingSteps(n, a), AccountStep, [], [AccountOp(a.provider, a.model, UsageOf(a))]);
  }

  lemma OpeningHistory(n: nat, a: Attempt)
    ensures Pick(OpeningSteps(n, a.provider, a.model), HistoryStep) == [StartAttempt(a.provider, a.model)]
  {
    PickOpening(n, a.provider, a.model, HistoryStep);
  }

  lemma ClosingHistory(n: nat, a: Attempt)
    ensures Pick(ClosingSteps(n, a), HistoryStep) == [FinishAttempt(n, OutcomeOf(a), HasContent(Consumed(a)), UsageOf(a))]
  {
    PickClosing(n, a, HistoryStep);
  }

  lemma AttemptHistory(c: Call, n: nat, a: Attempt)
    requires Possible(a.end)
    ensures Pick(AttemptSteps(c, n, a), HistoryStep)
            == [StartAttempt(a.provider, a.model)] + [FinishAttempt(n, OutcomeOf(a), HasContent(Consumed(a)), UsageOf(a))]
  {
    OpeningHistory(n, a);
    ClosingHistory(n, a);
    StreamNothing(c, n, a.provider, a.end, HistoryStep);
    JoinEnds(OpeningSteps(n, a.provider, a.model), Invoke(a.provider, a.model, InvocationOf(a.end)),
             StreamSteps(c, n, a.provider, a.end), ClosingSteps(n, a), HistoryStep,
             [StartAttempt(a.provider, a.model)], [FinishAttempt(n, OutcomeOf(a), HasContent(Consumed(a)), UsageOf(a))]);
  }

  lemma OpeningInvoke(n: nat, a: Attempt)
    ensures Pick(OpeningSteps(n, a.provider, a.model), InvokeStep) == []
  {
    PickOpening(n, a.provider, a.model, InvokeStep);
  }

  lemma ClosingInvoke(n: nat, a: Attempt)
    ensures Pick(ClosingSteps(n, a), InvokeStep) == []
  {
    PickClosing(n, a, InvokeStep);
  }

  lemma AttemptInvokes(c: Call, n: nat, a: Attempt)
    requires Possible(a.end)
    ensures Pick(AttemptSteps(c, n, a), InvokeStep) == [Invoked(a.provider, a.model, InvocationOf(a.end))]
  {
    OpeningInvoke(n, a);
    ClosingInvoke(n, a);
    StreamNothing(c, n, a.provider, a.end, InvokeStep);
    JoinAll(OpeningSteps(n, a.provider, a.model), Invoke(a.provider, a.model, InvocationOf(a.end)),
            StreamSteps(c, n, a.provider, a.end), ClosingSteps(n, a), InvokeStep,
            [], [Invoked(a.provider, a.model, InvocationOf(a.end))], []);
  }

  lemma OpeningEmit(n: nat, a: Attempt)
    ensures Pick(OpeningSteps(n, a.provider, a.model), EmitStep) == []
  {
    PickOpening(n, a.provider, a.model, EmitStep);
  }

  lemma ClosingEmit(n: nat, a: Attempt)
    ensures Pick(ClosingSteps(n, a), EmitStep) == []
  {
    PickClosing(n, a, EmitStep);
  }

  lemma AttemptEmits(c: Call, n: nat, a: Attempt)
    requires Possible(a.end)
    ensures Pick(AttemptSteps(c, n, a), EmitStep) == ShownBy(c, a)
  {
    OpeningEmit(n, a);
    ClosingEmit(n, a);
    StreamEmits(c, n, a.provider, a.end);
    JoinAll(OpeningSteps(n, a.provider, a.model), Invoke(a.provider, a.model, InvocationOf(a.end)),
            StreamSteps(c, n, a.provider, a.end), ClosingSteps(n, a), EmitStep, [], ShownBy(c, a), []);
  }

  // ------------------------------------------------------------ whole runs

  lemma FrontGoesOn(c: Call, visits: seq<Visit>)
    requires Walk(c, visits) && visits != []
    ensures GoesOn(c, visits[..|visits| - 1])
  {
    var front := visits[..|visits| - 1];
    forall i | 0 <= i < |front|
      ensures VisitFits(c, i, front[i]) && PassesOn(c, front[i])
    {
      assert front[i] == visits[i];
    }
  }

  /** What f picks of one visit. */
  function VisitPick<T>(c: Call, n: nat, i: nat, v: Visit, f: Step -> Option<T>): seq<T>
    requires i < |c.ordered| && VisitFits(c, i, v)
  {
    match v
    case NoMapping => []
    case Hit(_) => One(f(ToHistory(CacheHit(c.ordered[i].name))))
    case Barred(_) => One(f(ToHealth(TurnedAway(c.ordered[i].name))))
    case Tried(_, a, _) => Pick(AttemptSteps(c, n, a), f)
  }

  /** Behind a consultation f picks what it picks of the rest. */
  lemma PickBehind<T>(consult: seq<Step>, rest: seq<Step>, f: Step -> Option<T>, part: seq<T>)
    requires Pick(consult, f) == [] && Pick(rest, f) == part
    ensures Pick(consult + rest, f) == part
  {
    PickConcat(consult, rest, f);
  }

  lemma PickTried<T>(attempt: seq<Step>, after: seq<Step>, f: Step -> Option<T>)
    requires Pick(after, f) == []
    ensures Pick(attempt + after, f) == Pick(attempt, f)
  {
    PickConcat(attempt, after, f);
  }

  lemma PickVisit<T(!new)>(c: Call, n: nat, i: nat, v: Visit, f: Step -> Option<T>)
    requires i < |c.ordered| && VisitFits(c, i, v) && SkipsQuestions(f)
    ensures Pick(VisitSteps(c, n, i, v), f) == VisitPick(c, n, i, v, f)
  {
    if !v.NoMapping? {
      var name := c.ordered[i].name;
      var consult := ConsultSteps(c, KeyOf(c, name, ModelAt(c, i).model), v.consult);
      PickConsult(c, KeyOf(c, name, ModelAt(c, i).model), v.consult, f);
      match v
      case Hit(_) =>
        PickOne(ToHistory(CacheHit(name)), f);
        PickBehind(consult, [ToHistory(CacheHit(name))], f, One(f(ToHistory(CacheHit(name)))));
      case Barred(_) =>
        PickOne(ToHealth(TurnedAway(name)), f);
        PickBehind(consult, [ToHealth(TurnedAway(name))], f, One(f(ToHealth(TurnedAway(name)))));
      case Tried(_, a, after) =>
        PickAfter(c, a, after, f);
        PickTried(AttemptSteps(c, n, a), AfterSteps(c, a, after), f);
        PickBehind(consult, AttemptSteps(c, n, a) + AfterSteps(c, a, after), f, Pick(AttemptSteps(c, n, a), f));
    }
  }

  /** The transcript of a walk, up to its last visit and from there. */
  lemma ScriptUnfolds(c: Call, visits: seq<Visit>) returns (last: seq<Step>)
    requires Walk(c, visits) && visits != []
    ensures var n := |visits| - 1;
            && GoesOn(c, visits[..n]) && VisitFits(c, n, visits[n])
            && last == VisitSteps(c, |AttemptsOf(visits[..n])|, n, visits[n])
            && Script(c, visits) == Script(c, visits[..n]) + last
  {
    FrontGoesOn(c, visits);
    last := VisitSteps(c, |AttemptsOf(visits[..|visits| - 1])|, |visits| - 1, visits[|visits| - 1]);
  }

  function Flatten<T>(parts: seq<seq<T>>): seq<T>
  {
    if parts == [] then [] else Flatten(parts[..|parts| - 1]) + parts[|parts| - 1]
  }

  /** The blocks are the steps of the visits, one each. */
  ghost predicate AreBlocks(c: Call, visits: seq<Visit>, blocks: seq<seq<Step>>)
  {
    && |blocks| == |visits| <= |c.ordered|
    && forall i :: 0 <= i < |blocks| ==> IsBlock(c, visits[..i], visits[i], blocks[i])
  }

  /** The steps of one visit, after those before it. */
  ghost predicate IsBlock(c: Call, before: seq<Visit>, v: Visit, block: seq<Step>)
  {
    && |before| < |c.ordered| && VisitFits(c, |before|, v)
    && block == VisitSteps(c, |AttemptsOf(before)|, |before|, v)
  }

  lemma BlocksSnoc(c: Call, visits: seq<Visit>, blocks: seq<seq<Step>>, last: seq<Step>)
    requires visits != [] && |visits| <= |c.ordered|
    requires AreBlocks(c, visits[..|visits| - 1], blocks) && IsBlock(c, visits[..|visits| - 1], visits[|visits| - 1], last)
    ensures AreBlocks(c, visits, blocks + [last])
  {
    var n, longer := |visits| - 1, blocks + [last];
    forall i | 0 <= i < |longer|
      ensures IsBlock(c, visits[..i], visits[i], longer[i])
    {
      if i < n {
        assert visits[..n][..i] == visits[..i] && longer[i] == blocks[i];
        assert IsBlock(c, visits[..n][..i], visits[..n][i], blocks[i]);
      }
    }
  }

  lemma FlattenSnoc<T>(parts: seq<seq<T>>, last: seq<T>)
    ensures Flatten(parts + [last]) == Flatten(parts) + last
  {
    assert (parts + [last])[..|parts|] == parts;
  }

  /** The transcript of a walk, visit by visit. */
  lemma {:induction false} BlocksOf(c: Call, visits: seq<Visit>) returns (blocks: seq<seq<Step>>)
    requires Walk(c, visits)
    ensures AreBlocks(c, visits, blocks) && Script(c, visits) == Flatten(blocks)
  {
    blocks := [];
    if visits != [] {
      var last := ScriptUnfolds(c, visits);
      var front := BlocksOf(c, visits[..|visits| - 1]);
      BlocksSnoc(c, visits, front, last);
      FlattenSnoc(front, last);
      blocks := front + [last];
    }
  }

  lemma {:induction false} PickFlatten<T>(blocks: seq<seq<Step>>, parts: seq<seq<T>>, f: Step -> Option<T>)
    requires |blocks| == |parts| && forall i :: 0 <= i < |blocks| ==> Pick(blocks[i], f) == parts[i]
    ensures Pick(Flatten(blocks), f) == Flatten(parts)
  {
    if blocks != [] {
      var n := |blocks| - 1;
      PickFlatten(blocks[..n], parts[..n], f);
      PickConcat(Flatten(blocks[..n]), blocks[n], f);
    }
  }

  /** The books after one more visit. */
  lemma BooksAfter(visits: seq<Visit>)
    requires visits != []
    ensures var front, last := visits[..|visits| - 1], visits[|visits| - 1];
            BooksOf(AttemptsOf(visits))
            == if last.Tried? then Settle(BooksOf(AttemptsOf(front)), |AttemptsOf(front)|, last.attempt)
               else BooksOf(AttemptsOf(front))
  {
    var front, last := visits[..|visits| - 1], visits[|visits| - 1];
    if last.Tried? {
      BooksSnoc(AttemptsOf(front), last.attempt);
    } else {
      assert AttemptsOf(front) + [] == AttemptsOf(front);
    }
  }

  function AccountsIn(v: Visit): seq<AccountOp>
  {
    if v.Tried? then
      [AccountOp(v.attempt.provider, v.attempt.model, UsageOf(v.attempt))]
    else []
  }

  lemma AccountsAfter(visits: seq<Visit>)
    requires visits != []
    ensures var front := visits[..|visits| - 1];
            BooksOf(AttemptsOf(visits)).accounting
            == BooksOf(AttemptsOf(front)).accounting + AccountsIn(visits[|visits| - 1])
  {
    BooksAfter(visits);
  }

  lemma VisitAccounts(c: Call, n: nat, i: nat, v: Visit)
    requires i < |c.ordered| && VisitFits(c, i, v)
    ensures Pick(VisitSteps(c, n, i, v), AccountStep) == AccountsIn(v)
  {
    PickVisit(c, n, i, v, AccountStep);
    if v.Tried? {
      AttemptAccount(c, n, v.attempt);
    }
  }

  function AccountsParts(visits: seq<Visit>): (parts: seq<seq<AccountOp>>)
    ensures |parts| == |visits|
  {
    seq(|visits|, i requires 0 <= i < |visits| => AccountsIn(visits[i]))
  }

  lemma {:induction false} AccountsFlat(visits: seq<Visit>)
    ensures Flatten(AccountsParts(visits)) == BooksOf(AttemptsOf(visits)).accounting
  {
    if visits != [] {
      var n := |visits| - 1;
      AccountsFlat(visits[..n]);
      AccountsAfter(visits);
      assert AccountsParts(visits)[..n] == AccountsParts(visits[..n]);
    }
  }

  /** Accounting is told of every attempt, once, and of nothing else. */
  lemma RunAccounts(c: Call, visits: seq<Visit>)
    requires Walk(c, visits)
    ensures Pick(Script(c, visits), AccountStep) == BooksOf(AttemptsOf(visits)).accounting
  {
    var blocks := BlocksOf(c, visits);
    forall i | 0 <= i < |blocks|
      ensures Pick(blocks[i], AccountStep) == AccountsParts(visits)[i]
    {
      assert IsBlock(c, visits[..i], visits[i], blocks[i]);
      VisitAccounts(c, |AttemptsOf(visits[..i])|, i, visits[i]);
    }
    PickFlatten(blocks, AccountsParts(visits), AccountStep);
    AccountsFlat(visits);
  }

  function MeasuresIn(n: nat, v: Visit): seq<TelemetryOp>
  {
    if v.Tried? then
      [Started(n, v.attempt.provider)] + Marks(n, v.attempt.provider, Consumed(v.attempt))
      + [Stopped(n, v.attempt.provider, OutcomeOf(v.attempt))]
    else []
  }

  lemma MeasuresAfter(visits: seq<Visit>)
    requires visits != []
    ensures var front := visits[..|visits| - 1];
            BooksOf(AttemptsOf(visits)).telemetry
            == BooksOf(AttemptsOf(front)).telemetry + MeasuresIn(|AttemptsOf(front)|, visits[|visits| - 1])
  {
    BooksAfter(visits);
    var front, last := visits[..|visits| - 1], visits[|visits| - 1];
    if last.Tried? {
      var n, a := |AttemptsOf(front)|, last.attempt;
      Regrouped(BooksOf(AttemptsOf(front)).telemetry, [Started(n, a.provider)], Marks(n, a.provider, Consumed(a)),
                [Stopped(n, a.provider, OutcomeOf(a))]);
    }
  }

  lemma VisitMeasures(c: Call, n: nat, i: nat, v: Visit)
    requires i < |c.ordered| && VisitFits(c, i, v)
    ensures Pick(VisitSteps(c, n, i, v), TelemetryStep) == MeasuresIn(n, v)
  {
    PickVisit(c, n, i, v, TelemetryStep);
    if v.Tried? {
      AttemptTelemetry(c, n, v.attempt);
    }
  }

  function MeasuresParts(visits: seq<Visit>): (parts: seq<seq<TelemetryOp>>)
    ensures |parts| == |visits|
  {
    seq(|visits|, i requires 0 <= i < |visits| => MeasuresIn(|AttemptsOf(visits[..i])|, visits[i]))
  }

  lemma {:induction false} MeasuresFlat(visits: seq<Visit>)
    ensures Flatten(MeasuresParts(visits)) == BooksOf(AttemptsOf(visits)).telemetry
  {
    if visits != [] {
      var n := |visits| - 1;
      MeasuresFlat(visits[..n]);
      MeasuresAfter(visits);
      assert MeasuresParts(visits)[..n] == MeasuresParts(visits[..n]) by {
        assert forall i :: 0 <= i < n ==> visits[..n][..i] == visits[..i];
      }
    }
  }

  /** Telemetry is told of every attempt's start, first content and end, and of nothing else. */
  lemma RunMeasures(c: Call, visits: seq<Visit>)
    requires Walk(c, visits)
    ensures Pick(Script(c, visits), TelemetryStep) == BooksOf(AttemptsOf(visits)).telemetry
  {
    var blocks := BlocksOf(c, visits);
    forall i | 0 <= i < |blocks|
      ensures Pick(blocks[i], TelemetryStep) == MeasuresParts(visits)[i]
    {
      assert IsBlock(c, visits[..i], visits[i], blocks[i]);
      VisitMeasures(c, |AttemptsOf(visits[..i])|, i, visits[i]);
    }
    PickFlatten(blocks, MeasuresParts(visits), TelemetryStep);
    MeasuresFlat(visits);
  }

  function SettlesIn(n: nat, v: Visit): seq<HealthOp>
  {
    if v.Tried? then
      [Admitted(n, v.attempt.provider)] + [Reported(n, v.attempt.provider, ReportOf(OutcomeOf(v.attempt)))]
    else []
  }

  lemma SettlesAfter(visits: seq<Visit>)
    requires visits != []
    ensures var front := visits[..|visits| - 1];
            BooksOf(AttemptsOf(visits)).health
            == BooksOf(AttemptsOf(front)).health + SettlesIn(|AttemptsOf(front)|, visits[|visits| - 1])
  {
    BooksAfter(visits);
    var front, last := visits[..|visits| - 1], visits[|visits| - 1];
    if last.Tried? {
      var n, a := |AttemptsOf(front)|, last.attempt;
      Reassociate(BooksOf(AttemptsOf(front)).health, [Admitted(n, a.provider)], [Reported(n, a.provider, ReportOf(OutcomeOf(a)))]);
    }
  }

  function TellsIn(n: nat, v: Visit): seq<HistoryOp>
  {
    if v.Tried? then
      [StartAttempt(v.attempt.provider, v.attempt.model)]
      + [FinishAttempt(n, OutcomeOf(v.attempt), HasContent(Consumed(v.attempt)), UsageOf(v.attempt))]
    else []
  }

  lemma TellsAfter(visits: seq<Visit>)
    requires visits != []
    ensures var front := visits[..|visits| - 1];
            BooksOf(AttemptsOf(visits)).history
            == BooksOf(AttemptsOf(front)).history + TellsIn(|AttemptsOf(front)|, visits[|visits| - 1])
  {
    BooksAfter(visits);
    var front, last := visits[..|visits| - 1], visits[|visits| - 1];
    if last.Tried? {
      var n, a := |AttemptsOf(front)|, last.attempt;
      Reassociate(BooksOf(AttemptsOf(front)).history, [StartAttempt(a.provider, a.model)],
                  [FinishAttempt(n, OutcomeOf(a), HasContent(Consumed(a)), UsageOf(a))]);
    }
  }

  function HistoryOfVisit(c: Call, n: nat, i: nat, v: Visit): seq<HistoryOp>
    requires i < |c.ordered|
  {
    TellsIn(n, v) + (if v.Hit? then [CacheHit(c.ordered[i].name)] else [])
  }

  lemma VisitTells(c: Call, n: nat, i: nat, v: Visit)
    requires i < |c.ordered| && VisitFits(c, i, v)
    ensures Pick(VisitSteps(c, n, i, v), HistoryStep) == HistoryOfVisit(c, n, i, v)
  {
    PickVisit(c, n, i, v, HistoryStep);
    if v.Tried? {
      AttemptHistory(c, n, v.attempt);
    }
  }

  function TellsParts(c: Call, visits: seq<Visit>): (parts: seq<seq<HistoryOp>>)
    requires |visits| <= |c.ordered|
    ensures |parts| == |visits|
  {
    seq(|visits|, i requires 0 <= i < |visits| => HistoryOfVisit(c, |AttemptsOf(visits[..i])|, i, visits[i]))
  }

  /** What a run ended with, if it was a cache hit, for the history. */
  function HitNote(c: Call, visits: seq<Visit>): seq<HistoryOp>
    requires |visits| <= |c.ordered|
  {
    if visits != [] && visits[|visits| - 1].Hit? then [CacheHit(c.ordered[|visits| - 1].name)] else []
  }

  lemma TellsPartsFront(c: Call, visits: seq<Visit>)
    requires |visits| <= |c.ordered| && visits != []
    ensures var n := |visits| - 1;
            && TellsParts(c, visits)[..n] == TellsParts(c, visits[..n])
            && TellsParts(c, visits)[n] == HistoryOfVisit(c, |AttemptsOf(visits[..n])|, n, visits[n])
  {
    var n := |visits| - 1;
    assert forall i :: 0 <= i < n ==> visits[..n][..i] == visits[..i];
  }

  lemma TellsOnce(c: Call, visits: seq<Visit>, told: seq<HistoryOp>)
    requires |visits| <= |c.ordered| && visits != [] && told == BooksOf(AttemptsOf(visits[..|visits| - 1])).history
    ensures var n := |visits| - 1;
            told + HistoryOfVisit(c, |AttemptsOf(visits[..n])|, n, visits[n])
            == BooksOf(AttemptsOf(visits)).history + HitNote(c, visits)
  {
    var n := |visits| - 1;
    TellsAfter(visits);
    Reassociate(told, TellsIn(|AttemptsOf(visits[..n])|, visits[n]), HitNote(c, visits));
  }

  lemma {:induction false} TellsFlat(c: Call, visits: seq<Visit>)
    requires |visits| <= |c.ordered| && forall i :: 0 <= i < |visits| - 1 ==> !visits[i].Hit?
    ensures Flatten(TellsParts(c, visits)) == BooksOf(AttemptsOf(visits)).history + HitNote(c, visits)
  {
    if visits != [] {
      var n := |visits| - 1;
      var told := BooksOf(AttemptsOf(visits[..n])).history;
      assert Flatten(TellsParts(c, visits[..n])) == told by {
        TellsFlat(c, visits[..n]);
        assert told + [] == told;
      }
      TellsPartsFront(c, visits);
      TellsOnce(c, visits, told);
    }
  }

  /** The history is told of every attempt, and of a cache hit that ends the run. */
  lemma RunTells(c: Call, visits: seq<Visit>)
    requires Walk(c, visits)
    ensures Pick(Script(c, visits), HistoryStep) == BooksOf(AttemptsOf(visits)).history + HitNote(c, visits)
  {
    var blocks := BlocksOf(c, visits);
    forall i | 0 <= i < |blocks|
      ensures Pick(blocks[i], HistoryStep) == TellsParts(c, visits)[i]
    {
      assert IsBlock(c, visits[..i], visits[i], blocks[i]);
      VisitTells(c, |AttemptsOf(visits[..i])|, i, visits[i]);
    }
    PickFlatten(blocks, TellsParts(c, visits), HistoryStep);
    forall i | 0 <= i < |visits| - 1
      ensures !visits[i].Hit?
    {
      assert PassesOn(c, visits[i]);
    }
    TellsFlat(c, visits);
  }

  function InvokedBy(attempts: seq<Attempt>): seq<Invoked>
  {
    if attempts == [] then []
    else
      var a := attempts[|attempts| - 1];
      InvokedBy(attempts[..|attempts| - 1]) + [Invoked(a.provider, a.model, InvocationOf(a.end))]
  }

  function InvokedIn(v: Visit): seq<Invoked>
  {
    if v.Tried? then [Invoked(v.attempt.provider, v.attempt.model, InvocationOf(v.attempt.end))] else []
  }

  lemma InvokedAfter(visits: seq<Visit>)
    requires visits != []
    ensures var front, last := visits[..|visits| - 1], visits[|visits| - 1];
            InvokedBy(AttemptsOf(visits)) == InvokedBy(AttemptsOf(front)) + InvokedIn(last)
  {
    var front, last := visits[..|visits| - 1], visits[|visits| - 1];
    if last.Tried? {
      assert (AttemptsOf(front) + [last.attempt])[..|AttemptsOf(front)|] == AttemptsOf(front);
    } else {
      assert AttemptsOf(front) + [] == AttemptsOf(front);
    }
  }

  lemma VisitInvokes(c: Call, n: nat, i: nat, v: Visit)
    requires i < |c.ordered| && VisitFits(c, i, v)
    ensures Pick(VisitSteps(c, n, i, v), InvokeStep) == InvokedIn(v)
  {
    PickVisit(c, n, i, v, InvokeStep);
    if v.Tried? {
      AttemptInvokes(c, n, v.attempt);
    }
  }

  function InvokesParts(visits: seq<Visit>): (parts: seq<seq<Invoked>>)
    ensures |parts| == |visits|
  {
    seq(|visits|, i requires 0 <= i < |visits| => InvokedIn(visits[i]))
  }

  lemma {:induction false} InvokesFlat(visits: seq<Visit>)
    ensures Flatten(InvokesParts(visits)) == InvokedBy(AttemptsOf(visits))
  {
    if visits != [] {
      var n := |visits| - 1;
      InvokesFlat(visits[..n]);
      InvokedAfter(visits);
      assert InvokesParts(visits)[..n] == InvokesParts(visits[..n]);
    }
  }

  /** Providers are invoked once per attempt, in order, with its model and its answer,
      and not otherwise. */
  lemma RunInvokes(c: Call, visits: seq<Visit>)
    requires Walk(c, visits)
    ensures Pick(Script(c, visits), InvokeStep) == InvokedBy(AttemptsOf(visits))
  {
    var blocks := BlocksOf(c, visits);
    forall i | 0 <= i < |blocks|
      ensures Pick(blocks[i], InvokeStep) == InvokesParts(visits)[i]
    {
      assert IsBlock(c, visits[..i], visits[i], blocks[i]);
      VisitInvokes(c, |AttemptsOf(visits[..i])|, i, visits[i]);
    }
    PickFlatten(blocks, InvokesParts(visits), InvokeStep);
    InvokesFlat(visits);
  }

  /** What the last visit of a run showed the client. */
  function LastShown(c: Call, visits: seq<Visit>): seq<Chunk>
  {
    if visits == [] then [] else ShownIn(c, visits[|visits| - 1])
  }

  function ShownIn(c: Call, v: Visit): seq<Chunk> { if v.Tried? then ShownBy(c, v.attempt) else [] }

  /** A visit that passes on has shown the client nothing. */
  lemma PassedOnSilently(c: Call, i: nat, v: Visit)
    requires i < |c.ordered| && VisitFits(c, i, v) && PassesOn(c, v)
    ensures ShownIn(c, v) == []
  {
  }

  lemma VisitEmits(c: Call, n: nat, i: nat, v: Visit)
    requires i < |c.ordered| && VisitFits(c, i, v)
    ensures Pick(VisitSteps(c, n, i, v), EmitStep) == ShownIn(c, v)
  {
    PickVisit(c, n, i, v, EmitStep);
    if v.Tried? {
      AttemptEmits(c, n, v.attempt);
    }
  }

  function EmitsParts(c: Call, visits: seq<Visit>): (parts: seq<seq<Chunk>>)
    requires |visits| <= |c.ordered|
    ensures |parts| == |visits|
  {
    seq(|visits|, i requires 0 <= i < |visits| => ShownIn(c, visits[i]))
  }

  lemma {:induction false} OnlyLastPart<T>(parts: seq<seq<T>>)
    requires forall i :: 0 <= i < |parts| - 1 ==> parts[i] == []
    ensures Flatten(parts) == if parts == [] then [] else parts[|parts| - 1]
  {
    if |parts| > 1 {
      OnlyLastPart(parts[..|parts| - 1]);
    }
  }

  /** All emit calls of a run come from its last visit: exactly the visible part of
      what that attempt's stream delivered. */
  lemma RunEmits(c: Call, visits: seq<Visit>)
    requires Walk(c, visits)
    ensures Pick(Script(c, visits), EmitStep) == LastShown(c, visits)
  {
    var blocks := BlocksOf(c, visits);
    forall i | 0 <= i < |blocks|
      ensures Pick(blocks[i], EmitStep) == EmitsParts(c, visits)[i]
    {
      assert IsBlock(c, visits[..i], visits[i], blocks[i]);
      VisitEmits(c, |AttemptsOf(visits[..i])|, i, visits[i]);
    }
    PickFlatten(blocks, EmitsParts(c, visits), EmitStep);
    forall i | 0 <= i < |visits| - 1
      ensures EmitsParts(c, visits)[i] == []
    {
      PassedOnSilently(c, i, visits[i]);
    }
    OnlyLastPart(EmitsParts(c, visits));
  }

  /** What one visit tells the circuits, refusals included. */
  function HealthOfVisit(c: Call, n: nat, i: nat, v: Visit): seq<HealthOp>
    requires i < |c.ordered|
  {
    match v
    case Barred(_) => [TurnedAway(c.ordered[i].name)]
    case Tried(_, a, _) => [Admitted(n, a.provider)] + [Reported(n, a.provider, ReportOf(OutcomeOf(a)))]
    case _ => []
  }

  lemma VisitBegins(c: Call, n: nat, i: nat, v: Visit)
    requires i < |c.ordered| && VisitFits(c, i, v)
    ensures Pick(VisitSteps(c, n, i, v), HealthStep) == HealthOfVisit(c, n, i, v)
  {
    PickVisit(c, n, i, v, HealthStep);
    if v.Tried? {
      AttemptHealth(c, n, v.attempt);
    }
  }

  function BeginsParts(c: Call, visits: seq<Visit>): (parts: seq<seq<HealthOp>>)
    requires |visits| <= |c.ordered|
    ensures |parts| == |visits|
  {
    seq(|visits|, i requires 0 <= i < |visits| => HealthOfVisit(c, |AttemptsOf(visits[..i])|, i, visits[i]))
  }

  function HealthCalls(c: Call, visits: seq<Visit>): seq<HealthOp>
    requires |visits| <= |c.ordered|
  {
    if visits == [] then []
    else
      var front := visits[..|visits| - 1];
      HealthCalls(c, front) + HealthOfVisit(c, |AttemptsOf(front)|, |visits| - 1, visits[|visits| - 1])
  }

  lemma {:induction false} BeginsFlat(c: Call, visits: seq<Visit>)
    requires |visits| <= |c.ordered|
    ensures Flatten(BeginsParts(c, visits)) == HealthCalls(c, visits)
  {
    if visits != [] {
      var n := |visits| - 1;
      BeginsFlat(c, visits[..n]);
      assert BeginsParts(c, visits)[..n] == BeginsParts(c, visits[..n]) by {
        assert forall i :: 0 <= i < n ==> visits[..n][..i] == visits[..i];
      }
    }
  }

  /** Every begin of a run, granted or not, belongs to a visit, one each. */
  lemma RunBegins(c: Call, visits: seq<Visit>)
    requires Walk(c, visits)
    ensures Pick(Script(c, visits), HealthStep) == HealthCalls(c, visits)
  {
    var blocks := BlocksOf(c, visits);
    forall i | 0 <= i < |blocks|
      ensures Pick(blocks[i], HealthStep) == BeginsParts(c, visits)[i]
    {
      assert IsBlock(c, visits[..i], visits[i], blocks[i]);
      VisitBegins(c, |AttemptsOf(visits[..i])|, i, visits[i]);
    }
    PickFlatten(blocks, BeginsParts(c, visits), HealthStep);
    BeginsFlat(c, visits);
  }

  /** The health calls without the refusals. */
  function Granted(ops: seq<HealthOp>): seq<HealthOp>
  {
    if ops == [] then []
    else Granted(ops[..|ops| - 1]) + (if ops[|ops| - 1].TurnedAway? then [] else [ops[|ops| - 1]])
  }

  lemma {:induction false} GrantedConcat(a: seq<HealthOp>, b: seq<HealthOp>)
    ensures Granted(a + b) == Granted(a) + Granted(b)
  {
    if b == [] {
      assert a + b == a;
    } else {
      var n := |b| - 1;
      assert (a + b)[..|a + b| - 1] == a + b[..n];
      GrantedConcat(a, b[..n]);
    }
  }

  lemma {:induction false} PickGranted(steps: seq<Step>)
    ensures Pick(steps, GrantedStep) == Granted(Pick(steps, HealthStep))
  {
    if steps != [] {
      var n := |steps| - 1;
      PickGranted(steps[..n]);
      GrantedOne(HealthStep(steps[n]));
      GrantedConcat(Pick(steps[..n], HealthStep), One(HealthStep(steps[n])));
    }
  }

  lemma GrantedOne(o: Option<HealthOp>)
    ensures Granted(One(o)) == if o.Some? && !o.value.TurnedAway? then [o.value] else []
  {
    if o.Some? {
      assert [o.value][..0] == [];
    }
  }

  lemma GrantedVisit(c: Call, n: nat, i: nat, v: Visit)
    requires i < |c.ordered|
    ensures Granted(HealthOfVisit(c, n, i, v)) == SettlesIn(n, v)
  {
    if v.Tried? {
      var admitted, reported := Admitted(n, v.attempt.provider), Reported(n, v.attempt.provider, ReportOf(OutcomeOf(v.attempt)));
      GrantedOne(Some(admitted));
      GrantedOne(Some(reported));
      GrantedConcat([admitted], [reported]);
    } else if v.Barred? {
      GrantedOne(Some(TurnedAway(c.ordered[i].name)));
    }
  }

  lemma {:induction false} GrantedCalls(c: Call, visits: seq<Visit>)
    requires |visits| <= |c.ordered|
    ensures Granted(HealthCalls(c, visits)) == BooksOf(AttemptsOf(visits)).health
  {
    if visits != [] {
      var n := |visits| - 1;
      var front := visits[..n];
      GrantedCalls(c, front);
      GrantedVisit(c, |AttemptsOf(front)|, n, visits[n]);
      GrantedConcat(HealthCalls(c, front), HealthOfVisit(c, |AttemptsOf(front)|, n, visits[n]));
      SettlesAfter(visits);
    }
  }

  /** The circuits grant exactly the attempts made, and each one granted is settled once. */
  lemma RunSettles(c: Call, visits: seq<Visit>)
    requires Walk(c, visits)
    ensures Pick(Script(c, visits), GrantedStep) == BooksOf(AttemptsOf(visits)).health
  {
    PickGranted(Script(c, visits));
    RunBegins(c, visits);
    GrantedCalls(c, visits);
  }
}
