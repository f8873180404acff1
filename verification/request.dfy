/** Requests, attempts and what each attempt owes its four ledgers
    (internal/gateway/service.go, internal/model/resolver.go). */
module Requests {
  import opened Common
  import opened Pricing
  import opened PriceDominance
  import opened Outcomes
  import CircuitBreaker

  datatype Message = Message(role: string, content: string)

  datatype Request = Request(model: string, messages: seq<Message>, stream: bool)

  datatype Choice = Choice(index: int, role: string, content: string, finishReason: string)

  datatype Response =
    Response(id: string, kind: string, created: int, model: string, choices: seq<Choice>, usage: Option<Usage>)

  datatype Chunk =
    Chunk(id: string, created: int, model: string, role: string, content: string, finishReason: string, usage: Option<Usage>)

  // -------------------------------------------------------------- attempts

  /** How a provider attempt ended: a completion, a stream refused at opening, a stream
      read to its own end, or one given up because the client's side failed, with what
      of it was left unread. */
  datatype End =
    | Completed(response: Response, failure: Option<Cause>)
    | Refused(err: Cause)
    | Ended(consumed: seq<Chunk>, err: Cause)
    | EmitFailed(consumed: seq<Chunk>, unread: seq<Chunk>, ending: Cause, err: Cause)

  /** One admitted attempt: where in the order, whom, under which model, how it ended,
      and what the context answered when that was classified (false if not asked). */
  datatype Attempt = Attempt(position: nat, provider: string, model: string, end: End, contextDone: bool)

  /** The error an end leaves behind; a stream that ran to its end leaves none. */
  function EndFailure(end: End): Option<Error>
  {
    match end
    case Completed(_, failure) => if failure.None? then None else Some(Upstream(failure.value))
    case Refused(err) => Some(Upstream(err))
    case Ended(_, err) => if err.isEOF then None else Some(Upstream(err))
    case EmitFailed(_, _, _, err) => Some(Upstream(err))
  }

  function EndOutcome(end: End, contextDone: bool): Outcome
  {
    if end.EmitFailed? then Canceled else Classify(contextDone, EndFailure(end))
  }

  function EndConsumed(end: End): seq<Chunk>
  {
    if end.Ended? || end.EmitFailed? then end.consumed else []
  }

  function EndUsage(end: End): Option<Usage>
  {
    if end.Completed? then end.response.usage else MergedUsage(EndConsumed(end))
  }

  function FailureOf(a: Attempt): Option<Error> { EndFailure(a.end) }

  function OutcomeOf(a: Attempt): Outcome { EndOutcome(a.end, a.contextDone) }

  function Consumed(a: Attempt): seq<Chunk> { EndConsumed(a.end) }

  function UsageOf(a: Attempt): Option<Usage> { EndUsage(a.end) }

  /** The provider delivered: a completion without error, or a stream to its own end. */
  predicate Delivered(end: End)
  {
    match end
    case Completed(_, failure) => failure.None?
    case Ended(_, err) => err.isEOF
    case _ => false
  }

  /** The error an end that did not deliver came with. */
  function ErrorAt(end: End): Cause
    requires !Delivered(end)
  {
    match end
    case Completed(_, failure) => failure.value
    case Refused(err) => err
    case Ended(_, err) => err
    case EmitFailed(_, _, _, err) => err
  }

  /** The provider is to blame: the request was alive, the client's side too, and the error
      is a timeout, an outage or a rate limit. */
  predicate ProviderAtFault(a: Attempt)
  {
    && !Delivered(a.end) && !a.end.EmitFailed? && !a.contextDone
    && ErrorAt(a.end).kind in {Some(KindTimeout), Some(KindUnavailable), Some(KindRateLimited)}
  }

  /** The circuit is told of success by a delivery, of failure by a fault of the provider. */
  predicate RightReport(a: Attempt, report: CircuitBreaker.Report)
  {
    (report == CircuitBreaker.Succeeded <==> Delivered(a.end)) && (report == CircuitBreaker.Failed <==> ProviderAtFault(a))
  }

  /** An attempt given up rather than failed: by the client's side, or by the request. */
  predicate GivenUp(a: Attempt)
  {
    !Delivered(a.end)
    && (a.end.EmitFailed? || a.contextDone || (ErrorAt(a.end).kind.None? && ErrorAt(a.end).isCanceled))
  }

  /** The outcome that telemetry and history are told: success by a delivery, cancellation
      by an attempt given up, and otherwise the provider's own kind of error. */
  predicate RightOutcome(a: Attempt, o: Outcome)
  {
    && (o == Success <==> Delivered(a.end)) && (o == Canceled <==> GivenUp(a))
    && (!Delivered(a.end) && !GivenUp(a) ==> TellsKind(o, ErrorAt(a.end).kind))
  }

  /** The usage that accounting and history are told: the response's, or of each field the
      last that the stream reported before it stopped. */
  predicate RightUsage(a: Attempt, usage: Option<Usage>)
  {
    match a.end
    case Completed(response, _) => usage == response.usage
    case Refused(_) => usage.None?
    case Ended(consumed, _) => LastUsage(consumed, usage)
    case EmitFailed(consumed, _, _, _) => LastUsage(consumed, usage)
  }

  lemma OutcomesAreRight(a: Attempt)
    ensures RightOutcome(a, OutcomeOf(a)) && RightReport(a, ReportOf(OutcomeOf(a))) && RightUsage(a, UsageOf(a))
  {
    if !Delivered(a.end) {
      OutcomeTellsError(a.contextDone, Some(Upstream(ErrorAt(a.end))));
    }
    UsageIsLastReported(Consumed(a));
  }

  /** recordHealthOutcome: which report an outcome is to the circuit. */
  function ReportOf(o: Outcome): CircuitBreaker.Report
  {
    if o == Success then CircuitBreaker.Succeeded
    else if !DegradesHealth(o) then CircuitBreaker.Ignored
    else CircuitBreaker.Failed
  }

  predicate HasContent(chunks: seq<Chunk>) { exists i :: 0 <= i < |chunks| && chunks[i].content != "" }

  // --------------------------------------------------------------- ledgers

  datatype HealthOp =
    | Admitted(attempt: nat, provider: string)
    | TurnedAway(provider: string)
    | Reported(attempt: nat, provider: string, report: CircuitBreaker.Report)

  datatype TelemetryOp =
    | Started(attempt: nat, provider: string)
    | FirstContent(attempt: nat, provider: string)
    | Stopped(attempt: nat, provider: string, outcome: Outcome)

  datatype AccountOp = AccountOp(provider: string, model: string, usage: Option<Usage>)

  datatype HistoryOp =
    | StartAttempt(provider: string, model: string)
    | FinishAttempt(attempt: nat, outcome: Outcome, hasTTFC: bool, usage: Option<Usage>)
    | CacheHit(provider: string)

  datatype Books = Books(health: seq<HealthOp>, telemetry: seq<TelemetryOp>, accounting: seq<AccountOp>, history: seq<HistoryOp>)

  const EMPTY_BOOKS := Books([], [], [], [])

  /** The books after one more attempt: every ledger opened once and settled once. */
  function Settle(b: Books, n: nat, a: Attempt): Books
  {
    Books(b.health + [Admitted(n, a.provider)] + [Reported(n, a.provider, ReportOf(OutcomeOf(a)))],
          b.telemetry + [Started(n, a.provider)] + (if HasContent(Consumed(a)) then [FirstContent(n, a.provider)] else [])
          + [Stopped(n, a.provider, OutcomeOf(a))],
          b.accounting + [AccountOp(a.provider, a.model, UsageOf(a))],
          b.history + [StartAttempt(a.provider, a.model)]
          + [FinishAttempt(n, OutcomeOf(a), HasContent(Consumed(a)), UsageOf(a))])
  }

  /** The books that belong to a sequence of attempts, and to nothing else. */
  function BooksOf(attempts: seq<Attempt>): Books
  {
    if attempts == [] then EMPTY_BOOKS
    else Settle(BooksOf(attempts[..|attempts| - 1]), |attempts| - 1, attempts[|attempts| - 1])
  }

  lemma BooksSnoc(attempts: seq<Attempt>, a: Attempt)
    ensures BooksOf(attempts + [a]) == Settle(BooksOf(attempts), |attempts|, a)
  {
    assert (attempts + [a])[..|attempts|] == attempts;
  }

  // ---------------------------------------------------------- usage, chunks

  /** mergeUsage: each reported field replaces what was known of it. */
  function MergeUsage(current: Option<Usage>, incoming: Option<Usage>): Option<Usage>
  {
    if incoming.None? then current
    else
      var known := if current.Some? then current.value else Usage(None, None, None);
      Some(Usage(if incoming.value.input.Some? then incoming.value.input else known.input,
                 if incoming.value.output.Some? then incoming.value.output else known.output,
                 if incoming.value.total.Some? then incoming.value.total else known.total))
  }

  function MergedUsage(chunks: seq<Chunk>): Option<Usage>
  {
    if chunks == [] then None else MergeUsage(MergedUsage(chunks[..|chunks| - 1]), chunks[|chunks| - 1].usage)
  }

  /** The last value some chunk reported for a field, read backwards. */
  function LastReported(chunks: seq<Chunk>, field: Usage -> Option<U64>): Option<U64>
  {
    if chunks == [] then None
    else
      var last := chunks[|chunks| - 1];
      if last.usage.Some? && field(last.usage.value).Some? then field(last.usage.value)
      else LastReported(chunks[..|chunks| - 1], field)
  }

  /** Usage that is, field by field, the last value reported anywhere in the stream; it
      exists when any chunk carried usage. */
  predicate LastUsage(chunks: seq<Chunk>, usage: Option<Usage>)
  {
    && (usage.Some? <==> exists i :: 0 <= i < |chunks| && chunks[i].usage.Some?)
    && (usage.Some? ==>
          && usage.value.input == LastReported(chunks, (u: Usage) => u.input)
          && usage.value.output == LastReported(chunks, (u: Usage) => u.output)
          && usage.value.total == LastReported(chunks, (u: Usage) => u.total))
  }

  /** Recorded usage is such, invisible chunks included. */
  lemma {:induction false} UsageIsLastReported(chunks: seq<Chunk>)
    ensures LastUsage(chunks, MergedUsage(chunks))
    ensures MergedUsage(chunks).None? ==>
              && LastReported(chunks, (u: Usage) => u.input).None?
              && LastReported(chunks, (u: Usage) => u.output).None?
              && LastReported(chunks, (u: Usage) => u.total).None?
  {
    if chunks != [] {
      UsageIsLastReported(chunks[..|chunks| - 1]);
    }
  }

  predicate ClientVisible(c: Chunk) { c.role != "" || c.content != "" || c.finishReason != "" }

  /** A chunk as the client sees it: usage removed, logical model restored. */
  function Restored(c: Chunk, logical: bool, model: string): Chunk
  {
    c.(usage := None, model := if logical then model else c.model)
  }

  /** What the client is shown of a sequence of chunks. */
  function Emissions(chunks: seq<Chunk>, logical: bool, model: string): seq<Chunk>
  {
    if chunks == [] then []
    else
      var last := chunks[|chunks| - 1];
      Emissions(chunks[..|chunks| - 1], logical, model)
      + (if ClientVisible(last) then [Restored(last, logical, model)] else [])
  }

  lemma ChunksSnoc(chunks: seq<Chunk>, c: Chunk, logical: bool, model: string)
    ensures Emissions(chunks + [c], logical, model)
            == Emissions(chunks, logical, model) + (if ClientVisible(c) then [Restored(c, logical, model)] else [])
    ensures MergedUsage(chunks + [c]) == MergeUsage(MergedUsage(chunks), c.usage)
    ensures HasContent(chunks + [c]) <==> HasContent(chunks) || c.content != ""
  {
    var longer := chunks + [c];
    assert longer[..|chunks|] == chunks;
    if HasContent(chunks) {
      var i :| 0 <= i < |chunks| && chunks[i].content != "";
      assert longer[i].content != "";
    }
    if c.content != "" {
      assert longer[|chunks|].content != "";
    }
  }

  /** A chunk as delivered and as shown: everything but usage, and the model restored. */
  predicate ShownAs(shown: Chunk, given: Chunk, logical: bool, model: string)
  {
    && shown.id == given.id && shown.created == given.created && shown.role == given.role
    && shown.content == given.content && shown.finishReason == given.finishReason && shown.usage == None
    && (logical ==> shown.model == model) && (!logical ==> shown.model == given.model)
  }

  /** Every chunk that says something was shown, in order, and no other. */
  predicate AllShown(shown: seq<Chunk>, given: seq<Chunk>, logical: bool, model: string)
  {
    var saying := Filter(given, (c: Chunk) => c.role != "" || c.content != "" || c.finishReason != "");
    |shown| == |saying| && forall i :: 0 <= i < |shown| ==> ShownAs(shown[i], saying[i], logical, model)
  }

  /** The client sees all that is said, and never usage, an empty chunk, or a provider's
      model in place of the logical one it asked for. */
  lemma {:induction false} EmissionsAreClean(chunks: seq<Chunk>, logical: bool, model: string)
    ensures AllShown(Emissions(chunks, logical, model), chunks, logical, model)
  {
    if chunks != [] {
      var n := |chunks| - 1;
      EmissionsAreClean(chunks[..n], logical, model);
      FilterAppend(chunks[..n], [chunks[n]], (c: Chunk) => c.role != "" || c.content != "" || c.finishReason != "");
      assert chunks[..n] + [chunks[n]] == chunks;
    }
  }

  // ------------------------------------------------------- service and call

  datatype Service = Service(fallback: bool, mappings: map<string, map<string, string>>, cacheEnabled: bool)

  const LOGICAL_PREFIX := "routeforge/"

  predicate IsLogical(model: string) { LOGICAL_PREFIX <= model }

  datatype Resolution = Resolved(model: string) | Unresolved(err: Error)

  /** A logical model has a mapping for a provider: a name that is not blank. */
  predicate Maps(s: Service, model: string, provider: string, name: string)
  {
    model in s.mappings && provider in s.mappings[model] && s.mappings[model][provider] == name && TrimSpace(name) != ""
  }

  /** Resolver.Resolve: resolves exactly to the mapped name, which is never empty; an
      unknown alias and a missing mapping are told apart. */
  function Resolve(s: Service, model: string, provider: string): (r: Resolution)
    ensures forall name :: r == Resolved(name) <==> Maps(s, model, provider, name)
    ensures r.Resolved? ==> r.model != ""
    ensures r == Unresolved(UnknownAlias) <==> model !in s.mappings
    ensures r.Unresolved? ==> r.err == UnknownAlias || r.err == MissingMapping
  {
    if model !in s.mappings then Unresolved(UnknownAlias)
    else
      var mapped := if provider in s.mappings[model] then s.mappings[model][provider] else "";
      if TrimSpace(mapped) == "" then Unresolved(MissingMapping) else Resolved(mapped)
  }

  /** The model a provider is asked for: resolved when logical, as given otherwise. */
  function ModelFor(s: Service, model: string, provider: string): Resolution
  {
    if IsLogical(model) then Resolve(s, model, provider) else Resolved(model)
  }

  predicate SupportedRole(role: string) { role == "system" || role == "user" || role == "assistant" }

  /** validateCore. */
  function ValidateCore(req: Request): Option<Error>
  {
    if TrimSpace(req.model) == "" then Some(ModelRequired)
    else if req.messages == [] then Some(MessagesRequired)
    else None
  }

  /** validateRoles. */
  method ValidateRoles(req: Request) returns (r: Option<Error>)
    ensures r.None? <==> forall i :: 0 <= i < |req.messages| ==> SupportedRole(req.messages[i].role)
    ensures r.Some? ==> r.value.UnsupportedRole? && r.value.index < |req.messages|
                        && !SupportedRole(req.messages[r.value.index].role)
                        && forall i :: 0 <= i < r.value.index ==> SupportedRole(req.messages[i].role)
  {
    var i := 0;
    while i < |req.messages|
      invariant 0 <= i <= |req.messages|
      invariant forall k :: 0 <= k < i ==> SupportedRole(req.messages[k].role)
    {
      if !SupportedRole(req.messages[i].role) { return Some(UnsupportedRole(i)); }
      i := i + 1;
    }
    r := None;
  }

  /** A request as the engine runs it: its service, whether it streams, and the
      providers in the order its routing policy put them. */
  datatype Call = Call(s: Service, req: Request, ordered: seq<Provider>, streams: bool)

  function ModelAt(c: Call, i: nat): Resolution
    requires i < |c.ordered|
  {
    ModelFor(c.s, c.req.model, c.ordered[i].name)
  }

  /** What an attempt shows the client. */
  function ShownBy(c: Call, a: Attempt): seq<Chunk>
  {
    Emissions(Consumed(a), IsLogical(c.req.model), c.req.model)
  }

  /** The answer to a request is what the provider gave, under the logical model if one
      was asked for. */
  predicate AnswersAs(c: Call, answer: Response, given: Response)
  {
    && answer.id == given.id && answer.kind == given.kind && answer.created == given.created
    && answer.choices == given.choices && answer.usage == given.usage
    && (IsLogical(c.req.model) ==> answer.model == c.req.model) && (!IsLogical(c.req.model) ==> answer.model == given.model)
  }

  function Returned(c: Call, r: Response): Response
  {
    if IsLogical(c.req.model) then r.(model := c.req.model) else r
  }

  ghost predicate RolesSupported(req: Request)
  {
    forall i :: 0 <= i < |req.messages| ==> SupportedRole(req.messages[i].role)
  }

  /** What a request must satisfy before any provider is looked at; only a completion
      minds the stream flag. */
  ghost predicate Acceptable(c: Call)
  {
    && TrimSpace(c.req.model) != "" && c.req.messages != [] && RolesSupported(c.req)
    && c.ordered != [] && (c.s.fallback ==> IsLogical(c.req.model))
    && (!c.streams ==> !c.req.stream)
  }

  /** Each refusal names a fault the request really has. */
  ghost predicate RefusalExplained(c: Call, err: Error)
  {
    match err
    case ModelRequired => TrimSpace(c.req.model) == ""
    case MessagesRequired => c.req.messages == []
    case StreamingUnsupported => c.req.stream && !c.streams
    case UnsupportedRole(i) => i < |c.req.messages| && !SupportedRole(c.req.messages[i].role)
    case NoProviders => c.ordered == []
    case NativeModelInAuto => c.s.fallback && !IsLogical(c.req.model)
    case _ => false
  }

  /** The checks made before the provider loop. */
  method Refuse(c: Call) returns (refusal: Option<Error>)
    ensures refusal.None? <==> Acceptable(c)
    ensures refusal.Some? ==> RefusalExplained(c, refusal.value)
  {
    refusal := ValidateCore(c.req);
    if refusal.Some? { return; }
    if !c.streams && c.req.stream { return Some(StreamingUnsupported); }
    refusal := ValidateRoles(c.req);
    if refusal.Some? { return; }
    if c.ordered == [] { return Some(NoProviders); }
    if c.s.fallback && !IsLogical(c.req.model) { return Some(NativeModelInAuto); }
    refusal := None;
  }
}
