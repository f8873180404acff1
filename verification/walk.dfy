/** What every run of Complete or Stream makes of the provider order
    (internal/gateway/service.go, orderedProviders and the two provider loops). */
module Walks {
  import opened Common
  import opened Pricing
  import opened PriceDominance
  import opened Outcomes
  import opened Requests
  import opened Transcripts
  import opened Projections
  import CircuitBreaker

  ghost predicate DistinctNames(providers: seq<Provider>)
  {
    forall i, j :: 0 <= i < j < |providers| ==> providers[i].name != providers[j].name
  }

  lemma RepeatCountsTwice(s: seq<Provider>, i: nat, j: nat)
    requires i < j < |s| && s[i] == s[j]
    ensures multiset(s)[s[i]] >= 2
  {
    assert s == s[..j] + [s[j]] + s[j + 1..];
    assert s[..j][i] == s[i];
  }

  lemma {:induction false} DistinctCountsOnce(s: seq<Provider>, p: Provider)
    requires DistinctNames(s)
    ensures multiset(s)[p] <= 1
  {
    if s != [] {
      var n := |s| - 1;
      assert s == s[..n] + [s[n]];
      DistinctCountsOnce(s[..n], p);
      if s[n] == p {
        forall i | 0 <= i < n
          ensures s[..n][i] != p
        {
          assert s[i].name != s[n].name;
        }
        assert p !in s[..n];
      }
    }
  }

  /** Rearranging keeps names distinct. */
  lemma PermutedNamesAreDistinct(providers: seq<Provider>, ordered: seq<Provider>)
    requires DistinctNames(providers) && multiset(ordered) == multiset(providers)
    ensures DistinctNames(ordered)
  {
    forall i, j | 0 <= i < j < |ordered|
      ensures ordered[i].name != ordered[j].name
    {
      if ordered[i].name == ordered[j].name {
        assert ordered[i] in multiset(ordered) && ordered[j] in multiset(ordered);
        var k :| 0 <= k < |providers| && providers[k] == ordered[i];
        var l :| 0 <= l < |providers| && providers[l] == ordered[j];
        assert k == l;
        RepeatCountsTwice(ordered, i, j);
        DistinctCountsOnce(providers, ordered[i]);
      }
    }
  }

  // ------------------------------------------------- attempts and positions

  /** The k-th attempt of a walk is the visit of some position. */
  ghost predicate AtPosition(visits: seq<Visit>, k: nat)
    requires k < |AttemptsOf(visits)|
  {
    var a := AttemptsOf(visits)[k];
    a.position < |visits| && visits[a.position].Tried? && visits[a.position].attempt == a
  }

  lemma {:induction false} AttemptIsVisit(c: Call, visits: seq<Visit>, k: nat)
    requires Walk(c, visits) && k < |AttemptsOf(visits)|
    ensures AtPosition(visits, k)
  {
    var n := |visits| - 1;
    var front := visits[..n];
    if k < |AttemptsOf(front)| {
      FrontGoesOn(c, visits);
      AttemptIsVisit(c, front, k);
      assert visits[AttemptsOf(front)[k].position] == front[AttemptsOf(front)[k].position];
    } else {
      assert VisitFits(c, n, visits[n]);
    }
  }

  lemma {:induction false} PositionsIncrease(c: Call, visits: seq<Visit>, j: nat, k: nat)
    requires Walk(c, visits) && j < k < |AttemptsOf(visits)|
    ensures AttemptsOf(visits)[j].position < AttemptsOf(visits)[k].position
  {
    var n := |visits| - 1;
    var front := visits[..n];
    FrontGoesOn(c, visits);
    if k < |AttemptsOf(front)| {
      PositionsIncrease(c, front, j, k);
    } else {
      AttemptIsVisit(c, front, j);
      assert VisitFits(c, n, visits[n]);
    }
  }

  /** A visit that passed on: its attempt failed with an error worth a fallback while
      the context was live, and its circuit was told of a failure. */
  lemma AbandonedWereReported(c: Call, i: nat, v: Visit)
    requires i < |c.ordered| && VisitFits(c, i, v) && v.Tried? && PassesOn(c, v)
    ensures c.s.fallback && !v.attempt.contextDone && v.after == Some(false)
    ensures OutcomeOf(v.attempt) in {Timeout, Unavailable, RateLimited}
    ensures ReportOf(OutcomeOf(v.attempt)) == CircuitBreaker.Failed
  {
  }

  /** A request goes on from an attempt exactly when it may fall back, the provider was at
      fault, the client has seen nothing of it, and the context, asked once more, is live. */
  lemma FallsBackExactly(c: Call, i: nat, v: Visit)
    requires i < |c.ordered| && VisitFits(c, i, v) && v.Tried?
    ensures PassesOn(c, v) <==> c.s.fallback && ProviderAtFault(v.attempt) && ShownBy(c, v.attempt) == [] && v.after == Some(false)
    ensures !Delivered(v.attempt.end) ==>
              (v.after.Some? <==> c.s.fallback && !v.attempt.end.EmitFailed? && ShownBy(c, v.attempt) == [])
  {
  }

  lemma {:induction false} InvokedAt(attempts: seq<Attempt>, k: nat)
    requires k < |attempts|
    ensures |InvokedBy(attempts)| == |attempts|
    ensures InvokedBy(attempts)[k] == Invoked(attempts[k].provider, attempts[k].model, InvocationOf(attempts[k].end))
  {
    var n := |attempts| - 1;
    if n > 0 {
      InvokedAt(attempts[..n], if k < n then k else 0);
    }
  }

  /** The k-th invocation of a run is its k-th attempt's, at the position of that attempt. */
  lemma InvocationIsAttempt(x: Run, k: nat) returns (i: nat)
    requires Promised(x) && k < |Pick(x.log, InvokeStep)|
    ensures k < |AttemptsOf(x.visits)| && i == AttemptsOf(x.visits)[k].position < |x.c.ordered|
    ensures Pick(x.log, InvokeStep)[k].provider == x.c.ordered[i].name
    ensures ModelAt(x.c, i) == Resolved(Pick(x.log, InvokeStep)[k].model)
  {
    var attempts := AttemptsOf(x.visits);
    RunInvokes(x.c, x.visits);
    InvokedLength(attempts);
    InvokedAt(attempts, k);
    AttemptIsVisit(x.c, x.visits, k);
    i := attempts[k].position;
    assert VisitFits(x.c, i, x.visits[i]);
  }

  /** Every invocation of a run is of a configured provider, under the model that the
      request resolves to for it. */
  lemma InvokedAsConfigured(x: Run, providers: seq<Provider>, k: nat)
    requires Promised(x) && multiset(x.c.ordered) == multiset(providers) && k < |Pick(x.log, InvokeStep)|
    ensures var call := Pick(x.log, InvokeStep)[k];
            && (exists p :: p in providers && p.name == call.provider)
            && if IsLogical(x.c.req.model) then Maps(x.c.s, x.c.req.model, call.provider, call.model)
               else call.model == x.c.req.model
  {
    var i := InvocationIsAttempt(x, k);
    assert x.c.ordered[i] in multiset(x.c.ordered);
  }

  /** Over any run each configured provider is invoked at most once, counting every call
      in the transcript. */
  lemma EachProviderAtMostOnce(x: Run, providers: seq<Provider>, j: nat, k: nat)
    requires Promised(x) && DistinctNames(providers) && multiset(x.c.ordered) == multiset(providers)
    requires j < k < |Pick(x.log, InvokeStep)|
    ensures Pick(x.log, InvokeStep)[j].provider != Pick(x.log, InvokeStep)[k].provider
  {
    var m := InvocationIsAttempt(x, j);
    var l := InvocationIsAttempt(x, k);
    PositionsIncrease(x.c, x.visits, j, k);
    PermutedNamesAreDistinct(providers, x.c.ordered);
  }

  lemma {:induction false} InvokedLength(attempts: seq<Attempt>)
    ensures |InvokedBy(attempts)| == |attempts|
  {
    if attempts != [] {
      InvokedLength(attempts[..|attempts| - 1]);
    }
  }

  // ------------------------------------------------------- a live fallback

  lemma WalkPrefix(c: Call, visits: seq<Visit>, m: nat)
    requires Walk(c, visits) && m <= |visits|
    ensures Walk(c, visits[..m]) && (m < |visits| ==> GoesOn(c, visits[..m]))
  {
    var front := visits[..m];
    forall i | 0 <= i < m
      ensures VisitFits(c, i, front[i]) && (i < |visits| - 1 ==> PassesOn(c, front[i]))
    {
      assert front[i] == visits[i];
    }
  }

  lemma PrefixOfPrefix(visits: seq<Visit>, l: nat, m: nat)
    requires m < l <= |visits|
    ensures visits[..l][m] == visits[m] && visits[..l][..m] == visits[..m]
  {
  }

  /** The transcript around the visit of a position. */
  lemma {:induction false} SplitAt(c: Call, visits: seq<Visit>, m: nat) returns (steps: seq<Step>, rest: seq<Step>)
    requires Walk(c, visits) && m < |visits|
    ensures Walk(c, visits[..m]) && VisitFits(c, m, visits[m])
    ensures steps == VisitSteps(c, |AttemptsOf(visits[..m])|, m, visits[m])
    ensures Script(c, visits) == Script(c, visits[..m]) + steps + rest
  {
    WalkPrefix(c, visits, m);
    var last := ScriptUnfolds(c, visits);
    var n := |visits| - 1;
    if m == n {
      steps, rest := last, [];
    } else {
      PrefixOfPrefix(visits, n, m);
      var inner;
      steps, inner := SplitAt(c, visits[..n], m);
      rest := inner + last;
      Reassociate(Script(c, visits[..m]) + steps, inner, last);
    }
  }

  function InvokeOf(a: Attempt): Step { Invoke(a.provider, a.model, InvocationOf(a.end)) }

  /** Within an invoked visit: how far in the invocation comes, never last. */
  lemma InvokeWithin(c: Call, n: nat, i: nat, v: Visit) returns (at: nat)
    requires i < |c.ordered| && VisitFits(c, i, v) && v.Tried?
    ensures at < |VisitSteps(c, n, i, v)| - 1 && VisitSteps(c, n, i, v)[at] == InvokeOf(v.attempt)
  {
    var consult := ConsultSteps(c, KeyOf(c, c.ordered[i].name, ModelAt(c, i).model), v.consult);
    var attempt, after := AttemptSteps(c, n, v.attempt), AfterSteps(c, v.attempt, v.after);
    AttemptInvokesFourth(c, n, v.attempt);
    assert VisitSteps(c, n, i, v) == consult + (attempt + after);
    assert (attempt + after)[3] == attempt[3];
    at := |consult| + 3;
  }

  lemma AttemptInvokesFourth(c: Call, n: nat, a: Attempt)
    requires Possible(a.end)
    ensures |AttemptSteps(c, n, a)| > 4 && AttemptSteps(c, n, a)[3] == InvokeOf(a)
  {
    var opening := OpeningSteps(n, a.provider, a.model);
    assert |opening| == 3 && |ClosingSteps(n, a)| > 0;
    var start := opening + [InvokeOf(a)];
    assert start[3] == InvokeOf(a);
    var stream := StreamSteps(c, n, a.provider, a.end);
    assert (start + stream)[3] == start[3];
  }

  /** A visit that fell back ends by asking the context, which was live. */
  lemma FallbackAsksLast(c: Call, n: nat, i: nat, v: Visit)
    requires i < |c.ordered| && VisitFits(c, i, v) && v.Tried? && PassesOn(c, v)
    ensures var steps := VisitSteps(c, n, i, v); steps != [] && steps[|steps| - 1] == ContextAsked(false)
  {
    var consult := ConsultSteps(c, KeyOf(c, c.ordered[i].name, ModelAt(c, i).model), v.consult);
    var attempt, after := AttemptSteps(c, n, v.attempt), AfterSteps(c, v.attempt, v.after);
    assert after == [ContextAsked(false)];
    assert VisitSteps(c, n, i, v) == consult + (attempt + after);
  }

  /** Steps that hold the invocation of an attempt, and more. */
  ghost predicate HoldsInvocation(steps: seq<Step>, a: Attempt)
  {
    exists at :: 0 <= at < |steps| - 1 && steps[at] == InvokeOf(a)
  }

  /** Steps that end by asking the context, which was live. */
  predicate EndsLive(steps: seq<Step>) { steps != [] && steps[|steps| - 1] == ContextAsked(false) }

  /** The part of the transcript that belongs to a tried position: it holds the
      invocation, and ends with a live context if the request went on from there. */
  lemma TriedPart(c: Call, visits: seq<Visit>, m: nat) returns (steps: seq<Step>, rest: seq<Step>)
    requires Walk(c, visits) && m < |visits| && visits[m].Tried?
    ensures Walk(c, visits[..m]) && Script(c, visits) == Script(c, visits[..m]) + steps + rest
    ensures HoldsInvocation(steps, visits[m].attempt) && (PassesOn(c, visits[m]) ==> EndsLive(steps))
  {
    steps, rest := SplitAt(c, visits, m);
    var n := |AttemptsOf(visits[..m])|;
    var at := InvokeWithin(c, n, m, visits[m]);
    if PassesOn(c, visits[m]) {
      FallbackAsksLast(c, n, m, visits[m]);
    }
    assert steps[at] == InvokeOf(visits[m].attempt);
  }

  /** The context had not ended by the time of a live answer. */
  lemma LiveUntil(w: World, log: seq<Step>, y: nat)
    requires Answered(w, log) && Monotone(w) && y < |log| && log[y] == ContextAsked(false)
    ensures forall t: nat :: t <= y ==> !w.contextDone(t)
  {
    assert AnsweredAt(w, y, log[y]);
  }

  /** One attempt invoked, then the context asked and live, then another invoked. */
  ghost predicate InvokedLiveInvoked(w: World, log: seq<Step>, a: Attempt, b: Attempt)
  {
    exists p, y, q ::
      && 0 <= p < y < q < |log| && log[p] == InvokeOf(a) && log[y] == ContextAsked(false) && log[q] == InvokeOf(b)
      && forall t: nat :: t <= y ==> !w.contextDone(t)
  }

  lemma PartsWereLive(w: World, before: seq<Step>, first: seq<Step>, between: seq<Step>, second: seq<Step>, rest: seq<Step>,
                      a: Attempt, b: Attempt)
    requires var log := before + first + between + second + rest; Answered(w, log) && Monotone(w)
    requires HoldsInvocation(first, a) && EndsLive(first) && HoldsInvocation(second, b)
    ensures InvokedLiveInvoked(w, before + first + between + second + rest, a, b)
  {
    var log := before + first + between + second + rest;
    var i :| 0 <= i < |first| - 1 && first[i] == InvokeOf(a);
    var j :| 0 <= j < |second| - 1 && second[j] == InvokeOf(b);
    var p, y, q := |before| + i, |before| + |first| - 1, |before + first + between| + j;
    assert log[p] == InvokeOf(a) && log[y] == ContextAsked(false) && log[q] == InvokeOf(b);
    LiveUntil(w, log, y);
  }

  /** The part of a position that was passed on from, in the transcript of a walk that
      goes on. */
  lemma PassedPart(c: Call, front: seq<Visit>, m: nat) returns (before: seq<Step>, steps: seq<Step>, rest: seq<Step>)
    requires GoesOn(c, front) && m < |front| && front[m].Tried?
    ensures Script(c, front) == before + steps + rest && HoldsInvocation(steps, front[m].attempt) && EndsLive(steps)
  {
    PassedOn(c, front, m);
    steps, rest := TriedPart(c, front, m);
    before := Script(c, front[..m]);
  }

  lemma PassedOn(c: Call, front: seq<Visit>, m: nat)
    requires GoesOn(c, front) && m < |front|
    ensures PassesOn(c, front[m])
  {
  }

  lemma FallbackParts(c: Call, visits: seq<Visit>, m: nat, l: nat)
    returns (before: seq<Step>, first: seq<Step>, between: seq<Step>, second: seq<Step>, rest: seq<Step>)
    requires Walk(c, visits) && m < l < |visits| && visits[m].Tried? && visits[l].Tried?
    ensures Script(c, visits) == before + first + between + second + rest
    ensures HoldsInvocation(first, visits[m].attempt) && EndsLive(first) && HoldsInvocation(second, visits[l].attempt)
  {
    WalkPrefix(c, visits, l);
    second, rest := TriedPart(c, visits, l);
    PrefixOfPrefix(visits, l, m);
    before, first, between := PassedPart(c, visits[..l], m);
  }

  /** Between two invocations of a run the context was asked and was live, and had been
      live all along; the abandoned provider had failed with a timeout, an outage or a
      rate limit, and its circuit was told so. */
  lemma FallbackWasLive(x: Run, w: World, j: nat, k: nat)
    requires Promised(x) && Answered(w, x.log) && Monotone(w) && j < k < |AttemptsOf(x.visits)|
    ensures InvokedLiveInvoked(w, x.log, AttemptsOf(x.visits)[j], AttemptsOf(x.visits)[k])
    ensures OutcomeOf(AttemptsOf(x.visits)[j]) in {Timeout, Unavailable, RateLimited}
    ensures ReportOf(OutcomeOf(AttemptsOf(x.visits)[j])) == CircuitBreaker.Failed
  {
    var c, visits := x.c, x.visits;
    var m, l := AttemptsOf(visits)[j].position, AttemptsOf(visits)[k].position;
    AttemptIsVisit(c, visits, j);
    AttemptIsVisit(c, visits, k);
    PositionsIncrease(c, visits, j, k);
    AbandonedWereReported(c, m, visits[m]);
    var before, first, between, second, rest := FallbackParts(c, visits, m, l);
    PartsWereLive(w, before, first, between, second, rest, AttemptsOf(visits)[j], AttemptsOf(visits)[k]);
  }

  // ------------------------------------------------- what the client is shown

  /** What the stream of the last position visited delivered before it stopped. */
  function DeliveredLast(visits: seq<Visit>): seq<Chunk>
  {
    if visits == [] then []
    else
      match visits[|visits| - 1]
      case Tried(_, Attempt(_, _, _, Ended(consumed, _), _), _) => consumed
      case Tried(_, Attempt(_, _, _, EmitFailed(consumed, _, _, _), _), _) => consumed
      case _ => []
  }

  lemma LastShownIs(c: Call, visits: seq<Visit>)
    ensures LastShown(c, visits) == Emissions(DeliveredLast(visits), IsLogical(c.req.model), c.req.model)
  {
  }

  /** Over any run, everything the client was shown came from the last position visited:
      chunk by chunk what its stream delivered, except chunks that say nothing, without
      usage, under the logical model asked for. */
  lemma ShownByLastAttempt(x: Run)
    requires Promised(x)
    ensures AllShown(Pick(x.log, EmitStep), DeliveredLast(x.visits), IsLogical(x.c.req.model), x.c.req.model)
  {
    RunEmits(x.c, x.visits);
    LastShownIs(x.c, x.visits);
    EmissionsAreClean(DeliveredLast(x.visits), IsLogical(x.c.req.model), x.c.req.model);
  }

  /** A stream succeeds exactly when the last attempt's stream reached its own end. */
  lemma StreamedMeansEnded(x: Run)
    requires Promised(x)
    ensures x.result == Streamed
            <==> Acceptable(x.c) && x.visits != [] && var v := x.visits[|x.visits| - 1];
                 v.Tried? && v.attempt.end.Ended? && v.attempt.end.err.isEOF
  {
    if Acceptable(x.c) && x.visits != [] {
      var n := |x.visits| - 1;
      assert VisitFits(x.c, n, x.visits[n]);
      StreamedExactly(x.c, n, x.visits[n]);
    }
  }

  /** A visit ends a request as streamed exactly when its stream reached its own end. */
  lemma StreamedExactly(c: Call, i: nat, v: Visit)
    requires i < |c.ordered| && VisitFits(c, i, v)
    ensures EndOf(c, i, v) == Streamed <==> v.Tried? && v.attempt.end.Ended? && v.attempt.end.err.isEOF
    ensures EndOf(c, i, v) == Streamed ==> !PassesOn(c, v)
  {
  }

  // ---------------------------------------------------- what a run returns

  /** A completion that was delivered is the answer, under the logical model asked for. */
  lemma AnswerIsProviders(x: Run)
    requires Promised(x) && x.visits != []
    ensures var v := x.visits[|x.visits| - 1];
            v.Tried? && v.attempt.end.Completed? && Delivered(v.attempt.end) ==>
              x.result.Answer? && AnswersAs(x.c, x.result.response, v.attempt.end.response)
  {
    var n := |x.visits| - 1;
    assert VisitFits(x.c, n, x.visits[n]);
  }

  /** The error a visit leaves behind: the circuit was open, or the attempt failed. */
  predicate LeavesError(c: Call, i: nat, v: Visit, err: Error)
    requires i < |c.ordered|
  {
    || (v.Barred? && err == CircuitIsOpen(c.ordered[i].name))
    || (v.Tried? && !Delivered(v.attempt.end) && err == Upstream(ErrorAt(v.attempt.end)))
  }

  lemma {:induction false} LastErrorIsLatest(c: Call, visits: seq<Visit>, j: nat, err: Error)
    requires j < |visits| <= |c.ordered| && LeavesError(c, j, visits[j], err)
    requires forall i :: j < i < |visits| ==> visits[i].NoMapping?
    ensures LastError(c, visits) == err
  {
    if j < |visits| - 1 {
      LastErrorIsLatest(c, visits[..|visits| - 1], j, err);
    }
  }

  lemma ErrorEndsVisit(c: Call, i: nat, v: Visit, err: Error)
    requires i < |c.ordered| && LeavesError(c, i, v, err)
    ensures EndOf(c, i, v) == Failure(err)
  {
  }

  /** One alias for all: past a usable position, none is unresolvable for want of an alias. */
  lemma NeverUnresolvable(c: Call, visits: seq<Visit>)
    requires Walk(c, visits) && visits != []
    ensures !CannotResolve(c, visits)
  {
    assert VisitFits(c, 0, visits[0]);
    if GoesOn(c, visits) {
      assert PassesOn(c, visits[0]);
    }
  }

  /** A run whose latest usable position left an error returns that very error, unless it
      then came to a provider that cannot stream. */
  lemma FailureIsLatestError(x: Run, j: nat, err: Error)
    requires Promised(x) && j < |x.visits| && LeavesError(x.c, j, x.visits[j], err)
    requires forall i :: j < i < |x.visits| ==> x.visits[i].NoMapping?
    ensures x.result == Failure(if CannotStream(x.c, x.visits) then StreamingUnavailable(x.c.ordered[|x.visits|].name) else err)
  {
    LastErrorIsLatest(x.c, x.visits, j, err);
    NeverUnresolvable(x.c, x.visits);
    if j == |x.visits| - 1 {
      ErrorEndsVisit(x.c, j, x.visits[j], err);
    }
  }

  lemma {:induction false} UnmappedIsSilent(c: Call, visits: seq<Visit>)
    requires Walk(c, visits) && forall i :: 0 <= i < |visits| ==> visits[i].NoMapping?
    ensures Script(c, visits) == [] && LastError(c, visits) == NoUsableModelMapping
  {
    if visits != [] {
      var last := ScriptUnfolds(c, visits);
      UnmappedIsSilent(c, visits[..|visits| - 1]);
    }
  }

  /** A request for a model that resolves nowhere makes no call, and fails for want of the
      alias, of the mapping, or with fallback of any usable one. */
  lemma UnmappedFails(x: Run)
    requires Promised(x) && Acceptable(x.c) && forall i :: 0 <= i < |x.c.ordered| ==> ModelAt(x.c, i).Unresolved?
    ensures x.log == []
    ensures x.result == Failure(if x.c.req.model !in x.c.s.mappings then UnknownAlias
                                else if x.c.s.fallback then NoUsableModelMapping else MissingMapping)
  {
    forall i | 0 <= i < |x.visits|
      ensures x.visits[i].NoMapping? && PassesOn(x.c, x.visits[i])
    {
      assert VisitFits(x.c, i, x.visits[i]);
    }
    UnmappedIsSilent(x.c, x.visits);
    if x.visits != [] {
      assert VisitFits(x.c, 0, x.visits[0]);
    }
    assert ModelAt(x.c, 0).Unresolved?;
  }

  // -------------------------------------------- positions that cannot stream

  /** Only providers that can stream are asked for admission or invoked by Stream. */
  lemma AskedPositionsStream(x: Run, i: nat)
    requires Promised(x) && x.c.streams && i < |x.visits| && !x.visits[i].NoMapping?
    ensures x.c.ordered[i].streaming && (x.visits[i].Tried? || x.visits[i].Barred?)
  {
    assert VisitFits(x.c, i, x.visits[i]);
  }

  lemma {:induction false} LastErrorIsNotMute(c: Call, visits: seq<Visit>)
    requires |visits| <= |c.ordered|
    ensures !LastError(c, visits).StreamingUnavailable?
  {
    if visits != [] {
      LastErrorIsNotMute(c, visits[..|visits| - 1]);
    }
  }

  /** A streaming request fails for want of streaming exactly when its walk reaches a
      resolved position whose provider cannot stream, and then for that position,
      whatever the positions behind it could do. */
  lemma UnavailableExactlyWhenReached(x: Run)
    requires Promised(x) && Acceptable(x.c) && x.c.streams
    ensures x.result.Failure? && x.result.err.StreamingUnavailable? <==> CannotStream(x.c, x.visits)
    ensures CannotStream(x.c, x.visits) ==> x.result == Failure(StreamingUnavailable(x.c.ordered[|x.visits|].name))
  {
    LastErrorIsNotMute(x.c, x.visits);
  }

  /** A position a walk can pass: no mapping, or a provider that can stream. */
  predicate Passable(c: Call, i: nat)
    requires i < |c.ordered|
  {
    ModelAt(c, i) == Unresolved(MissingMapping) || (ModelAt(c, i).Resolved? && c.ordered[i].streaming)
  }

  /** A mute position a walk can come to: the first one without fallback; with it, any one
      that only passable positions stand before. */
  predicate MuteWithinReach(c: Call, m: nat)
  {
    && m < |c.ordered| && ModelAt(c, m).Resolved? && !c.ordered[m].streaming
    && (m > 0 ==> c.s.fallback) && forall i :: 0 <= i < m ==> Passable(c, i)
  }

  /** The walk that every circuit turns away, up to a position. */
  function TurnedAwayUpTo(c: Call, m: nat): seq<Visit>
    requires m <= |c.ordered|
  {
    seq(m, i requires 0 <= i < m => if ModelAt(c, i).Unresolved? then NoMapping else Barred(NOT_CONSULTED))
  }

  lemma TurnedAwayGoesOn(c: Call, m: nat)
    requires c.streams && MuteWithinReach(c, m)
    ensures GoesOn(c, TurnedAwayUpTo(c, m))
  {
    var visits := TurnedAwayUpTo(c, m);
    forall i | 0 <= i < m
      ensures VisitFits(c, i, visits[i]) && PassesOn(c, visits[i])
    {
      assert Passable(c, i);
    }
  }

  /** A walk that comes to a mute position came past passable ones. */
  lemma ReachedIsWithinReach(c: Call, visits: seq<Visit>)
    requires CannotStream(c, visits)
    ensures MuteWithinReach(c, |visits|)
  {
    forall i | 0 <= i < |visits|
      ensures Passable(c, i) && c.s.fallback
    {
      assert VisitFits(c, i, visits[i]) && PassesOn(c, visits[i]);
    }
  }

  /** Known before the call: some run of a streaming request fails for want of streaming
      at position m exactly when that position is mute and within reach. */
  lemma UnavailableExactlyWithinReach(c: Call, m: nat)
    requires Acceptable(c) && c.streams
    ensures MuteWithinReach(c, m)
            <==> exists x: Run :: Promised(x) && x.c == c && |x.visits| == m < |c.ordered|
                                  && x.result == Failure(StreamingUnavailable(c.ordered[m].name))
  {
    if MuteWithinReach(c, m) {
      var visits := TurnedAwayUpTo(c, m);
      TurnedAwayGoesOn(c, m);
      var x := Run(c, Script(c, visits), visits, Failure(StreamingUnavailable(c.ordered[m].name)));
      assert CannotStream(c, visits);
      assert Promised(x);
    }
    forall x: Run | Promised(x) && x.c == c && |x.visits| == m < |c.ordered|
                    && x.result == Failure(StreamingUnavailable(c.ordered[m].name))
      ensures MuteWithinReach(c, m)
    {
      UnavailableExactlyWhenReached(x);
      ReachedIsWithinReach(c, x.visits);
    }
  }

  /** Two providers, both mapped, the first unable to stream. */
  const MUTE_FIRST := Call(
    Service(true, map["routeforge/x" := map["a" := "m", "b" := "m"]], false),
    Request("routeforge/x", [Message("user", "hello")], true), [Provider("a", false), Provider("b", true)], true)

  /** The request fails although the second provider could have streamed: there is one
      run of it, and it makes not a single call. */
  lemma MuteProviderEndsStream(log: seq<Step>, visits: seq<Visit>, result: Result)
    ensures Acceptable(MUTE_FIRST) && ModelAt(MUTE_FIRST, 1).Resolved? && MUTE_FIRST.ordered[1].streaming
    ensures Lawful(MUTE_FIRST, log, visits, result)
            <==> log == [] && visits == [] && result == Failure(StreamingUnavailable("a"))
  {
    var c := MUTE_FIRST;
    assert TrimSpace("m") == "m" && TrimSpace("routeforge/x") == "routeforge/x";
    assert ModelAt(c, 0) == Resolved("m") && ModelAt(c, 1) == Resolved("m");
  }
}
