/** The response cache (internal/cache/cache.go, internal/gateway/cache.go). JSON is
    taken as a codec that reads back what it wrote, hashing as an injective key. */
module ResponseCache {
  import opened Common
  import opened Requests
  import opened Transcripts
  import opened Projections
  import opened Walks

  const MAX_VALUE_BYTES := 1048576

  type Bytes = seq<bv8>

  datatype Envelope = Envelope(version: int, response: Response)

  /** JSON of an envelope; `unmarshal` accepts one document and nothing after it. */
  datatype Codec = Codec(marshal: Envelope -> Bytes, unmarshal: Bytes -> Option<Envelope>)

  ghost predicate Faithful(codec: Codec)
  {
    forall e :: codec.marshal(e) != [] && codec.unmarshal(codec.marshal(e)) == Some(e)
  }

  ghost predicate Injective(keys: CacheKey -> string)
  {
    forall a, b :: keys(a) == keys(b) ==> a == b
  }

  predicate ChoiceComplete(c: Choice, i: int)
  {
    c.index == i && c.role == "assistant" && c.content != "" && c.finishReason == "stop"
  }

  /** Only normal, whole assistant answers are worth reusing. */
  predicate IsComplete(r: Response)
  {
    && r.id != "" && r.kind == "chat.completion" && r.model != "" && r.choices != []
    && forall i :: 0 <= i < |r.choices| ==> ChoiceComplete(r.choices[i], i)
  }

  /** complete. */
  method CheckComplete(r: Response) returns (ok: bool)
    ensures ok <==> IsComplete(r)
  {
    if r.id == "" || r.kind != "chat.completion" || r.model == "" || r.choices == [] { return false; }
    var i := 0;
    while i < |r.choices|
      invariant 0 <= i <= |r.choices|
      invariant forall k :: 0 <= k < i ==> ChoiceComplete(r.choices[k], k)
    {
      var choice := r.choices[i];
      if choice.index != i || choice.role != "assistant" || choice.content == "" || choice.finishReason != "stop" {
        return false;
      }
      i := i + 1;
    }
    ok := true;
  }

  /** boundedBuffer: a write that would pass the bound is refused whole. */
  class BoundedBuffer {
    var data: Bytes

    constructor ()
      ensures data == []
    {
      data := [];
    }

    method Write(more: Bytes) returns (ok: bool)
      requires |data| <= MAX_VALUE_BYTES
      modifies this
      ensures ok <==> |old(data)| + |more| <= MAX_VALUE_BYTES
      ensures data == (if ok then old(data) + more else old(data)) && |data| <= MAX_VALUE_BYTES
    {
      if |more| > MAX_VALUE_BYTES - |data| { return false; }
      data := data + more;
      ok := true;
    }
  }

  function Encoded(codec: Codec, r: Response): Option<Bytes>
  {
    if !IsComplete(r) || |codec.marshal(Envelope(1, r))| > MAX_VALUE_BYTES then None
    else Some(codec.marshal(Envelope(1, r)))
  }

  /** Encode. */
  method Encode(codec: Codec, r: Response) returns (data: Option<Bytes>)
    ensures data == Encoded(codec, r)
  {
    var cacheable := CheckComplete(r);
    if !cacheable { return None; }
    var buffer := new BoundedBuffer();
    var ok := buffer.Write(codec.marshal(Envelope(1, r)));
    assert [] + codec.marshal(Envelope(1, r)) == codec.marshal(Envelope(1, r));
    if !ok { return None; }
    data := Some(buffer.data);
  }

  /** The bytes hold one version-one envelope of a complete answer, within the bound. */
  predicate Holds(codec: Codec, data: Bytes, response: Response)
  {
    0 < |data| <= MAX_VALUE_BYTES && codec.unmarshal(data) == Some(Envelope(1, response)) && IsComplete(response)
  }

  /** Decode: an answer comes out exactly when the bytes hold it. */
  function Decode(codec: Codec, data: Bytes): (r: Option<Response>)
    ensures forall response :: r == Some(response) <==> Holds(codec, data, response)
  {
    if |data| == 0 || |data| > MAX_VALUE_BYTES then None
    else
      var value := codec.unmarshal(data);
      if value.None? || value.value.version != 1 || !IsComplete(value.value.response) then None
      else Some(value.value.response)
  }

  /** What can be stored is read back unchanged; exactly the complete answers within
      the size bound can be stored. */
  lemma CodecRoundTrip(codec: Codec, r: Response)
    requires Faithful(codec)
    ensures Encoded(codec, r).Some? ==> Decode(codec, Encoded(codec, r).value) == Some(r)
    ensures Encoded(codec, r).Some? <==> Decode(codec, codec.marshal(Envelope(1, r))) == Some(r)
  {
    assert codec.unmarshal(codec.marshal(Envelope(1, r))) == Some(Envelope(1, r));
  }

  /** What the store answers to a Get. */
  datatype Fetch = GetFailed | Fetched(data: Bytes)

  /** lookupCompletion: only a decoded value is a hit. */
  function LookupCompletion(codec: Codec, fetch: Fetch): (r: Option<Response>)
    ensures forall response :: r == Some(response) <==> fetch.Fetched? && Holds(codec, fetch.data, response)
  {
    if fetch.GetFailed? || fetch.data == [] then None else Decode(codec, fetch.data)
  }

  // ------------------------------------------------------------- one run

  function PutStep(s: Step): Option<CacheKey> { if s.CachePut? then Some(s.key) else None }

  lemma OpeningPutsNothing(n: nat, a: Attempt)
    ensures Pick(OpeningSteps(n, a.provider, a.model), PutStep) == []
  {
    PickOpening(n, a.provider, a.model, PutStep);
  }

  lemma ClosingPutsNothing(n: nat, a: Attempt)
    ensures Pick(ClosingSteps(n, a), PutStep) == []
  {
    PickClosing(n, a, PutStep);
  }

  lemma AttemptPutsNothing(c: Call, n: nat, a: Attempt)
    requires Possible(a.end)
    ensures Pick(AttemptSteps(c, n, a), PutStep) == []
  {
    OpeningPutsNothing(n, a);
    ClosingPutsNothing(n, a);
    StreamNothing(c, n, a.provider, a.end, PutStep);
    JoinEnds(OpeningSteps(n, a.provider, a.model), InvokeOf(a), StreamSteps(c, n, a.provider, a.end), ClosingSteps(n, a), PutStep,
             [], []);
  }

  predicate NoPut(steps: seq<Step>) { forall i :: 0 <= i < |steps| ==> !steps[i].CachePut? }

  lemma AttemptHasNoPut(c: Call, n: nat, a: Attempt)
    requires Possible(a.end)
    ensures NoPut(AttemptSteps(c, n, a))
  {
    var steps := AttemptSteps(c, n, a);
    AttemptPutsNothing(c, n, a);
    forall i | 0 <= i < |steps|
      ensures !steps[i].CachePut?
    {
      PickedNothing(steps, PutStep, i);
    }
  }

  /** A put in such a sequence lies in its last part. */
  lemma PutLiesLast(first: seq<Step>, second: seq<Step>, third: seq<Step>, j: nat)
    requires NoPut(first) && NoPut(second) && |third| <= 2 && (third != [] ==> !third[0].CachePut?)
    requires j < |first + (second + third)| && (first + (second + third))[j].CachePut?
    ensures |third| == 2 && j == |first + (second + third)| - 1 && (first + (second + third))[j] == third[1]
  {
  }

  /** After an attempt at most one thing is stored, last, and only its own success. */
  lemma AfterPuts(c: Call, a: Attempt, after: Option<bool>)
    ensures var steps := AfterSteps(c, a, after);
            && |steps| <= 2 && (steps != [] ==> !steps[0].CachePut?)
            && (|steps| == 2 ==> a.end.Completed? && a.end.failure.None?
                                 && steps[1] == CachePut(KeyOf(c, a.provider, a.model), Returned(c, a.end.response)))
  {
  }

  lemma ConsultHasNoPut(c: Call, key: CacheKey, q: Consult)
    ensures NoPut(ConsultSteps(c, key, q))
  {
  }

  /** A visit stores at most once, last, and only a complete success of its own. */
  lemma VisitPuts(c: Call, n: nat, i: nat, v: Visit, j: nat)
    requires i < |c.ordered| && VisitFits(c, i, v)
    requires j < |VisitSteps(c, n, i, v)| && VisitSteps(c, n, i, v)[j].CachePut?
    ensures j == |VisitSteps(c, n, i, v)| - 1 && v.Tried? && v.attempt.end.Completed? && v.attempt.end.failure.None?
    ensures VisitSteps(c, n, i, v)[j]
            == CachePut(KeyOf(c, v.attempt.provider, v.attempt.model), Returned(c, v.attempt.end.response))
  {
    if !v.NoMapping? {
      var key := KeyOf(c, c.ordered[i].name, ModelAt(c, i).model);
      ConsultHasNoPut(c, key, v.consult);
      if v.Tried? {
        AttemptHasNoPut(c, n, v.attempt);
        AfterPuts(c, v.attempt, v.after);
        PutLiesLast(ConsultSteps(c, key, v.consult), AttemptSteps(c, n, v.attempt), AfterSteps(c, v.attempt, v.after), j);
      }
    }
  }

  /** The step is a successful invocation of the key's provider under the key's model,
      made for the key's request, and the response is its answer as it was returned. */
  predicate Produces(c: Call, s: Step, key: CacheKey, response: Response)
  {
    && s.Invoke? && s.invocation.Completes? && s.invocation.failure.None? && c.req == key.request
    && s.provider == key.provider && s.model == key.model && AnswersAs(c, response, s.invocation.response)
  }

  /** The step at j stores what this visit's attempt produced at the earlier step i. */
  ghost predicate StoresOwn(c: Call, v: Visit, log: seq<Step>, i: nat, j: nat)
  {
    && i < j < |log| && v.Tried? && v.attempt.end.Completed? && v.attempt.end.failure.None?
    && log[j] == CachePut(KeyOf(c, v.attempt.provider, v.attempt.model), Returned(c, v.attempt.end.response))
    && log[i] == InvokeOf(v.attempt)
  }

  lemma VisitStoresOwn(c: Call, n: nat, k: nat, v: Visit, steps: seq<Step>, j: nat) returns (i: nat)
    requires k < |c.ordered| && VisitFits(c, k, v) && steps == VisitSteps(c, n, k, v)
    requires j < |steps| && steps[j].CachePut?
    ensures StoresOwn(c, v, steps, i, j)
  {
    VisitPuts(c, n, k, v, j);
    i := InvokeWithin(c, n, k, v);
  }

  lemma StoresOwnShifted(c: Call, v: Visit, before: seq<Step>, steps: seq<Step>, i: nat, j: nat)
    requires StoresOwn(c, v, steps, i, j)
    ensures StoresOwn(c, v, before + steps, |before| + i, |before| + j)
  {
  }

  lemma {:induction false} GoingOnPutsNothing(c: Call, visits: seq<Visit>)
    requires GoesOn(c, visits)
    ensures NoPut(Script(c, visits))
  {
    if visits != [] {
      var n := |visits| - 1;
      var last := ScriptUnfolds(c, visits);
      GoingOnPutsNothing(c, visits[..n]);
      PassedOnPutsNothing(c, |AttemptsOf(visits[..n])|, n, visits[n]);
      NoPutConcat(Script(c, visits[..n]), last);
    }
  }

  lemma NoPutConcat(a: seq<Step>, b: seq<Step>)
    requires NoPut(a) && NoPut(b)
    ensures NoPut(a + b)
  {
  }

  lemma PassedOnPutsNothing(c: Call, n: nat, i: nat, v: Visit)
    requires i < |c.ordered| && VisitFits(c, i, v) && PassesOn(c, v)
    ensures NoPut(VisitSteps(c, n, i, v))
  {
    if v.Tried? {
      AttemptHasNoPut(c, n, v.attempt);
      NoPutConcat(AttemptSteps(c, n, v.attempt), AfterSteps(c, v.attempt, v.after));
    }
  }

  lemma PutIsAfter(before: seq<Step>, steps: seq<Step>, j: nat)
    requires NoPut(before) && j < |before + steps| && (before + steps)[j].CachePut?
    ensures |before| <= j && (before + steps)[j] == steps[j - |before|]
  {
  }

  /** Whatever the steps store, the visit's attempt produced. */
  ghost predicate OwnPutsOnly(c: Call, v: Visit, steps: seq<Step>)
  {
    forall j :: 0 <= j < |steps| && steps[j].CachePut? ==> exists i :: StoresOwn(c, v, steps, i, j)
  }

  lemma VisitHasOwnPutsOnly(c: Call, n: nat, k: nat, v: Visit, steps: seq<Step>)
    requires k < |c.ordered| && VisitFits(c, k, v) && steps == VisitSteps(c, n, k, v)
    ensures OwnPutsOnly(c, v, steps)
  {
    forall j | 0 <= j < |steps| && steps[j].CachePut?
      ensures exists i :: StoresOwn(c, v, steps, i, j)
    {
      var i := VisitStoresOwn(c, n, k, v, steps, j);
    }
  }

  lemma PutInLast(c: Call, v: Visit, before: seq<Step>, steps: seq<Step>, j: nat) returns (i: nat)
    requires OwnPutsOnly(c, v, steps) && NoPut(before) && j < |before + steps| && (before + steps)[j].CachePut?
    ensures StoresOwn(c, v, before + steps, i, j)
  {
    PutIsAfter(before, steps, j);
    var k :| StoresOwn(c, v, steps, k, j - |before|);
    StoresOwnShifted(c, v, before, steps, k, j - |before|);
    i := |before| + k;
  }

  /** What a walk stores, its last visit produced just before. */
  lemma PutIsLast(c: Call, visits: seq<Visit>, j: nat) returns (i: nat)
    requires Walk(c, visits) && j < |Script(c, visits)| && Script(c, visits)[j].CachePut?
    ensures visits != [] && StoresOwn(c, visits[|visits| - 1], Script(c, visits), i, j)
  {
    var n := |visits| - 1;
    var last := ScriptUnfolds(c, visits);
    GoingOnPutsNothing(c, visits[..n]);
    VisitHasOwnPutsOnly(c, |AttemptsOf(visits[..n])|, n, visits[n], last);
    i := PutInLast(c, visits[n], Script(c, visits[..n]), last, j);
  }

  lemma OwnIsProduced(c: Call, v: Visit, log: seq<Step>, i: nat, j: nat)
    requires StoresOwn(c, v, log, i, j)
    ensures log[j].CachePut? && Produces(c, log[i], log[j].key, log[j].response)
    ensures !PassesOn(c, v)
  {
  }

  lemma OwnIsAnswered(c: Call, n: nat, v: Visit, log: seq<Step>, i: nat, j: nat)
    requires n < |c.ordered| && StoresOwn(c, v, log, i, j)
    ensures EndOf(c, n, v) == Answer(log[j].response)
  {
  }

  /** A run that ends with such a visit returns what it comes to. */
  lemma LastVisitAnswers(x: Run, response: Response)
    requires Promised(x) && x.visits != [] && !PassesOn(x.c, x.visits[|x.visits| - 1])
    requires EndOf(x.c, |x.visits| - 1, x.visits[|x.visits| - 1]) == Answer(response)
    ensures x.result == Answer(response)
  {
    assert !GoesOn(x.c, x.visits);
    assert Acceptable(x.c);
  }

  /** What a run stores is the answer of a successful invocation it made before, for this
      very request and by the provider and model of the key, and it returns it. */
  lemma StoredWasProduced(x: Run, j: nat) returns (i: nat)
    requires Promised(x) && j < |x.log| && x.log[j].CachePut?
    ensures i < j && Produces(x.c, x.log[i], x.log[j].key, x.log[j].response)
    ensures x.result == Answer(x.log[j].response)
  {
    i := PutIsLast(x.c, x.visits, j);
    var n := |x.visits| - 1;
    OwnIsProduced(x.c, x.visits[n], x.log, i, j);
    OwnIsAnswered(x.c, n, x.visits[n], x.log, i, j);
    LastVisitAnswers(x, x.log[j].response);
  }

  /** The calls that serving a position amounts to: its circuit and the context are asked
      before the lookup and again once it has answered, and allow it both times. */
  function ServingSteps(provider: string, key: CacheKey, response: Response): seq<Step>
  {
    [EligibleAsked(provider, true), ContextAsked(false), CacheGet(key, Some(response)),
     EligibleAsked(provider, true), ContextAsked(false), ToHistory(CacheHit(provider))]
  }

  lemma HitSteps(c: Call, n: nat, i: nat, v: Visit)
    requires i < |c.ordered| && VisitFits(c, i, v) && v.Hit?
    ensures v.consult.answer.Some? && ModelAt(c, i).Resolved?
    ensures VisitSteps(c, n, i, v)
            == ServingSteps(c.ordered[i].name, CacheKey(c.req, c.ordered[i].name, ModelAt(c, i).model), v.consult.answer.value)
  {
  }

  /** A served run ends with exactly those calls, and returns what the cache held. */
  lemma ServedExactly(x: Run)
    requires Promised(x) && ServedFromCache(x)
    ensures var n := |x.visits| - 1;
            && ModelAt(x.c, n).Resolved? && x.result.Answer? && |x.log| >= 6
            && x.log[|x.log| - 6..]
               == ServingSteps(x.c.ordered[n].name, CacheKey(x.c.req, x.c.ordered[n].name, ModelAt(x.c, n).model), x.result.response)
  {
    var n := |x.visits| - 1;
    var last := ScriptUnfolds(x.c, x.visits);
    HitSteps(x.c, |AttemptsOf(x.visits[..n])|, n, x.visits[n]);
    LastVisitAnswers(x, x.visits[n].consult.answer.value);
    assert x.log[|x.log| - 6..] == last;
  }

  /** What the cache answered is used exactly when both questions allowed it both times. */
  lemma UsedExactlyWhenAllowed(x: Run, i: nat)
    requires Promised(x) && i < |x.visits| && !x.visits[i].NoMapping?
    ensures var q := x.visits[i].consult;
            x.visits[i].Hit? <==> q.eligible && !q.done && q.answer.Some? && q.stillEligible && !q.stillDone
  {
    assert VisitFits(x.c, i, x.visits[i]);
  }

  lemma DeliveredSteps(c: Call, n: nat, i: nat, v: Visit)
    requires i < |c.ordered| && VisitFits(c, i, v) && v.Tried? && v.attempt.end.Completed? && Delivered(v.attempt.end)
    ensures v.after.Some? <==> v.consult.eligible && !v.consult.done
    ensures var steps := VisitSteps(c, n, i, v); steps != [] && (steps[|steps| - 1].CachePut? <==> v.after == Some(false))
  {
    var attempt, after := AttemptSteps(c, n, v.attempt), AfterSteps(c, v.attempt, v.after);
    AttemptHasNoPut(c, n, v.attempt);
    AttemptInvokesFourth(c, n, v.attempt);
    var consult := ConsultSteps(c, KeyOf(c, c.ordered[i].name, ModelAt(c, i).model), v.consult);
    assert VisitSteps(c, n, i, v) == consult + (attempt + after);
    if v.after.None? {
      assert attempt + after == attempt;
    }
  }

  /** A delivered completion is stored exactly when the request had looked it up before,
      its circuit eligible and its context live, and the context, asked again, is live. */
  lemma StoredExactly(x: Run)
    requires Promised(x) && x.visits != []
    requires var v := x.visits[|x.visits| - 1]; v.Tried? && v.attempt.end.Completed? && Delivered(v.attempt.end)
    ensures var v := x.visits[|x.visits| - 1];
            && (v.after.Some? <==> v.consult.eligible && !v.consult.done)
            && x.log != [] && (x.log[|x.log| - 1].CachePut? <==> v.after == Some(false))
  {
    var n := |x.visits| - 1;
    var last := ScriptUnfolds(x.c, x.visits);
    DeliveredSteps(x.c, |AttemptsOf(x.visits[..n])|, n, x.visits[n]);
    assert x.log[|x.log| - 1] == last[|last| - 1];
  }

  // ------------------------------------------------------- all the requests

  /** A step of a whole history: the index-th call of a request. */
  datatype At = At(request: nat, index: nat)

  /** The calls of all requests, interleaved anyhow and cut off anywhere: each step is a
      step of its request, and comes after the one its request made before. */
  ghost predicate IsHistory(runs: nat -> Run, order: seq<At>)
  {
    forall i :: 0 <= i < |order| ==>
      && order[i].index < |runs(order[i].request).log|
      && (order[i].index > 0 ==> exists j :: 0 <= j < i && order[j] == At(order[i].request, order[i].index - 1))
  }

  function StepAt(runs: nat -> Run, at: At): Step
    requires at.index < |runs(at.request).log|
  {
    runs(at.request).log[at.index]
  }

  /** What a request did before, came before. */
  lemma {:induction false} EarlierStep(runs: nat -> Run, order: seq<At>, i: nat, k: nat) returns (j: nat)
    requires IsHistory(runs, order) && i < |order| && k < order[i].index
    ensures j < i && order[j] == At(order[i].request, k)
    decreases i
  {
    var p :| 0 <= p < i && order[p] == At(order[i].request, order[i].index - 1);
    j := p;
    if k < order[i].index - 1 {
      j := EarlierStep(runs, order, p, k);
    }
  }

  /** The bytes were put in the store, under this key string. */
  ghost predicate Puts(codec: Codec, keys: CacheKey -> string, s: Step, key: string, data: Bytes)
  {
    s.CachePut? && keys(s.key) == key && Encoded(codec, s.response) == Some(data)
  }

  /** The store answers a Get with nothing, an error, or bytes that were put under
      the same key string earlier, however long ago. */
  ghost predicate HonestAt(codec: Codec, keys: CacheKey -> string, runs: nat -> Run, order: seq<At>, i: nat)
    requires IsHistory(runs, order) && i < |order|
  {
    var s := StepAt(runs, order[i]);
    s.CacheGet? ==>
      exists fetch ::
        && s.answer == LookupCompletion(codec, fetch)
        && (fetch.Fetched? && fetch.data != [] ==>
              exists j :: 0 <= j < i && Puts(codec, keys, StepAt(runs, order[j]), keys(s.key), fetch.data))
  }

  ghost predicate Honest(codec: Codec, keys: CacheKey -> string, runs: nat -> Run, order: seq<At>)
    requires IsHistory(runs, order)
  {
    forall i :: 0 <= i < |order| ==> HonestAt(codec, keys, runs, order, i)
  }

  /** A hit gives what some request stored for the same request, provider and model. */
  lemma HitWasStored(codec: Codec, keys: CacheKey -> string, runs: nat -> Run, order: seq<At>, i: nat) returns (j: nat)
    requires Faithful(codec) && Injective(keys) && IsHistory(runs, order) && Honest(codec, keys, runs, order)
    requires i < |order| && StepAt(runs, order[i]).CacheGet? && StepAt(runs, order[i]).answer.Some?
    ensures j < i && StepAt(runs, order[j]) == CachePut(StepAt(runs, order[i]).key, StepAt(runs, order[i]).answer.value)
  {
    var s := StepAt(runs, order[i]);
    assert HonestAt(codec, keys, runs, order, i);
    var fetch :|
      && s.answer == LookupCompletion(codec, fetch)
      && (fetch.Fetched? && fetch.data != [] ==>
            exists j :: 0 <= j < i && Puts(codec, keys, StepAt(runs, order[j]), keys(s.key), fetch.data));
    var k :| 0 <= k < i && Puts(codec, keys, StepAt(runs, order[k]), keys(s.key), fetch.data);
    CodecRoundTrip(codec, StepAt(runs, order[k]).response);
    j := k;
  }

  lemma PutHasOrigin(runs: nat -> Run, at: At) returns (i: nat)
    requires AllPromised(runs) && at.index < |runs(at.request).log| && StepAt(runs, at).CachePut?
    ensures i < at.index
    ensures Produces(runs(at.request).c, StepAt(runs, At(at.request, i)), StepAt(runs, at).key, StepAt(runs, at).response)
    ensures runs(at.request).result == Answer(StepAt(runs, at).response)
  {
    assert Promised(runs(at.request));
    i := StoredWasProduced(runs(at.request), at.index);
  }

  /** Before step i of a history some request, which returned this response, made the
      successful invocation that produced it, for the key's request, provider and model. */
  ghost predicate ProducedBefore(runs: nat -> Run, order: seq<At>, i: nat, key: CacheKey, response: Response)
    requires IsHistory(runs, order) && i <= |order|
  {
    exists j :: 0 <= j < i && Produces(runs(order[j].request).c, StepAt(runs, order[j]), key, response)
                && runs(order[j].request).result == Answer(response)
  }

  /** Over every history of requests, however interleaved and wherever cut, a cache
      hit equals the answer an earlier successful invocation gave to the same request,
      by the same provider under the same model. */
  lemma HitHasOrigin(codec: Codec, keys: CacheKey -> string, runs: nat -> Run, order: seq<At>, i: nat)
    requires Faithful(codec) && Injective(keys) && AllPromised(runs)
    requires IsHistory(runs, order) && Honest(codec, keys, runs, order)
    requires i < |order| && StepAt(runs, order[i]).CacheGet? && StepAt(runs, order[i]).answer.Some?
    ensures ProducedBefore(runs, order, i, StepAt(runs, order[i]).key, StepAt(runs, order[i]).answer.value)
  {
    var put := HitWasStored(codec, keys, runs, order, i);
    var k := PutHasOrigin(runs, order[put]);
    var j := EarlierStep(runs, order, put, k);
    assert StepAt(runs, order[j]) == StepAt(runs, At(order[put].request, k));
  }

  /** The lookup behind an answer from the cache. */
  lemma HitWasLookedUp(c: Call, visits: seq<Visit>) returns (i: nat)
    requires Walk(c, visits) && visits != [] && visits[|visits| - 1].Hit?
    ensures var n := |visits| - 1;
            && VisitFits(c, n, visits[n]) && visits[n].consult.answer.Some? && i < |Script(c, visits)| - 1
            && Script(c, visits)[i] == CacheGet(KeyOf(c, c.ordered[n].name, ModelAt(c, n).model), visits[n].consult.answer)
  {
    var n := |visits| - 1;
    var last := ScriptUnfolds(c, visits);
    var key, q := KeyOf(c, c.ordered[n].name, ModelAt(c, n).model), visits[n].consult;
    var consult := ConsultSteps(c, key, q);
    assert last == consult + [ToHistory(CacheHit(c.ordered[n].name))];
    assert consult[2] == CacheGet(key, q.answer);
    assert last[2] == consult[2];
    i := |Script(c, visits[..n])| + 2;
  }

  /** A request served from the cache returns such an answer: what a successful invocation
      gave earlier to the same request, by the provider and under the model of the
      served position. */
  lemma ServedAnswerHasOrigin(codec: Codec, keys: CacheKey -> string, runs: nat -> Run, order: seq<At>, i: nat)
    requires Faithful(codec) && Injective(keys) && AllPromised(runs)
    requires IsHistory(runs, order) && Honest(codec, keys, runs, order)
    requires i < |order| && ServedFromCache(runs(order[i].request))
    requires order[i].index == |runs(order[i].request).log| - 1
    ensures var x := runs(order[i].request);
            && x.result.Answer? && ModelAt(x.c, |x.visits| - 1).Resolved?
            && (IsLogical(x.c.req.model) ==> x.result.response.model == x.c.req.model)
            && var key := CacheKey(x.c.req, x.c.ordered[|x.visits| - 1].name, ModelAt(x.c, |x.visits| - 1).model);
               ProducedBefore(runs, order, i, key, x.result.response)
  {
    var x := runs(order[i].request);
    assert Promised(x);
    var k := HitWasLookedUp(x.c, x.visits);
    var j := EarlierStep(runs, order, i, k);
    assert StepAt(runs, order[j]) == x.log[k];
    HitHasOrigin(codec, keys, runs, order, j);
  }

  ghost predicate ServedFromCache(x: Run)
  {
    Walk(x.c, x.visits) && x.visits != [] && x.visits[|x.visits| - 1].Hit?
  }

  /** Serving a position from the cache adds nothing to any ledger: whoever has no use
      for questions, the cache and the note of the hit reads in the transcript of a
      served run what was there before it came to that position. */
  lemma ServingLeavesNoTrace<T(!new)>(x: Run, f: Step -> Option<T>)
    requires Promised(x) && ServedFromCache(x) && SkipsQuestions(f) && forall name :: f(ToHistory(CacheHit(name))).None?
    ensures GoesOn(x.c, x.visits[..|x.visits| - 1])
    ensures Pick(x.log, f) == Pick(Script(x.c, x.visits[..|x.visits| - 1]), f)
  {
    var n := |x.visits| - 1;
    var last := ScriptUnfolds(x.c, x.visits);
    PickConcat(Script(x.c, x.visits[..n]), last, f);
    PickVisit(x.c, |AttemptsOf(x.visits[..n])|, n, x.visits[n], f);
  }

  /** What the circuits, telemetry, accounting and the providers were told. */
  ghost predicate SameTold(a: seq<Step>, b: seq<Step>)
  {
    && Pick(a, HealthStep) == Pick(b, HealthStep) && Pick(a, TelemetryStep) == Pick(b, TelemetryStep)
    && Pick(a, AccountStep) == Pick(b, AccountStep) && Pick(a, InvokeStep) == Pick(b, InvokeStep)
  }

  /** A tail that tells none of them anything. */
  ghost predicate TellsNobody(steps: seq<Step>)
  {
    Pick(steps, HealthStep) == [] && Pick(steps, TelemetryStep) == [] && Pick(steps, AccountStep) == [] && Pick(steps, InvokeStep) == []
  }

  lemma HitTellsNobody(c: Call, n: nat, i: nat, v: Visit)
    requires i < |c.ordered| && VisitFits(c, i, v) && v.Hit?
    ensures TellsNobody(VisitSteps(c, n, i, v))
  {
    HitSteps(c, n, i, v);
    ServingTellsNobody(c.ordered[i].name, CacheKey(c.req, c.ordered[i].name, ModelAt(c, i).model), v.consult.answer.value);
  }

  lemma ServingTellsNobody(provider: string, key: CacheKey, response: Response)
    ensures TellsNobody(ServingSteps(provider, key, response))
  {
    var steps := ServingSteps(provider, key, response);
    PickNothing(steps, HealthStep);
    PickNothing(steps, TelemetryStep);
    PickNothing(steps, AccountStep);
    PickNothing(steps, InvokeStep);
  }

  lemma TailAddsNothing(before: seq<Step>, tail: seq<Step>)
    requires TellsNobody(tail)
    ensures SameTold(before + tail, before)
  {
    PickConcat(before, tail, HealthStep);
    PickConcat(before, tail, TelemetryStep);
    PickConcat(before, tail, AccountStep);
    PickConcat(before, tail, InvokeStep);
  }

  /** Serving from the cache leaves circuits, telemetry and accounting unchanged, and
      invokes nobody. */
  lemma ServingChangesNoLedger(x: Run)
    requires Promised(x) && ServedFromCache(x)
    ensures GoesOn(x.c, x.visits[..|x.visits| - 1]) && SameTold(x.log, Script(x.c, x.visits[..|x.visits| - 1]))
  {
    var n := |x.visits| - 1;
    var tail := ScriptUnfolds(x.c, x.visits);
    HitTellsNobody(x.c, |AttemptsOf(x.visits[..n])|, n, x.visits[n]);
    TailAddsNothing(Script(x.c, x.visits[..n]), tail);
  }

  /** A served run shows the client nothing on the way. */
  lemma ServingEmitsNothing(x: Run)
    requires Promised(x) && ServedFromCache(x)
    ensures Pick(x.log, EmitStep) == []
  {
    RunEmits(x.c, x.visits);
  }
}
