/** Global runs: many requests interleave, and each ledger is shared by all of them. */
module Interleaving {
  /** What one request did, out of everything that was done. */
  function Of<T>(log: seq<(nat, T)>, r: nat): seq<T>
  {
    if log == [] then []
    else
      Of(log[..|log| - 1], r) + (if log[|log| - 1].0 == r then [log[|log| - 1].1] else [])
  }

  /** Everything the other requests did. */
  function Without<T>(log: seq<(nat, T)>, r: nat): seq<(nat, T)>
  {
    if log == [] then []
    else
      Without(log[..|log| - 1], r) + (if log[|log| - 1].0 != r then [log[|log| - 1]] else [])
  }

  lemma {:induction false} OfWithout<T>(log: seq<(nat, T)>, r: nat, q: nat)
    ensures Of(Without(log, r), q) == if q == r then [] else Of(log, q)
    ensures |Without(log, r)| + |Of(log, r)| == |log|
  {
    if log != [] {
      OfWithout(log[..|log| - 1], r, q);
      var front := Without(log[..|log| - 1], r);
      if log[|log| - 1].0 != r {
        assert (front + [log[|log| - 1]])[..|front|] == front;
      } else {
        assert front + [] == front;
      }
    }
  }

  lemma {:induction false} OfIsNonEmpty<T>(log: seq<(nat, T)>)
    requires log != []
    ensures |Of(log, log[|log| - 1].0)| > 0
  {
  }
}

/** What the books of a request say, taken alone and together with the books of all
    the requests it shares its circuits and counters with. */
module Ledgers {
  import opened Common
  import opened Outcomes
  import opened Interleaving
  import opened Requests
  import opened Transcripts
  import opened Projections
  import CircuitBreaker
  import Telemetry

  // ----------------------------------------------------------- one request

  function Starts(ops: seq<TelemetryOp>, k: nat): nat
  {
    if ops == [] then 0
    else
      var last := ops[|ops| - 1];
      Starts(ops[..|ops| - 1], k) + (if last.Started? && last.attempt == k then 1 else 0)
  }

  function Stops(ops: seq<TelemetryOp>, k: nat): seq<Outcome>
  {
    if ops == [] then []
    else
      var last := ops[|ops| - 1];
      Stops(ops[..|ops| - 1], k) + (if last.Stopped? && last.attempt == k then [last.outcome] else [])
  }

  lemma StartsSnoc(ops: seq<TelemetryOp>, op: TelemetryOp, k: nat)
    ensures Starts(ops + [op], k) == Starts(ops, k) + (if op.Started? && op.attempt == k then 1 else 0)
    ensures Stops(ops + [op], k) == Stops(ops, k) + (if op.Stopped? && op.attempt == k then [op.outcome] else [])
  {
    assert (ops + [op])[..|ops|] == ops;
  }

  lemma SettleTelemetry(b: Books, n: nat, a: Attempt, k: nat)
    ensures Starts(Settle(b, n, a).telemetry, k) == Starts(b.telemetry, k) + (if k == n then 1 else 0)
    ensures Stops(Settle(b, n, a).telemetry, k) == Stops(b.telemetry, k) + (if k == n then [OutcomeOf(a)] else [])
  {
    var started := b.telemetry + [Started(n, a.provider)];
    StartsSnoc(b.telemetry, Started(n, a.provider), k);
    if HasContent(Consumed(a)) {
      StartsSnoc(started, FirstContent(n, a.provider), k);
      StartsSnoc(started + [FirstContent(n, a.provider)], Stopped(n, a.provider, OutcomeOf(a)), k);
    } else {
      assert started + [] == started;
      StartsSnoc(started, Stopped(n, a.provider, OutcomeOf(a)), k);
    }
  }

  /** Telemetry begins every attempt once and ends it once, with its own outcome; it
      never hears of any other attempt. */
  lemma {:induction false} TelemetrySettledOnce(attempts: seq<Attempt>, k: nat)
    ensures Starts(BooksOf(attempts).telemetry, k) == if k < |attempts| then 1 else 0
    ensures Stops(BooksOf(attempts).telemetry, k) == if k < |attempts| then [OutcomeOf(attempts[k])] else []
    ensures k < |attempts| ==> RightOutcome(attempts[k], OutcomeOf(attempts[k]))
  {
    if k < |attempts| {
      OutcomesAreRight(attempts[k]);
    }
    if attempts != [] {
      var n := |attempts| - 1;
      TelemetrySettledOnce(attempts[..n], k);
      SettleTelemetry(BooksOf(attempts[..n]), n, attempts[n], k);
    }
  }

  /** Health admits every attempt once and hears one report of it, right after; the
      report follows from the outcome. There is nothing else in the ledger. */
  lemma HealthSettledOnce(attempts: seq<Attempt>, k: nat)
    ensures |BooksOf(attempts).health| == 2 * |attempts|
    ensures k < |attempts| ==>
              && BooksOf(attempts).health[2 * k] == Admitted(k, attempts[k].provider)
              && BooksOf(attempts).health[2 * k + 1] == Reported(k, attempts[k].provider, ReportOf(OutcomeOf(attempts[k])))
              && RightReport(attempts[k], ReportOf(OutcomeOf(attempts[k])))
  {
    HealthInPairs(attempts, k);
    if k < |attempts| {
      OutcomesAreRight(attempts[k]);
    }
  }

  lemma {:induction false} HealthInPairs(attempts: seq<Attempt>, k: nat)
    ensures |BooksOf(attempts).health| == 2 * |attempts|
    ensures k < |attempts| ==>
              && BooksOf(attempts).health[2 * k] == Admitted(k, attempts[k].provider)
              && BooksOf(attempts).health[2 * k + 1] == Reported(k, attempts[k].provider, ReportOf(OutcomeOf(attempts[k])))
  {
    if attempts != [] {
      HealthInPairs(attempts[..|attempts| - 1], k);
    }
  }

  /** Accounting hears of every attempt once, in order, and of nothing else. */
  lemma {:induction false} AccountingSettledOnce(attempts: seq<Attempt>, k: nat)
    ensures |BooksOf(attempts).accounting| == |attempts|
    ensures k < |attempts| ==>
              && BooksOf(attempts).accounting[k] == AccountOp(attempts[k].provider, attempts[k].model, UsageOf(attempts[k]))
              && RightUsage(attempts[k], UsageOf(attempts[k]))
  {
    if k < |attempts| {
      OutcomesAreRight(attempts[k]);
    }
    if attempts != [] {
      AccountingSettledOnce(attempts[..|attempts| - 1], k);
    }
  }

  /** History starts and finishes every attempt, in order, with its outcome and usage. */
  lemma {:induction false} HistorySettledOnce(attempts: seq<Attempt>, k: nat)
    ensures |BooksOf(attempts).history| == 2 * |attempts|
    ensures k < |attempts| ==>
              && BooksOf(attempts).history[2 * k] == StartAttempt(attempts[k].provider, attempts[k].model)
              && BooksOf(attempts).history[2 * k + 1]
                 == FinishAttempt(k, OutcomeOf(attempts[k]), HasContent(Consumed(attempts[k])), UsageOf(attempts[k]))
              && RightOutcome(attempts[k], OutcomeOf(attempts[k])) && RightUsage(attempts[k], UsageOf(attempts[k]))
  {
    if k < |attempts| {
      OutcomesAreRight(attempts[k]);
    }
    if attempts != [] {
      HistorySettledOnce(attempts[..|attempts| - 1], k);
    }
  }

  /** Whatever a run did, its calls settle each attempt once in every ledger: the
      circuits granted the attempts and no others, and each ledger heard of each attempt
      what the attempt owes it, and nothing else but refusals and a cache hit. */
  lemma RunSettlesOnce(x: Run)
    requires Promised(x)
    ensures var books := BooksOf(AttemptsOf(x.visits));
            && Pick(x.log, GrantedStep) == books.health && Pick(x.log, TelemetryStep) == books.telemetry
            && Pick(x.log, AccountStep) == books.accounting
            && Pick(x.log, HistoryStep) == books.history + HitNote(x.c, x.visits)
    ensures Pick(x.log, InvokeStep) == InvokedBy(AttemptsOf(x.visits))
  {
    RunSettles(x.c, x.visits);
    RunMeasures(x.c, x.visits);
    RunAccounts(x.c, x.visits);
    RunTells(x.c, x.visits);
    RunInvokes(x.c, x.visits);
  }

  /** What the circuits were told over any run: of its k-th invocation the admission and
      then one report, success exactly if it delivered, failure exactly if the provider
      was at fault. */
  lemma RunReportsRight(x: Run, k: nat)
    requires Promised(x) && k < |AttemptsOf(x.visits)|
    ensures var a, told := AttemptsOf(x.visits)[k], Pick(x.log, GrantedStep);
            && |told| == 2 * |AttemptsOf(x.visits)| && told[2 * k] == Admitted(k, a.provider)
            && told[2 * k + 1].Reported? && told[2 * k + 1] == Reported(k, a.provider, told[2 * k + 1].report)
            && RightReport(a, told[2 * k + 1].report)
  {
    RunSettles(x.c, x.visits);
    HealthSettledOnce(AttemptsOf(x.visits), k);
  }

  // --------------------------------------------------- circuits, all requests

  function HealthAt(ops: seq<HealthOp>, provider: string): seq<HealthOp>
  {
    if ops == [] then []
    else
      HealthAt(ops[..|ops| - 1], provider) + (if ops[|ops| - 1].provider == provider then [ops[|ops| - 1]] else [])
  }

  predicate Concerns(op: HealthOp, k: nat) { !op.TurnedAway? && op.attempt == k }

  /** Whether the latest word on an attempt is that it was admitted. */
  predicate Pending(ops: seq<HealthOp>, k: nat)
  {
    ops != []
    && var last := ops[|ops| - 1];
       if Concerns(last, k) then last.Admitted? else Pending(ops[..|ops| - 1], k)
  }

  lemma HealthAtSnoc(ops: seq<HealthOp>, op: HealthOp, provider: string)
    ensures HealthAt(ops + [op], provider) == HealthAt(ops, provider) + (if op.provider == provider then [op] else [])
  {
    assert (ops + [op])[..|ops|] == ops;
  }

  lemma PendingSnoc(ops: seq<HealthOp>, op: HealthOp, k: nat)
    ensures Pending(ops + [op], k) == if Concerns(op, k) then op.Admitted? else Pending(ops, k)
  {
    assert (ops + [op])[..|ops|] == ops;
  }

  lemma PendingAtSnoc(ops: seq<HealthOp>, op: HealthOp, provider: string, k: nat)
    ensures Pending(HealthAt(ops + [op], provider), k)
            == if op.provider == provider && Concerns(op, k) then op.Admitted? else Pending(HealthAt(ops, provider), k)
  {
    HealthAtSnoc(ops, op, provider);
    if op.provider == provider {
      PendingSnoc(HealthAt(ops, provider), op, k);
    } else {
      assert HealthAt(ops, provider) + [] == HealthAt(ops, provider);
    }
  }

  /** An admission followed by its report leaves nothing pending. */
  lemma PairIsSettled(before: seq<HealthOp>, n: nat, name: string, report: CircuitBreaker.Report, provider: string, k: nat)
    requires !Pending(HealthAt(before, provider), k)
    ensures !Pending(HealthAt(before + ([Admitted(n, name)] + [Reported(n, name, report)]), provider), k)
  {
    PendingAtSnoc(before, Admitted(n, name), provider, k);
    PendingAtSnoc(before + [Admitted(n, name)], Reported(n, name, report), provider, k);
    Reassociate(before, [Admitted(n, name)], [Reported(n, name, report)]);
  }

  lemma {:induction false} CallsAreSettled(c: Call, visits: seq<Visit>, provider: string, k: nat)
    requires |visits| <= |c.ordered|
    ensures !Pending(HealthAt(HealthCalls(c, visits), provider), k)
  {
    if visits != [] {
      var front, last := visits[..|visits| - 1], visits[|visits| - 1];
      var before := HealthCalls(c, front);
      CallsAreSettled(c, front, provider, k);
      match last
      case Barred(_) => PendingAtSnoc(before, TurnedAway(c.ordered[|visits| - 1].name), provider, k);
      case Tried(_, a, _) => PairIsSettled(before, |AttemptsOf(front)|, a.provider, ReportOf(OutcomeOf(a)), provider, k);
      case _ => assert before + [] == before;
    }
  }

  /** Nothing is left pending by the begin calls of a request that has returned. */
  lemma ReturnedIsNotPending(x: Run, provider: string, k: nat)
    requires Promised(x)
    ensures !Pending(HealthAt(Pick(x.log, HealthStep), provider), k)
  {
    RunBegins(x.c, x.visits);
    CallsAreSettled(x.c, x.visits, provider, k);
  }

  /** A health call of a request, as the step it is of a circuit in some state: an
      admission the circuit granted, a refusal it gave, or a report. */
  predicate IsStep(entry: (nat, HealthOp), circuit: CircuitBreaker.Circuit, e: CircuitBreaker.Event)
  {
    match entry.1
    case Admitted(k, _) => e.BeginAt? && e.id == (entry.0, k) && CircuitBreaker.Admits(circuit, e.now)
    case TurnedAway(_) => e.BeginAt? && !CircuitBreaker.Admits(circuit, e.now)
    case Reported(k, _, report) => e.ReportAt? && e.id == (entry.0, k) && e.report == report
  }

  /** The run of one circuit is every health call all requests made of it, in the order
      they made them, each answered by the circuit as it was then. */
  ghost predicate IsRun(config: CircuitBreaker.Config, log: seq<(nat, HealthOp)>, events: seq<CircuitBreaker.Event>)
  {
    && |log| == |events|
    && forall i :: 0 <= i < |log| ==> IsStep(log[i], CircuitBreaker.Run(config, events[..i]).circuit, events[i])
  }

  lemma RunFront(config: CircuitBreaker.Config, log: seq<(nat, HealthOp)>, events: seq<CircuitBreaker.Event>)
    requires IsRun(config, log, events) && log != []
    ensures IsRun(config, log[..|log| - 1], events[..|log| - 1])
    ensures IsStep(log[|log| - 1], CircuitBreaker.Run(config, events[..|log| - 1]).circuit, events[|log| - 1])
  {
    var n := |log| - 1;
    forall i | 0 <= i < n
      ensures IsStep(log[..n][i], CircuitBreaker.Run(config, events[..n][..i]).circuit, events[..n][i])
    {
      assert events[..n][..i] == events[..i];
    }
  }

  lemma {:induction false} UnreportedIsPending(config: CircuitBreaker.Config, log: seq<(nat, HealthOp)>,
                                               events: seq<CircuitBreaker.Event>, r: nat, k: nat)
    requires IsRun(config, log, events)
    requires (r, k) in CircuitBreaker.Run(config, events).issued && (r, k) !in CircuitBreaker.Run(config, events).reported
    ensures Pending(Of(log, r), k)
  {
    var n := |log| - 1;
    var before := CircuitBreaker.Run(config, events[..n]);
    RunFront(config, log, events);
    if log[n].0 == r {
      PendingSnoc(Of(log[..n], r), log[n].1, k);
    } else {
      assert Of(log[..n], r) + [] == Of(log[..n], r);
    }
    if !(log[n].1.Admitted? && log[n].0 == r && log[n].1.attempt == k) {
      UnreportedIsPending(config, log[..n], events[..n], r, k);
    }
  }

  /** No half-open reservation outlives its request: whatever requests do, a probe in
      flight belongs to a request that has not made all the calls of a run. */
  lemma ProbeBelongsToRunningRequest(config: CircuitBreaker.Config, provider: string, log: seq<(nat, HealthOp)>,
                                     events: seq<CircuitBreaker.Event>)
    requires IsRun(config, log, events)
    requires CircuitBreaker.Run(config, events).circuit.inFlight
    ensures exists r, k ::
              && CircuitBreaker.Current(CircuitBreaker.Run(config, events)) == {(r, k)}
              && Pending(Of(log, r), k)
              && forall x :: Promised(x) ==> Of(log, r) != HealthAt(Pick(x.log, HealthStep), provider)
  {
    var s := CircuitBreaker.Run(config, events);
    CircuitBreaker.RunKeepsInvariant(config, events);
    var id :| CircuitBreaker.Current(s) == {id} && s.issued[id].halfOpen && id !in s.reported;
    assert id in CircuitBreaker.Current(s);
    var (r, k) := id;
    UnreportedIsPending(config, log, events, r, k);
    forall x | Promised(x)
      ensures Of(log, r) != HealthAt(Pick(x.log, HealthStep), provider)
    {
      ReturnedIsNotPending(x, provider, k);
    }
    assert CircuitBreaker.Current(s) == {(r, k)};
  }

  /** When every request has returned, the circuit holds no reservation: unless it is
      open and still cooling, it admits whoever comes next. */
  lemma QuiescentCircuitAdmits(config: CircuitBreaker.Config, provider: string, runs: nat -> Run,
                               log: seq<(nat, HealthOp)>, events: seq<CircuitBreaker.Event>, now: int)
    requires IsRun(config, log, events) && AllPromised(runs)
    requires forall r: nat :: Of(log, r) == HealthAt(Pick(runs(r).log, HealthStep), provider)
    ensures var c := CircuitBreaker.Run(config, events).circuit;
            !c.inFlight && (CircuitBreaker.Admits(c, now) <==> c.state != CircuitBreaker.Open || now >= c.openUntil)
  {
    forall r: nat, k: nat
      ensures !Pending(Of(log, r), k)
    {
      assert Promised(runs(r));
      ReturnedIsNotPending(runs(r), provider, k);
    }
    if CircuitBreaker.Run(config, events).circuit.inFlight {
      ProbeBelongsToRunningRequest(config, provider, log, events);
    }
  }

  // -------------------------------------------------- telemetry, all requests

  function TelemetryAt(ops: seq<TelemetryOp>, provider: string): seq<TelemetryOp>
  {
    if ops == [] then []
    else
      TelemetryAt(ops[..|ops| - 1], provider) + (if ops[|ops| - 1].provider == provider then [ops[|ops| - 1]] else [])
  }

  function Weight(op: TelemetryOp): int { if op.Started? then 1 else if op.Stopped? then -1 else 0 }

  /** Attempts begun and not yet ended. */
  function Balance(ops: seq<TelemetryOp>): int
  {
    if ops == [] then 0 else Balance(ops[..|ops| - 1]) + Weight(ops[|ops| - 1])
  }

  function Running(log: seq<(nat, TelemetryOp)>): int
  {
    if log == [] then 0 else Running(log[..|log| - 1]) + Weight(log[|log| - 1].1)
  }

  lemma BalanceSnoc(ops: seq<TelemetryOp>, op: TelemetryOp, provider: string)
    ensures Balance(TelemetryAt(ops + [op], provider))
            == Balance(TelemetryAt(ops, provider)) + (if op.provider == provider then Weight(op) else 0)
  {
    assert (ops + [op])[..|ops|] == ops;
    var at := TelemetryAt(ops, provider);
    if op.provider == provider {
      assert (at + [op])[..|at|] == at;
    } else {
      assert at + [] == at;
    }
  }

  lemma {:induction false} AttemptsAreBalanced(attempts: seq<Attempt>, provider: string)
    ensures Balance(TelemetryAt(BooksOf(attempts).telemetry, provider)) == 0
  {
    if attempts != [] {
      var n := |attempts| - 1;
      var before, a := BooksOf(attempts[..n]).telemetry, attempts[n];
      var started := before + [Started(n, a.provider)];
      AttemptsAreBalanced(attempts[..n], provider);
      BalanceSnoc(before, Started(n, a.provider), provider);
      if HasContent(Consumed(a)) {
        BalanceSnoc(started, FirstContent(n, a.provider), provider);
        BalanceSnoc(started + [FirstContent(n, a.provider)], Stopped(n, a.provider, OutcomeOf(a)), provider);
      } else {
        assert started + [] == started;
        BalanceSnoc(started, Stopped(n, a.provider, OutcomeOf(a)), provider);
      }
    }
  }

  lemma {:induction false} RunningSplits(log: seq<(nat, TelemetryOp)>, r: nat)
    ensures Running(log) == Balance(Of(log, r)) + Running(Without(log, r))
  {
    if log != [] {
      var n := |log| - 1;
      RunningSplits(log[..n], r);
      var mine, others := Of(log[..n], r), Without(log[..n], r);
      if log[n].0 == r {
        assert (mine + [log[n].1])[..|mine|] == mine;
        assert others + [] == others;
      } else {
        assert (others + [log[n]])[..|others|] == others;
        assert mine + [] == mine;
      }
    }
  }

  /** When every request's share balances, so does the whole, however interleaved. */
  lemma {:induction false} AllBalanced(log: seq<(nat, TelemetryOp)>)
    requires forall r: nat :: Balance(Of(log, r)) == 0
    ensures Running(log) == 0
    decreases |log|
  {
    if log != [] {
      var r := log[|log| - 1].0;
      OfIsNonEmpty(log);
      OfWithout(log, r, r);
      RunningSplits(log, r);
      forall q: nat ensures Balance(Of(Without(log, r), q)) == 0
      {
        OfWithout(log, r, q);
      }
      AllBalanced(Without(log, r));
    }
  }

  /** An entry of the shared log, as the update of the provider's telemetry it is. */
  predicate IsUpdate(entry: (nat, TelemetryOp), op: Telemetry.Op)
  {
    match entry.1
    case Started(_, _) => op.Began?
    case FirstContent(_, _) => op.FirstContent?
    case Stopped(_, _, outcome) => op.Finished? && op.outcome == outcome
  }

  ghost predicate AreUpdates(log: seq<(nat, TelemetryOp)>, ops: seq<Telemetry.Op>)
  {
    |log| == |ops| && forall i :: 0 <= i < |log| ==> IsUpdate(log[i], ops[i])
  }

  lemma {:induction false} RunningIsBegunLessEnded(log: seq<(nat, TelemetryOp)>, ops: seq<Telemetry.Op>)
    requires AreUpdates(log, ops)
    ensures Running(log) == Telemetry.Begun(ops) - Telemetry.Ended(ops)
  {
    if log != [] {
      assert IsUpdate(log[|log| - 1], ops[|log| - 1]);
      RunningIsBegunLessEnded(log[..|log| - 1], ops[..|log| - 1]);
    }
  }

  /** When every request has returned, a provider's counters balance: each attempt was
      a success, a failure or a cancellation. */
  lemma QuiescentTelemetryBalances(t: Telemetry.ProviderTelemetry, provider: string, runs: nat -> Run,
                                   log: seq<(nat, TelemetryOp)>)
    requires t.Valid() && AreUpdates(log, t.log) && AllPromised(runs)
    requires forall r: nat :: Of(log, r) == TelemetryAt(Pick(runs(r).log, TelemetryStep), provider)
    ensures t.counters.attempts == t.counters.successes + t.counters.failures + t.counters.cancellations
  {
    forall r: nat
      ensures Balance(Of(log, r)) == 0
    {
      assert Promised(runs(r));
      ReturnedIsBalanced(runs(r), provider);
    }
    AllBalanced(log);
    RunningIsBegunLessEnded(log, t.log);
    Telemetry.AttemptsBalance(t);
  }

  lemma ReturnedIsBalanced(x: Run, provider: string)
    requires Promised(x)
    ensures Balance(TelemetryAt(Pick(x.log, TelemetryStep), provider)) == 0
  {
    RunMeasures(x.c, x.visits);
    AttemptsAreBalanced(AttemptsOf(x.visits), provider);
  }
}
