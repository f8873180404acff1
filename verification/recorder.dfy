/** The bounded asynchronous history queue with shutdown
    (internal/persistence/recorder.go).

    Submitters, shutdown callers and the single worker interleave freely. A step is
    one critical section, one channel operation, one call into the store or one
    call of the observer. */
module Recorder {
  const DEFAULT_QUEUE_CAPACITY: nat := 256

  /** A request record, as far as the queue cares. */
  datatype Record = Record(requestID: string)

  datatype WriteOutcome = Written | WriteError

  /** Where the worker goroutine stands: in its loop, or in its deferred calls. */
  datatype Worker =
    | Receiving
    | Took(record: Record)
    | Writing(record: Record)
    | Observing(record: Record, outcome: WriteOutcome, attempted: bool)
    | Leaving | ContextReleased | StoreReleased | Finished

  datatype Caller = Waiting | ReturnedNil | ReturnedError

  /** A record that reached its outcome; attempted tells whether the store was asked. */
  datatype Settlement = Settlement(record: Record, outcome: WriteOutcome, attempted: bool)

  /** The queue and the worker, with the histories the promises speak of. */
  datatype Pipe = Pipe(
    queue: seq<Record>, worker: Worker, writeCount: nat,
    accepted: seq<Record>, settled: seq<Settlement>, writes: seq<Record>)

  /** What has been closed or canceled. */
  datatype Gate = Gate(accepting: bool, queueClosed: bool, canceled: bool, storeClosed: bool, done: bool)

  datatype State = State(
    capacity: nat, pipe: Pipe, gate: Gate,
    submitted: nat, fullPending: nat, fullObserved: nat, callers: map<nat, Caller>)

  function Initial(capacity: nat): State
  {
    State(capacity, Pipe([], Receiving, 0, [], [], []), Gate(true, false, false, false, false), 0, 0, 0, map[])
  }

  datatype Event =
    | Submit(record: Record)
    | ObserveQueueFull
    | WorkerMoves(writeFails: bool)
    | ShutdownCloses(caller: nat)
    | ShutdownReturns(caller: nat)
    | ShutdownGivesUp(caller: nat)

  function SubmitStep(s: State, record: Record): State
  {
    if !s.gate.accepting then s
    else if |s.pipe.queue| < s.capacity then
      s.(submitted := s.submitted + 1,
         pipe := s.pipe.(queue := s.pipe.queue + [record], accepted := s.pipe.accepted + [record]))
    else
      s.(submitted := s.submitted + 1, fullPending := s.fullPending + 1)
  }

  /** The worker's effect on the records. */
  function MoveRecords(p: Pipe, g: Gate, writeFails: bool): Pipe
  {
    match p.worker
    case Receiving =>
      if p.queue != [] then p.(worker := Took(p.queue[0]), queue := p.queue[1..])
      else if g.queueClosed then p.(worker := Leaving)
      else p
    case Took(record) =>
      if g.canceled then p.(worker := Observing(record, WriteError, false))
      else p.(worker := Writing(record), writes := p.writes + [record])
    case Writing(record) =>
      p.(worker := Observing(record, if writeFails then WriteError else Written, true), writeCount := p.writeCount + 1)
    case Observing(record, outcome, attempted) =>
      p.(worker := Receiving, settled := p.settled + [Settlement(record, outcome, attempted)])
    case Leaving => p.(worker := ContextReleased)
    case ContextReleased => p.(worker := StoreReleased)
    case StoreReleased => p.(worker := Finished)
    case Finished => p
  }

  /** The effect of the worker's deferred calls, in the order they run. */
  function MoveGate(g: Gate, w: Worker): Gate
  {
    match w
    case Leaving => g.(canceled := true)
    case ContextReleased => g.(storeClosed := true)
    case StoreReleased => g.(done := true)
    case _ => g
  }

  function WorkerStep(s: State, writeFails: bool): State
  {
    s.(pipe := MoveRecords(s.pipe, s.gate, writeFails), gate := MoveGate(s.gate, s.pipe.worker))
  }

  function Step(s: State, e: Event): State
  {
    match e
    case Submit(record) => SubmitStep(s, record)
    case ObserveQueueFull =>
      if s.fullPending == 0 then s else s.(fullPending := s.fullPending - 1, fullObserved := s.fullObserved + 1)
    case WorkerMoves(writeFails) => WorkerStep(s, writeFails)
    case ShutdownCloses(caller) =>
      if caller in s.callers then s
      else s.(gate := if s.gate.accepting then s.gate.(accepting := false, queueClosed := true) else s.gate,
              callers := s.callers[caller := Waiting])
    case ShutdownReturns(caller) =>
      if caller in s.callers && s.callers[caller] == Waiting && s.gate.done
      then s.(callers := s.callers[caller := ReturnedNil]) else s
    case ShutdownGivesUp(caller) =>
      if caller in s.callers && s.callers[caller] == Waiting
      then s.(callers := s.callers[caller := ReturnedError], gate := s.gate.(canceled := true)) else s
  }

  function Run(capacity: nat, events: seq<Event>): State
  {
    if events == [] then Initial(capacity)
    else Step(Run(capacity, events[..|events| - 1]), events[|events| - 1])
  }

  // ------------------------------------------------------------ invariant

  /** The record the worker holds, if any. */
  function InHand(w: Worker): (r: seq<Record>)
    ensures |r| <= 1
  {
    if w.Took? || w.Writing? || w.Observing? then [w.record] else []
  }

  /** The record the worker has handed to the store but not yet settled. */
  function BeingWritten(w: Worker): (r: seq<Record>)
    ensures |r| <= 1
  {
    if w.Writing? || (w.Observing? && w.attempted) then [w.record] else []
  }

  predicate HasLeft(w: Worker) { w.Leaving? || w.ContextReleased? || w.StoreReleased? || w.Finished? }

  function Records(settled: seq<Settlement>): (r: seq<Record>)
    ensures |r| == |settled|
  {
    if settled == [] then [] else Records(settled[..|settled| - 1]) + [settled[|settled| - 1].record]
  }

  /** The settled records the store was asked to write. */
  function Attempted(settled: seq<Settlement>): (r: seq<Record>)
    ensures |r| <= |settled|
  {
    if settled == [] then []
    else
      var last := settled[|settled| - 1];
      Attempted(settled[..|settled| - 1]) + (if last.attempted then [last.record] else [])
  }

  /** Accepted records are settled, in hand or queued, in that order. */
  ghost predicate InOrder(p: Pipe)
  {
    p.accepted == Records(p.settled) + (InHand(p.worker) + p.queue)
  }

  /** The store was asked for each attempted record once, and now for the one in hand. */
  ghost predicate WritesMatch(p: Pipe)
  {
    && p.writes == Attempted(p.settled) + BeingWritten(p.worker)
    && p.writeCount == |p.writes| - (if p.worker.Writing? then 1 else 0)
  }

  predicate CountsMatch(s: State)
  {
    |s.pipe.queue| <= s.capacity && s.submitted == |s.pipe.accepted| + s.fullPending + s.fullObserved
  }

  /** What is closed, and who may know. */
  ghost predicate Phases(s: State)
  {
    && (s.gate.queueClosed <==> !s.gate.accepting)
    && (HasLeft(s.pipe.worker) ==> s.gate.queueClosed && s.pipe.queue == [])
    && (s.gate.storeClosed <==> s.pipe.worker.StoreReleased? || s.pipe.worker.Finished?)
    && (s.gate.done <==> s.pipe.worker.Finished?)
    && (forall caller :: caller in s.callers && s.callers[caller] == ReturnedNil ==> s.gate.done)
  }

  ghost predicate Invariant(s: State)
  {
    InOrder(s.pipe) && WritesMatch(s.pipe) && CountsMatch(s) && Phases(s)
  }

  lemma SettleAppends(settled: seq<Settlement>, x: Settlement)
    ensures Records(settled + [x]) == Records(settled) + [x.record]
    ensures Attempted(settled + [x]) == Attempted(settled) + (if x.attempted then [x.record] else [])
  {
    assert (settled + [x])[..|settled|] == settled;
  }

  lemma HandAndQueueKept(p: Pipe, g: Gate, writeFails: bool)
    requires !p.worker.Observing?
    ensures var q := MoveRecords(p, g, writeFails);
            InHand(q.worker) + q.queue == InHand(p.worker) + p.queue && q.settled == p.settled && q.accepted == p.accepted
  {
  }

  lemma MoveKeepsOrder(p: Pipe, g: Gate, writeFails: bool)
    requires InOrder(p)
    ensures InOrder(MoveRecords(p, g, writeFails))
  {
    if p.worker.Observing? {
      SettlingKeepsOrder(p, Settlement(p.worker.record, p.worker.outcome, p.worker.attempted));
    } else {
      HandAndQueueKept(p, g, writeFails);
    }
  }

  lemma SettlingKeepsOrder(p: Pipe, x: Settlement)
    requires InOrder(p) && InHand(p.worker) == [x.record]
    ensures InOrder(p.(worker := Receiving, settled := p.settled + [x]))
  {
    SettleAppends(p.settled, x);
    assert (Records(p.settled) + [x.record]) + ([] + p.queue) == Records(p.settled) + ([x.record] + p.queue);
  }

  lemma MoveKeepsWrites(p: Pipe, g: Gate, writeFails: bool)
    requires WritesMatch(p)
    ensures WritesMatch(MoveRecords(p, g, writeFails))
  {
    var q := MoveRecords(p, g, writeFails);
    var before := Attempted(p.settled);
    if p.worker.Observing? {
      var x := Settlement(p.worker.record, p.worker.outcome, p.worker.attempted);
      SettleAppends(p.settled, x);
      assert Attempted(q.settled) == p.writes;
      assert p.writes + [] == p.writes;
    } else if p.worker.Took? && !g.canceled {
      assert before + [] == before;
    } else {
      assert BeingWritten(q.worker) == BeingWritten(p.worker) && q.writes == p.writes && q.settled == p.settled;
    }
  }

  lemma SubmitKeepsOrder(p: Pipe, record: Record)
    requires InOrder(p)
    ensures InOrder(p.(queue := p.queue + [record], accepted := p.accepted + [record]))
  {
  }

  lemma StepKeepsPipe(s: State, e: Event)
    requires InOrder(s.pipe) && WritesMatch(s.pipe)
    ensures InOrder(Step(s, e).pipe) && WritesMatch(Step(s, e).pipe)
  {
    if e.WorkerMoves? {
      MoveKeepsOrder(s.pipe, s.gate, e.writeFails);
      MoveKeepsWrites(s.pipe, s.gate, e.writeFails);
    } else if e.Submit? {
      SubmitKeepsOrder(s.pipe, e.record);
    }
  }

  lemma StepKeepsCounts(s: State, e: Event)
    requires CountsMatch(s)
    ensures CountsMatch(Step(s, e))
  {
  }

  lemma StepKeepsPhases(s: State, e: Event)
    requires Phases(s)
    ensures Phases(Step(s, e))
  {
  }

  lemma StepKeepsInvariant(s: State, e: Event)
    requires Invariant(s)
    ensures Invariant(Step(s, e))
  {
    StepKeepsPipe(s, e);
    StepKeepsCounts(s, e);
    StepKeepsPhases(s, e);
  }

  lemma {:induction false} RunKeepsInvariant(capacity: nat, events: seq<Event>)
    ensures Invariant(Run(capacity, events)) && Run(capacity, events).capacity == capacity
  {
    if events != [] {
      RunKeepsInvariant(capacity, events[..|events| - 1]);
      StepKeepsInvariant(Run(capacity, events[..|events| - 1]), events[|events| - 1]);
    }
  }

  // ------------------------------------------------------------- promises

  /** Nothing is lost or invented: every counted submission is queued, in the
      worker's hands, settled, or refused for a full queue; the queue is bounded. */
  lemma SubmissionsConserved(capacity: nat, events: seq<Event>)
    ensures var s := Run(capacity, events);
            && s.submitted == |s.pipe.queue| + |InHand(s.pipe.worker)| + |s.pipe.settled| + s.fullObserved + s.fullPending
            && |s.pipe.queue| <= capacity
  {
    RunKeepsInvariant(capacity, events);
  }

  /** Outcomes arrive exactly once and first in, first out: what is settled is the
      beginning of what was accepted, and the store is asked in the same order, at
      most once per record. */
  lemma SettledInOrder(capacity: nat, events: seq<Event>)
    ensures var p := Run(capacity, events).pipe;
            && Records(p.settled) <= p.accepted
            && Attempted(p.settled) <= p.writes
            && |p.writes| <= |p.settled| + 1
  {
    RunKeepsInvariant(capacity, events);
  }

  /** An outcome tells the truth: written means the store was asked, and a record is
      given up without asking only once the recorder was canceled. */
  ghost predicate Honest(s: State)
  {
    && (forall i :: 0 <= i < |s.pipe.settled| ==>
          var x := s.pipe.settled[i];
          (x.outcome == Written ==> x.attempted) && (x.attempted || s.gate.canceled))
    && (s.pipe.worker.Observing? ==>
          (s.pipe.worker.outcome == Written ==> s.pipe.worker.attempted) && (s.pipe.worker.attempted || s.gate.canceled))
  }

  lemma StepKeepsHonest(s: State, e: Event)
    requires Honest(s)
    ensures Honest(Step(s, e))
  {
  }

  lemma {:induction false} OutcomesAreHonest(capacity: nat, events: seq<Event>)
    ensures Honest(Run(capacity, events))
  {
    if events != [] {
      OutcomesAreHonest(capacity, events[..|events| - 1]);
      StepKeepsHonest(Run(capacity, events[..|events| - 1]), events[|events| - 1]);
    }
  }

  lemma SnocRun(capacity: nat, events: seq<Event>, e: Event)
    ensures Run(capacity, events + [e]) == Step(Run(capacity, events), e)
  {
    assert (events + [e])[..|events|] == events;
  }

  /** No step sends on the closed queue or writes to the closed store. */
  lemma NothingAfterClose(capacity: nat, events: seq<Event>, e: Event)
    ensures var s, s' := Run(capacity, events), Run(capacity, events + [e]);
            && (s.gate.queueClosed ==> s'.gate.queueClosed && s'.pipe.accepted == s.pipe.accepted)
            && (s.gate.storeClosed ==> s'.gate.storeClosed && s'.pipe.writes == s.pipe.writes)
  {
    RunKeepsInvariant(capacity, events);
    SnocRun(capacity, events, e);
    StepAfterClose(Run(capacity, events), e);
  }

  lemma StepAfterClose(s: State, e: Event)
    requires Phases(s)
    ensures s.gate.queueClosed ==> Step(s, e).gate.queueClosed && Step(s, e).pipe.accepted == s.pipe.accepted
    ensures s.gate.storeClosed ==> Step(s, e).gate.storeClosed && Step(s, e).pipe.writes == s.pipe.writes
  {
  }

  /** A Shutdown that returned nil left nothing behind: every accepted record has its
      outcome, the queue is closed and empty, and the store is closed. */
  lemma NilShutdownIsComplete(capacity: nat, events: seq<Event>, caller: nat)
    requires caller in Run(capacity, events).callers && Run(capacity, events).callers[caller] == ReturnedNil
    ensures var s := Run(capacity, events);
            && Records(s.pipe.settled) == s.pipe.accepted && s.pipe.queue == []
            && s.gate.queueClosed && s.gate.storeClosed
  {
    RunKeepsInvariant(capacity, events);
  }

  /** What the store answered, write by write, read off the whole run. */
  function Results(capacity: nat, events: seq<Event>): seq<WriteOutcome>
  {
    if events == [] then []
    else
      var before, e := events[..|events| - 1], events[|events| - 1];
      Results(capacity, before)
      + (if e.WorkerMoves? && Run(capacity, before).pipe.worker.Writing? then [if e.writeFails then WriteError else Written] else [])
  }

  /** The outcomes of the records the store was asked for, in order. */
  function ToldOf(settled: seq<Settlement>): seq<WriteOutcome>
  {
    if settled == [] then []
    else
      var last := settled[|settled| - 1];
      ToldOf(settled[..|settled| - 1]) + (if last.attempted then [last.outcome] else [])
  }

  /** The outcome about to be told of the record in hand. */
  function AboutToTell(w: Worker): seq<WriteOutcome> { if w.Observing? && w.attempted then [w.outcome] else [] }

  lemma StepTells(s: State, e: Event)
    ensures ToldOf(Step(s, e).pipe.settled) + AboutToTell(Step(s, e).pipe.worker)
            == ToldOf(s.pipe.settled) + AboutToTell(s.pipe.worker)
               + (if e.WorkerMoves? && s.pipe.worker.Writing? then [if e.writeFails then WriteError else Written] else [])
  {
    var told, w := ToldOf(s.pipe.settled), s.pipe.worker;
    if e.WorkerMoves? && w.Observing? {
      var x := Settlement(w.record, w.outcome, w.attempted);
      assert (s.pipe.settled + [x])[..|s.pipe.settled|] == s.pipe.settled;
    }
    assert told + [] == told && told + [] + [] == told;
  }

  /** Every outcome told of an attempted record is what the store answered to that write. */
  lemma {:induction false} OutcomesAreResults(capacity: nat, events: seq<Event>)
    ensures var p := Run(capacity, events).pipe; ToldOf(p.settled) + AboutToTell(p.worker) == Results(capacity, events)
  {
    if events != [] {
      OutcomesAreResults(capacity, events[..|events| - 1]);
      StepTells(Run(capacity, events[..|events| - 1]), events[|events| - 1]);
    }
  }

  predicate ShutdownBegan(events: seq<Event>) { exists i :: 0 <= i < |events| && events[i].ShutdownCloses? }

  lemma {:induction false} AcceptingUntilShutdown(capacity: nat, events: seq<Event>)
    ensures var s := Run(capacity, events);
            && (s.gate.accepting <==> !ShutdownBegan(events)) && (s.callers != map[] ==> !s.gate.accepting) && s.capacity == capacity
  {
    if events != [] {
      var before, e := events[..|events| - 1], events[|events| - 1];
      AcceptingUntilShutdown(capacity, before);
      StepAccepting(Run(capacity, before), e);
      BeganSnoc(events);
    }
  }

  lemma StepAccepting(s: State, e: Event)
    requires s.callers != map[] ==> !s.gate.accepting
    ensures var s' := Step(s, e);
            && (s'.callers != map[] ==> !s'.gate.accepting) && s'.capacity == s.capacity
            && (s'.gate.accepting <==> s.gate.accepting && !e.ShutdownCloses?)
  {
  }

  lemma BeganSnoc(events: seq<Event>)
    requires events != []
    ensures ShutdownBegan(events) <==> ShutdownBegan(events[..|events| - 1]) || events[|events| - 1].ShutdownCloses?
  {
    var before := events[..|events| - 1];
    if i :| 0 <= i < |before| && before[i].ShutdownCloses? {
      assert events[i] == before[i];
    }
  }

  /** A submission is accepted exactly when no shutdown has begun and the queue has room,
      and refused as full exactly when none has begun and it has not. */
  lemma AcceptedExactly(capacity: nat, events: seq<Event>, record: Record)
    ensures var s, s' := Run(capacity, events), Run(capacity, events + [Submit(record)]);
            var open, room := !ShutdownBegan(events), |s.pipe.queue| < capacity;
            && s'.pipe.accepted == s.pipe.accepted + (if open && room then [record] else [])
            && s'.fullPending == s.fullPending + (if open && !room then 1 else 0)
            && s'.submitted == s.submitted + (if open then 1 else 0)
  {
    AcceptingUntilShutdown(capacity, events);
    SnocRun(capacity, events, Submit(record));
    var s := Run(capacity, events);
    assert s.pipe.accepted + [] == s.pipe.accepted;
  }

  /** The write context is canceled by a shutdown that gave up, or by the worker leaving. */
  ghost predicate CanceledBySomebody(s: State)
  {
    s.gate.canceled <==>
      || s.pipe.worker.ContextReleased? || s.pipe.worker.StoreReleased? || s.pipe.worker.Finished?
      || exists caller :: caller in s.callers && s.callers[caller] == ReturnedError
  }

  lemma StepKeepsCanceled(s: State, e: Event)
    requires CanceledBySomebody(s)
    ensures CanceledBySomebody(Step(s, e))
  {
    var s' := Step(s, e);
    forall caller | caller in s.callers && s.callers[caller] == ReturnedError
      ensures caller in s'.callers && s'.callers[caller] == ReturnedError
    {
    }
    if e.ShutdownGivesUp? && e.caller in s.callers && s.callers[e.caller] == Waiting {
      assert s'.callers[e.caller] == ReturnedError;
    }
  }

  lemma {:induction false} CanceledExactly(capacity: nat, events: seq<Event>)
    ensures CanceledBySomebody(Run(capacity, events))
  {
    if events != [] {
      CanceledExactly(capacity, events[..|events| - 1]);
      StepKeepsCanceled(Run(capacity, events[..|events| - 1]), events[|events| - 1]);
    }
  }

  /** After a Shutdown that gave up, no write is begun any more, whatever happens. */
  lemma {:induction false} GivenUpStopsWriting(capacity: nat, events: seq<Event>, caller: nat, more: seq<Event>)
    requires caller in Run(capacity, events).callers && Run(capacity, events).callers[caller] == ReturnedError
    ensures Run(capacity, events + more).gate.canceled && Run(capacity, events + more).pipe.writes == Run(capacity, events).pipe.writes
  {
    if more == [] {
      CanceledExactly(capacity, events);
      assert events + more == events;
    } else {
      var front, e := more[..|more| - 1], more[|more| - 1];
      GivenUpStopsWriting(capacity, events, caller, front);
      assert events + more == events + front + [e];
      SnocRun(capacity, events + front, e);
      StepCanceled(Run(capacity, events + front), e);
    }
  }

  lemma StepCanceled(s: State, e: Event)
    requires s.gate.canceled
    ensures Step(s, e).gate.canceled && Step(s, e).pipe.writes == s.pipe.writes
  {
  }

  // ------------------------------------------------------------- progress

  /** Worker steps left once the queue is closed. */
  function StepsLeft(p: Pipe): nat
  {
    4 * |p.queue|
    + match p.worker
      case Receiving => 4
      case Took(_) => 7
      case Writing(_) => 6
      case Observing(_, _, _) => 5
      case Leaving => 3
      case ContextReleased => 2
      case StoreReleased => 1
      case Finished => 0
  }

  /** Repeated worker steps; fails(i) tells whether the i-th write fails. */
  function Drain(s: State, fails: nat -> bool, n: nat): State
  {
    if n == 0 then s else WorkerStep(Drain(s, fails, n - 1), fails(n - 1))
  }

  lemma WorkerAdvances(s: State, writeFails: bool)
    requires Phases(s) && s.gate.queueClosed
    ensures s.gate.done || StepsLeft(WorkerStep(s, writeFails).pipe) < StepsLeft(s.pipe)
    ensures WorkerStep(s, writeFails).gate.queueClosed
    ensures s.gate.done ==> WorkerStep(s, writeFails).gate.done
    ensures WorkerStep(s, writeFails).pipe.accepted == s.pipe.accepted
  {
  }

  lemma {:induction false} DrainAdvances(s: State, fails: nat -> bool, n: nat)
    requires Invariant(s) && s.gate.queueClosed
    ensures var t := Drain(s, fails, n);
            && Invariant(t) && t.gate.queueClosed && t.pipe.accepted == s.pipe.accepted
            && (StepsLeft(t.pipe) + n <= StepsLeft(s.pipe) || t.gate.done)
  {
    if n > 0 {
      DrainAdvances(s, fails, n - 1);
      DrainStep(Drain(s, fails, n - 1), fails(n - 1));
    }
  }

  lemma DrainStep(s: State, writeFails: bool)
    requires Invariant(s) && s.gate.queueClosed
    ensures var t := WorkerStep(s, writeFails);
            && Invariant(t) && t.gate.queueClosed && t.pipe.accepted == s.pipe.accepted
            && (s.gate.done ==> t.gate.done) && (s.gate.done || StepsLeft(t.pipe) < StepsLeft(s.pipe))
  {
    StepKeepsInvariant(s, WorkerMoves(writeFails));
    WorkerAdvances(s, writeFails);
  }

  /** Once the queue is closed the worker always finishes: it is never stuck, and
      after boundedly many of its own steps every accepted record is settled, the
      store is closed and waiting shutdowns can return. */
  lemma ShutdownTerminates(capacity: nat, events: seq<Event>, fails: nat -> bool)
    requires Run(capacity, events).gate.queueClosed
    ensures var s := Run(capacity, events);
            var t := Drain(s, fails, StepsLeft(s.pipe));
            && t.gate.done && t.gate.storeClosed && Records(t.pipe.settled) == s.pipe.accepted
            && forall caller :: caller in t.callers && t.callers[caller] == Waiting ==>
                 Step(t, ShutdownReturns(caller)).callers[caller] == ReturnedNil
  {
    RunKeepsInvariant(capacity, events);
    var s := Run(capacity, events);
    DrainAdvances(s, fails, StepsLeft(s.pipe));
  }

  // ------------------------------------------------------ the mutable object

  /** AsyncRecorder: its fields, and one method per critical section or loop stage. */
  class AsyncRecorder {
    const capacity: nat
    var queue: seq<Record>
    var worker: Worker
    var writeCount: nat
    var accepting: bool
    var queueClosed: bool
    var canceled: bool
    var storeClosed: bool
    var done: bool
    var submitted: nat
    ghost var fullPending: nat
    ghost var fullObserved: nat
    ghost var callers: map<nat, Caller>
    ghost var accepted: seq<Record>
    ghost var settled: seq<Settlement>
    ghost var writes: seq<Record>

    ghost function Value(): State
      reads this
    {
      State(capacity, Pipe(queue, worker, writeCount, accepted, settled, writes),
            Gate(accepting, queueClosed, canceled, storeClosed, done),
            submitted, fullPending, fullObserved, callers)
    }

    /** NewAsyncRecorder: a capacity that is not positive means the default. */
    constructor (capacity: int)
      ensures Value() == Initial(if capacity <= 0 then DEFAULT_QUEUE_CAPACITY else capacity)
    {
      this.capacity := if capacity <= 0 then DEFAULT_QUEUE_CAPACITY else capacity;
      queue, queueClosed, accepting, worker := [], false, true, Receiving;
      canceled, storeClosed, done, submitted, writeCount := false, false, false, 0, 0;
      fullPending, fullObserved, callers := 0, 0, map[];
      accepted, settled, writes := [], [], [];
    }

    method Submit(record: Record) returns (queued: bool, full: bool)
      modifies this
      ensures Value() == SubmitStep(old(Value()), record)
      ensures queued <==> accepted == old(accepted) + [record]
      ensures full <==> fullPending == old(fullPending) + 1
    {
      if !accepting { return false, false; }
      submitted := submitted + 1;
      if |queue| < capacity {
        queue := queue + [record];
        accepted := accepted + [record];
        return true, false;
      }
      fullPending := fullPending + 1;
      return false, true;
    }

    /** The critical section of Shutdown. Closing happens at most once. */
    method CloseForShutdown(ghost caller: nat)
      requires caller !in callers
      modifies this
      ensures Value() == Step(old(Value()), ShutdownCloses(caller))
    {
      if accepting {
        accepting := false;
        queueClosed := true;
      }
      callers := callers[caller := Waiting];
    }

    /** One stage of the worker's receive loop. */
    method Receive(writeFails: bool)
      requires !HasLeft(worker)
      modifies this
      ensures Value() == WorkerStep(old(Value()), writeFails)
    {
      if worker.Receiving? {
        if queue != [] {
          worker, queue := Took(queue[0]), queue[1..];
        } else if queueClosed {
          worker := Leaving;
        }
      } else if worker.Took? {
        if canceled {
          worker := Observing(worker.record, WriteError, false);
        } else {
          writes := writes + [worker.record];
          worker := Writing(worker.record);
        }
      } else if worker.Writing? {
        writeCount := writeCount + 1;
        worker := Observing(worker.record, if writeFails then WriteError else Written, true);
      } else {
        settled := settled + [Settlement(worker.record, worker.outcome, worker.attempted)];
        worker := Receiving;
      }
    }

    /** One of the worker's deferred calls: release the context, close the store,
        signal completion, in this order. */
    method Leave(ghost writeFails: bool)
      requires HasLeft(worker)
      modifies this
      ensures Value() == WorkerStep(old(Value()), writeFails)
    {
      if worker.Leaving? {
        canceled := true;
        worker := ContextReleased;
      } else if worker.ContextReleased? {
        storeClosed := true;
        worker := StoreReleased;
      } else if worker.StoreReleased? {
        done := true;
        worker := Finished;
      }
    }
  }
}
