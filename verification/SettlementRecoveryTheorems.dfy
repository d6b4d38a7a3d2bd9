/** No captured row is stranded, retries end, and an old attempt cannot touch a newer capture. */
module SettlementRecoveryTheorems {
  import opened Orders
  import opened SettlementRecovery
  import opened SettlementRecoveryProof

  lemma FreshInv()
    ensures Inv(FRESH)
  {
    forall t ensures ThreadOk(FRESH, t) {}
  }

  // --- nothing is stranded --------------------------------------------------

  /** The event that retries a recorded refusal. */
  function Recovery(t: string, r: Refusal): Event {
    match r
    case Busy => AccessFreed
    case Storage => StorageRecovered
    case Gap => Acknowledged(t)
  }

  /** The thread is being retried on everything captured for it. */
  predicate Retrying(s: State, t: string) {
    && t in s.candidates && t in s.attempts && s.attempts[t] in s.running
    && s.running[s.attempts[t]] == Attempt(t, s.candidates[t].identity, s.candidates[t].ids, Queued)
  }

  lemma {:induction false} SignalReaches(s: State, reason: Refusal, order: seq<string>, t: string)
    requires t in s.candidates && !s.disposed && (forall k :: k in s.running ==> k < s.nextAttempt)
    requires Retrying(s, t) || (t in order && t !in s.attempts && t in s.refusals && s.refusals[t] == reason)
    ensures Retrying(RetryRefusedFrom(s, reason, order), t)
    decreases |order|
  {
    if order != [] {
      if order[0] in s.refusals && s.refusals[order[0]] == reason {
        SignalReaches(Retry(s, order[0]), reason, order[1..], t);
      } else {
        SignalReaches(s, reason, order[1..], t);
      }
    }
  }

  /** A thread left with captured ids and no attempt has a refusal on record, and its recovery event retries all of them. */
  lemma NothingIsStranded(es: seq<Event>, t: string)
    requires t in Run(FRESH, es).candidates && t !in Run(FRESH, es).attempts
    ensures
      var s := Run(FRESH, es);
      && t in s.refusals && Retrying(Next(s, Recovery(t, s.refusals[t])), t)
      && Retrying(Next(s, Acknowledged(t)), t)
  {
    FreshInv();
    RunKeepsInv(FRESH, es);
    var s := Run(FRESH, es);
    assert ThreadOk(s, t);
    forall k | k in s.running ensures k < s.nextAttempt
    {
      assert AttemptOk(s, k);
    }
    if s.refusals[t] != Gap {
      SignalReaches(s, s.refusals[t], s.refusalOrder, t);
    }
  }

  /** No two unfinished attempts ever work on the same thread. */
  lemma OneAttemptPerThread(es: seq<Event>, j: nat, k: nat)
    requires j in Run(FRESH, es).running && k in Run(FRESH, es).running
    requires Run(FRESH, es).running[j].threadId == Run(FRESH, es).running[k].threadId
    ensures j == k
  {
    FreshInv();
    RunKeepsInv(FRESH, es);
    assert AttemptOk(Run(FRESH, es), j) && AttemptOk(Run(FRESH, es), k);
  }

  // --- self-started retries end ---------------------------------------------

  /** The attempt may start another one by itself: more was captured since it began, or its set was replaced. */
  predicate MayGoOn(s: State, a: Attempt) {
    && a.threadId in s.candidates
    && match a.stage
       case Closing(repaired) => repaired || s.candidates[a.threadId].identity != a.identity
       case _ => s.candidates[a.threadId].identity != a.identity || !(s.candidates[a.threadId].ids <= a.captured)
  }

  function StageWork(stage: Stage): nat {
    match stage
    case Queued => 3
    case Settled(_) => 2
    case Failed(_) => 2
    case Closing(_) => 1
  }

  /** A bound on the steps a thread's attempts can still take without a new capture, signal or acknowledgement. */
  function Work(s: State, t: string): (w: nat)
    ensures w <= 6
  {
    if t in s.attempts && s.attempts[t] in s.running then
      var a := s.running[s.attempts[t]];
      StageWork(a.stage) + if MayGoOn(s, a) then 3 else 0
    else 0
  }

  /** An event that moves one of the thread's attempts forward. */
  predicate Moves(s: State, e: Event, t: string) {
    match e
    case DoGate(k, _) => k in s.running && s.running[k].threadId == t && s.running[k].stage.Queued?
    case DoContinue(k) => k in s.running && s.running[k].threadId == t && (s.running[k].stage.Settled? || s.running[k].stage.Failed?)
    case DoFinally(k) => k in s.running && s.running[k].threadId == t && s.running[k].stage.Closing?
    case _ => false
  }

  predicate FromOutside(e: Event) {
    e.DoCapture? || e.AccessFreed? || e.StorageRecovered? || e.Acknowledged?
  }

  lemma GateCostsWork(s: State, k: nat, outcome: GateOutcome, t: string)
    requires k in s.running && AttemptOk(s, k) && s.running[k].stage.Queued?
    ensures Work(Gate(s, k, outcome), t) + (if s.running[k].threadId == t then 1 else 0) <= Work(s, t)
  {
  }

  lemma ContinueCostsWork(s: State, k: nat, t: string)
    requires ThreadOk(s, t) && k in s.running && AttemptOk(s, k) && (s.running[k].stage.Settled? || s.running[k].stage.Failed?)
    ensures Work(Continue(s, k), t) + (if s.running[k].threadId == t then 1 else 0) <= Work(s, t)
  {
  }

  lemma FinallyCostsWork(s: State, k: nat, t: string)
    requires Inv(s) && k in s.running && s.running[k].stage.Closing?
    ensures Work(Finally(s, k), t) + (if s.running[k].threadId == t then 1 else 0) <= Work(s, t)
  {
    assert AttemptOk(s, k) && ThreadOk(s, t);
  }

  lemma MovingCostsWork(s: State, e: Event, t: string)
    requires Inv(s) && !FromOutside(e)
    ensures Work(Next(s, e), t) + (if Moves(s, e, t) then 1 else 0) <= Work(s, t)
  {
    assert ThreadOk(s, t);
    match e {
      case DoGate(k, outcome) =>
        if k in s.running && s.running[k].stage.Queued? {
          assert AttemptOk(s, k);
          GateCostsWork(s, k, outcome, t);
        }
      case DoContinue(k) =>
        if k in s.running && (s.running[k].stage.Settled? || s.running[k].stage.Failed?) {
          assert AttemptOk(s, k);
          ContinueCostsWork(s, k, t);
        }
      case DoFinally(k) =>
        if k in s.running && s.running[k].stage.Closing? {
          FinallyCostsWork(s, k, t);
        }
      case _ =>
    }
  }

  function Moved(s: State, es: seq<Event>, t: string): nat
    decreases |es|
  {
    if es == [] then 0 else (if Moves(s, es[0], t) then 1 else 0) + Moved(Next(s, es[0]), es[1..], t)
  }

  function Outside(es: seq<Event>): nat
    decreases |es|
  {
    if es == [] then 0 else (if FromOutside(es[0]) then 1 else 0) + Outside(es[1..])
  }

  /** A thread's attempts take at most six steps per capture, signal or acknowledgement: they cannot keep each other going. */
  lemma {:induction false} AttemptsEnd(s: State, es: seq<Event>, t: string)
    requires Inv(s)
    ensures Moved(s, es, t) + Work(Run(s, es), t) <= Work(s, t) + 6 * Outside(es)
    decreases |es|
  {
    if es != [] {
      NextKeepsInv(s, es[0]);
      AttemptsEnd(Next(s, es[0]), es[1..], t);
      if !FromOutside(es[0]) {
        MovingCostsWork(s, es[0], t);
      }
    }
  }

  // --- only reported rows are settled ---------------------------------------

  function IdsIn(batches: seq<Batch>, t: string): set<string> {
    if batches == [] then {}
    else (if batches[0].threadId == t then batches[0].ids else {}) + IdsIn(batches[1..], t)
  }

  /** Every id some capture of the run reported for a thread. */
  function IdsAlong(es: seq<Event>, t: string): set<string>
    decreases |es|
  {
    if es == [] then {} else (if es[0].DoCapture? then IdsIn(es[0].batches, t) else {}) + IdsAlong(es[1..], t)
  }

  lemma BatchReports(s: State, b: Batch, t: string)
    ensures ReportedOf(CaptureBatch(s, b), t) == ReportedOf(s, t) + if b.threadId == t then b.ids else {}
  {
  }

  lemma {:induction false} CaptureReports(s: State, batches: seq<Batch>, t: string)
    ensures ReportedOf(CaptureFrom(s, batches), t) <= ReportedOf(s, t) + IdsIn(batches, t)
    decreases |batches|
  {
    hide CaptureBatch, ReportedOf;
    if batches != [] {
      BatchReports(s, batches[0], t);
      CaptureReports(CaptureBatch(s, batches[0]), batches[1..], t);
    }
  }

  lemma {:induction false} SignalReportsNothing(s: State, reason: Refusal, order: seq<string>)
    ensures RetryRefusedFrom(s, reason, order).reported == s.reported
    decreases |order|
  {
    if order != [] {
      SignalReportsNothing(Retry(s, order[0]), reason, order[1..]);
      SignalReportsNothing(s, reason, order[1..]);
    }
  }

  lemma NextReports(s: State, e: Event, t: string)
    ensures ReportedOf(Next(s, e), t) <= ReportedOf(s, t) + if e.DoCapture? then IdsIn(e.batches, t) else {}
  {
    match e
    case DoCapture(batches) => CaptureReports(s, batches, t);
    case AccessFreed => SignalReportsNothing(s, Busy, s.refusalOrder);
    case StorageRecovered => SignalReportsNothing(s, Storage, s.refusalOrder);
    case _ =>
  }

  lemma {:induction false} RunReports(s: State, es: seq<Event>, t: string)
    ensures ReportedOf(Run(s, es), t) <= ReportedOf(s, t) + IdsAlong(es, t)
    decreases |es|
  {
    if es != [] {
      NextReports(s, es[0], t);
      RunReports(Next(s, es[0]), es[1..], t);
    }
  }

  /** Whatever was settled or published was captured for that very thread by some report of the run. */
  lemma OnlyReportedRowsAreSettled(es: seq<Event>, i: nat)
    ensures
      var s := Run(FRESH, es);
      && (i < |s.settled| ==> s.settled[i].1 <= IdsAlong(es, s.settled[i].0))
      && (i < |s.published| ==> s.published[i].1 <= IdsAlong(es, s.published[i].0))
  {
    FreshInv();
    RunKeepsInv(FRESH, es);
    var s := Run(FRESH, es);
    if i < |s.settled| {
      RunReports(FRESH, es, s.settled[i].0);
    }
    if i < |s.published| {
      RunReports(FRESH, es, s.published[i].0);
    }
  }

  // --- old attempts are inert -----------------------------------------------

  /** The attempt's set is no longer its thread's current one. */
  predicate Retired(s: State, k: nat) {
    k < s.nextAttempt && (k in s.running ==> !Active(s, s.running[k]))
  }

  lemma RetryKeepsRetired(s: State, t: string, k: nat)
    requires Retired(s, k)
    ensures Retired(Retry(s, t), k)
  {
  }

  lemma {:induction false} SignalKeepsRetired(s: State, reason: Refusal, order: seq<string>, k: nat)
    requires Retired(s, k)
    ensures Retired(RetryRefusedFrom(s, reason, order), k)
    decreases |order|
  {
    if order != [] {
      RetryKeepsRetired(s, order[0], k);
      SignalKeepsRetired(Retry(s, order[0]), reason, order[1..], k);
      SignalKeepsRetired(s, reason, order[1..], k);
    }
  }

  lemma AddKeepsRetired(s: State, b: Batch, k: nat)
    requires Inv(s) && Retired(s, k)
    ensures Retired(Add(s, b), k)
  {
    assert k in s.running ==> AttemptOk(s, k);
  }

  lemma BatchKeepsRetired(s: State, b: Batch, k: nat)
    requires Inv(s) && Retired(s, k)
    ensures Retired(CaptureBatch(s, b), k)
  {
    hide Inv, Add, Retry;
    AddKeepsRetired(s, b, k);
    RetryKeepsRetired(RecordRefusal(Add(s, b), b.threadId, b.refusal), b.threadId, k);
  }

  lemma BatchKeepsInv(s: State, b: Batch)
    requires Inv(s) && !s.disposed
    ensures Inv(CaptureBatch(s, b)) && !CaptureBatch(s, b).disposed
  {
    AddKeepsRest(s, b);
    InvAllowsRetry(RecordRefusal(Add(s, b), b.threadId, b.refusal), b.threadId);
  }

  lemma {:induction false} CaptureKeepsRetired(s: State, batches: seq<Batch>, k: nat)
    requires Inv(s) && !s.disposed && Retired(s, k)
    ensures Retired(CaptureFrom(s, batches), k)
    decreases |batches|
  {
    hide Inv, CaptureBatch, Retired;
    if batches != [] {
      BatchKeepsInv(s, batches[0]);
      BatchKeepsRetired(s, batches[0], k);
      CaptureKeepsRetired(CaptureBatch(s, batches[0]), batches[1..], k);
    }
  }

  /** An attempt's own steps, a reset and disposal bring no retired set back. */
  lemma ContinuationKeepsRetired(s: State, e: Event, k: nat)
    requires Retired(s, k) && (e.DoGate? || e.DoContinue?)
    ensures Retired(Next(s, e), k)
  {
  }

  lemma FinallyKeepsRetired(s: State, x: nat, k: nat)
    requires Retired(s, k)
    ensures Retired(Finally(s, x), k)
  {
    hide Retry;
    if x in s.running && s.running[x].stage.Closing? {
      RetryKeepsRetired(Finished(s, x), s.running[x].threadId, k);
    }
  }

  lemma NextKeepsRetired(s: State, e: Event, k: nat)
    requires Inv(s) && Retired(s, k)
    ensures Retired(Next(s, e), k)
  {
    hide Inv, CaptureFrom, RetryRefusedFrom, Retry, Gate, Continue, Finally;
    match e
    case DoCapture(batches) =>
      if !s.disposed {
        CaptureKeepsRetired(s, batches, k);
      }
    case DoGate(_, _) => ContinuationKeepsRetired(s, e, k);
    case DoContinue(_) => ContinuationKeepsRetired(s, e, k);
    case DoFinally(x) => FinallyKeepsRetired(s, x, k);
    case AccessFreed => SignalKeepsRetired(s, Busy, s.refusalOrder, k);
    case StorageRecovered => SignalKeepsRetired(s, Storage, s.refusalOrder, k);
    case Acknowledged(t) => RetryKeepsRetired(s, t, k);
    case _ =>
  }

  lemma {:induction false} RunKeepsRetired(s: State, es: seq<Event>, k: nat)
    requires Inv(s) && Retired(s, k)
    ensures Retired(Run(s, es), k)
    decreases |es|
  {
    if es != [] {
      NextKeepsInv(s, es[0]);
      NextKeepsRetired(s, es[0], k);
      RunKeepsRetired(Next(s, es[0]), es[1..], k);
    }
  }

  /** Nothing differs but how far unfinished attempts got. */
  predicate OnlyProgress(s: State, s': State) {
    s' == s.(running := s'.running)
  }

  /**
   * After a reset forgot a thread, an attempt begun before it settles nothing when its gate
   * is reached and leaves every captured set, refusal and publication as it is, however the
   * run went on and even if the same thread captured the same ids again.
   */
  lemma ForgottenAttemptIsInert(before: seq<Event>, t: string, after: seq<Event>, k: nat, outcome: GateOutcome)
    requires k in Run(FRESH, before).running && Run(FRESH, before).running[k].threadId == t
    ensures
      var s := Run(Forget(Run(FRESH, before), t), after);
      OnlyProgress(s, Gate(s, k, outcome)) && OnlyProgress(s, Continue(s, k))
  {
    hide Run, Gate, Continue, Retired;
    FreshInv();
    RunKeepsInv(FRESH, before);
    var s0 := Run(FRESH, before);
    ForgetRetires(s0, t, k);
    ForgetKeepsInv(s0, t);
    RunKeepsRetired(Forget(s0, t), after, k);
    RetiredIsInert(Run(Forget(s0, t), after), k, outcome);
  }

  lemma ForgetRetires(s: State, t: string, k: nat)
    requires Inv(s) && k in s.running && s.running[k].threadId == t
    ensures Retired(Forget(s, t), k)
  {
    assert AttemptOk(s, k);
  }

  lemma RetiredIsInert(s: State, k: nat, outcome: GateOutcome)
    requires Retired(s, k)
    ensures OnlyProgress(s, Gate(s, k, outcome)) && OnlyProgress(s, Continue(s, k))
  {
  }
}
