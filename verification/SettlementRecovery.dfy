/**
 * Recovery of delegated-agent rows left behind by a dead supervisor generation: captured
 * ids are retried, thread by thread, until the transcript gate lets them settle. Each
 * promise continuation is a step of its own, so captures, resets and signals can fall
 * between any two of them. A captured set is identified by a number, as the code
 * identifies it by object identity.
 */
module SettlementRecovery {
  import opened Orders

  datatype Refusal = Busy | Storage | Gap

  datatype Candidate = Candidate(identity: nat, ids: set<string>)

  /** How far an attempt's promise chain got: waiting for the gate, past it, refused by it, or about to finish. */
  datatype Stage = Queued | Settled(ids: set<string>) | Failed(refusal: Refusal) | Closing(repaired: bool)

  datatype Attempt = Attempt(threadId: string, identity: nat, captured: set<string>, stage: Stage)

  datatype Batch = Batch(threadId: string, ids: set<string>, refusal: Refusal)

  /** What the gate did: ran the callback, which found `rows` still orphaned, or refused. */
  datatype GateOutcome = Ran(rows: set<string>) | Refused(refusal: Refusal)

  /**
   * `running` holds every unfinished attempt, `attempts` the one remembered per thread.
   * `reported`, `settled` and `published` are history: ids handed to `capture`, rows
   * settled in the transcript, rows published to clients.
   */
  datatype State = State(
    disposed: bool,
    candidates: map<string, Candidate>,
    refusals: map<string, Refusal>, refusalOrder: seq<string>,
    attempts: map<string, nat>, running: map<nat, Attempt>,
    nextIdentity: nat, nextAttempt: nat,
    reported: map<string, set<string>>, settled: seq<(string, set<string>)>, published: seq<(string, set<string>)>)

  const FRESH := State(false, map[], map[], [], map[], map[], 0, 0, map[], [], [])

  function RecordRefusal(s: State, t: string, r: Refusal): State {
    s.(refusals := s.refusals[t := r], refusalOrder := if t in s.refusals then s.refusalOrder else s.refusalOrder + [t])
  }

  function ClearRefusal(s: State, t: string): State {
    s.(refusals := s.refusals - {t}, refusalOrder := Without(s.refusalOrder, t))
  }

  /** Starts an attempt on the ids captured so far, unless one runs already or nothing is left to retry. */
  function Retry(s: State, t: string): State {
    if t in s.attempts || s.disposed || t !in s.candidates then s
    else
      var a := Attempt(t, s.candidates[t].identity, s.candidates[t].ids, Queued);
      s.(running := s.running[s.nextAttempt := a], attempts := s.attempts[t := s.nextAttempt], nextAttempt := s.nextAttempt + 1)
  }

  // --- capture --------------------------------------------------------------

  function ReportedOf(s: State, t: string): set<string> {
    if t in s.reported then s.reported[t] else {}
  }

  /** A known thread's set grows in place; otherwise a new set is made. */
  function Add(s: State, b: Batch): State {
    var t := b.threadId;
    var c := if t in s.candidates then s.candidates[t] else Candidate(s.nextIdentity, {});
    s.(candidates := s.candidates[t := c.(ids := c.ids + b.ids)],
       nextIdentity := if t in s.candidates then s.nextIdentity else s.nextIdentity + 1,
       reported := s.reported[t := ReportedOf(s, t) + b.ids])
  }

  function CaptureBatch(s: State, b: Batch): State {
    var s1 := RecordRefusal(Add(s, b), b.threadId, b.refusal);
    if b.refusal == Gap then s1 else Retry(s1, b.threadId)
  }

  function CaptureFrom(s: State, batches: seq<Batch>): State
    decreases |batches|
  {
    if batches == [] then s else CaptureFrom(CaptureBatch(s, batches[0]), batches[1..])
  }

  function Capture(s: State, batches: seq<Batch>): State {
    if s.disposed then s else CaptureFrom(s, batches)
  }

  // --- an attempt's continuations -------------------------------------------

  /** The set this attempt was started for is still the thread's current one. */
  predicate Active(s: State, a: Attempt) {
    !s.disposed && a.threadId in s.candidates && s.candidates[a.threadId].identity == a.identity
  }

  function Staged(s: State, k: nat, stage: Stage): State
    requires k in s.running
  {
    s.(running := s.running[k := s.running[k].(stage := stage)])
  }

  /** The transcript gate answers: an inactive attempt settles nothing even when its turn comes. */
  function Gate(s: State, k: nat, outcome: GateOutcome): State {
    if k !in s.running || !s.running[k].stage.Queued? then s
    else
      var a := s.running[k];
      match outcome
      case Refused(r) => Staged(s, k, Failed(r))
      case Ran(rows) =>
        var ids := if Active(s, a) then rows * a.captured else {};
        Staged(s, k, Settled(ids)).(settled := if ids == {} then s.settled else s.settled + [(a.threadId, ids)])
  }

  /** The attempt's set loses what was captured at its start; what was added since stays. */
  function Repair(s: State, a: Attempt): State
    requires Active(s, a)
  {
    var t := a.threadId;
    var rest := s.candidates[t].ids - a.captured;
    ClearRefusal(s, t).(candidates := if rest == {} then s.candidates - {t}
                                      else s.candidates[t := s.candidates[t].(ids := rest)])
  }

  /** The `then` or `catch` continuation of the gate's answer. */
  function Continue(s: State, k: nat): State {
    if k !in s.running then s
    else
      var a := s.running[k];
      match a.stage
      case Settled(ids) =>
        if !Active(s, a) then Staged(s, k, Closing(false))
        else Staged(Repair(s, a), k, Closing(true))
             .(published := if ids == {} then s.published else s.published + [(a.threadId, ids)])
      case Failed(r) =>
        Staged(if Active(s, a) then RecordRefusal(s, a.threadId, r) else s, k, Closing(false))
      case _ => s
  }

  function Finished(s: State, k: nat): State
    requires k in s.running
  {
    s.(running := s.running - {k}, attempts := s.attempts - {s.running[k].threadId})
  }

  /** The attempt goes on by itself when it repaired something and more was added, or when its set was replaced. */
  predicate GoesOn(s: State, a: Attempt)
    requires a.stage.Closing?
  {
    && a.threadId in s.candidates
    && (a.stage.repaired || s.candidates[a.threadId].identity != a.identity)
    && !(a.threadId in s.refusals && s.refusals[a.threadId] == Gap)
  }

  function Finally(s: State, k: nat): State {
    if k !in s.running || !s.running[k].stage.Closing? then s
    else if GoesOn(s, s.running[k]) then Retry(Finished(s, k), s.running[k].threadId)
    else Finished(s, k)
  }

  // --- signals, resets, disposal --------------------------------------------

  function RetryRefusedFrom(s: State, reason: Refusal, order: seq<string>): State
    decreases |order|
  {
    if order == [] then s
    else if order[0] in s.refusals && s.refusals[order[0]] == reason then RetryRefusedFrom(Retry(s, order[0]), reason, order[1..])
    else RetryRefusedFrom(s, reason, order[1..])
  }

  function RetryRefused(s: State, reason: Refusal): State {
    RetryRefusedFrom(s, reason, s.refusalOrder)
  }

  /** An authoritative transcript reset retires the thread's captured set. */
  function Forget(s: State, t: string): State {
    ClearRefusal(s, t).(candidates := s.candidates - {t})
  }

  function Dispose(s: State): State {
    s.(disposed := true, candidates := map[], refusals := map[], refusalOrder := [])
  }

  /** `AccessFreed` and `StorageRecovered` stop reaching the object once it unsubscribed. */
  datatype Event =
    | DoCapture(batches: seq<Batch>)
    | DoGate(k: nat, outcome: GateOutcome)
    | DoContinue(k: nat)
    | DoFinally(k: nat)
    | DoForget(threadId: string)
    | AccessFreed
    | StorageRecovered
    | Acknowledged(threadId: string)
    | DoDispose

  function Next(s: State, e: Event): State {
    match e
    case DoCapture(batches) => Capture(s, batches)
    case DoGate(k, outcome) => Gate(s, k, outcome)
    case DoContinue(k) => Continue(s, k)
    case DoFinally(k) => Finally(s, k)
    case DoForget(t) => Forget(s, t)
    case AccessFreed => if s.disposed then s else RetryRefused(s, Busy)
    case StorageRecovered => if s.disposed then s else RetryRefused(s, Storage)
    case Acknowledged(t) => Retry(s, t)
    case DoDispose => Dispose(s)
  }

  function Run(s: State, es: seq<Event>): State
    decreases |es|
  {
    if es == [] then s else Run(Next(s, es[0]), es[1..])
  }
}
