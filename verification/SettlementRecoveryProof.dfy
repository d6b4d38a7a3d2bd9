/** What recovery of captured delegated-agent rows keeps over every run, and what that gives. */
module SettlementRecoveryProof {
  import opened Orders
  import opened SettlementRecovery

  // --- the invariant --------------------------------------------------------

  ghost predicate ThreadOk(s: State, t: string) {
    && (t in s.candidates ==>
          && !s.disposed && s.candidates[t].identity < s.nextIdentity && s.candidates[t].ids <= ReportedOf(s, t)
          && (t in s.attempts || t in s.refusals))
    && (t in s.refusals ==> t in s.candidates && t in s.refusalOrder)
    && (t in s.attempts ==> s.attempts[t] in s.running && s.running[s.attempts[t]].threadId == t)
  }

  /** A running attempt is the one its thread remembers; one that failed on the current set left its refusal recorded. */
  ghost predicate AttemptOk(s: State, k: nat)
    requires k in s.running
  {
    var a := s.running[k];
    && k < s.nextAttempt && a.identity < s.nextIdentity && a.captured <= ReportedOf(s, a.threadId)
    && a.threadId in s.attempts && s.attempts[a.threadId] == k
    && (a.stage.Settled? ==> a.stage.ids <= a.captured)
    && (a.stage == Closing(false) && Active(s, a) ==> a.threadId in s.refusals)
  }

  ghost predicate LogOk(s: State, log: seq<(string, set<string>)>) {
    forall i :: 0 <= i < |log| ==> log[i].1 <= ReportedOf(s, log[i].0)
  }

  ghost predicate Inv(s: State) {
    && (forall t :: ThreadOk(s, t))
    && (forall k :: k in s.running ==> AttemptOk(s, k))
    && LogOk(s, s.settled) && LogOk(s, s.published)
  }

  // --- single steps ---------------------------------------------------------

  lemma RetryKeepsInv(s: State, t: string)
    requires forall x :: x != t ==> ThreadOk(s, x)
    requires t in s.candidates ==> !s.disposed && s.candidates[t].identity < s.nextIdentity && s.candidates[t].ids <= ReportedOf(s, t)
    requires t in s.refusals ==> t in s.candidates && t in s.refusalOrder
    requires t in s.attempts ==> s.attempts[t] in s.running && s.running[s.attempts[t]].threadId == t
    requires forall k :: k in s.running ==> AttemptOk(s, k)
    requires LogOk(s, s.settled) && LogOk(s, s.published)
    ensures Inv(Retry(s, t))
  {
    var s' := Retry(s, t);
    forall x ensures ThreadOk(s', x)
    {
      assert x == t || ThreadOk(s, x);
    }
    forall k | k in s'.running ensures AttemptOk(s', k)
    {
      assert k in s.running ==> AttemptOk(s, k);
    }
  }

  lemma AddKeepsRest(s: State, b: Batch)
    requires Inv(s) && !s.disposed
    ensures
      var s' := RecordRefusal(Add(s, b), b.threadId, b.refusal);
      Inv(s') && b.threadId in s'.refusals && b.threadId in s'.candidates
  {
    var t := b.threadId;
    var s' := RecordRefusal(Add(s, b), t, b.refusal);
    assert ThreadOk(s, t);
    forall x ensures ThreadOk(s', x)
    {
      assert ThreadOk(s, x);
    }
    forall k | k in s'.running ensures AttemptOk(s', k)
    {
      assert AttemptOk(s, k);
    }
  }

  lemma InvAllowsRetry(s: State, t: string)
    requires Inv(s)
    ensures Inv(Retry(s, t))
  {
    assert ThreadOk(s, t);
    RetryKeepsInv(s, t);
  }

  lemma {:induction false} CaptureKeepsInv(s: State, batches: seq<Batch>)
    requires Inv(s) && !s.disposed
    ensures Inv(CaptureFrom(s, batches))
    decreases |batches|
  {
    if batches != [] {
      var b := batches[0];
      AddKeepsRest(s, b);
      InvAllowsRetry(RecordRefusal(Add(s, b), b.threadId, b.refusal), b.threadId);
      CaptureKeepsInv(CaptureBatch(s, b), batches[1..]);
    }
  }

  lemma StagedKeepsInv(s: State, k: nat, stage: Stage)
    requires Inv(s) && k in s.running
    requires stage.Settled? ==> stage.ids <= s.running[k].captured
    requires stage == Closing(false) && Active(s, s.running[k]) ==> s.running[k].threadId in s.refusals
    ensures Inv(Staged(s, k, stage))
  {
    var s' := Staged(s, k, stage);
    forall x ensures ThreadOk(s', x)
    {
      assert ThreadOk(s, x);
    }
    forall j | j in s'.running ensures AttemptOk(s', j)
    {
      assert AttemptOk(s, j);
    }
  }

  lemma GateKeepsInv(s: State, k: nat, outcome: GateOutcome)
    requires Inv(s)
    ensures Inv(Gate(s, k, outcome))
  {
    if k in s.running && s.running[k].stage.Queued? {
      var a := s.running[k];
      assert AttemptOk(s, k);
      match outcome
      case Refused(r) => StagedKeepsInv(s, k, Failed(r));
      case Ran(rows) =>
        var ids := if Active(s, a) then rows * a.captured else {};
        StagedKeepsInv(s, k, Settled(ids));
        assert ids <= ReportedOf(s, a.threadId);
        LoggingKeepsInv(Staged(s, k, Settled(ids)), s.settled + [(a.threadId, ids)], s.published);
    }
  }

  lemma LoggingKeepsInv(s: State, settled: seq<(string, set<string>)>, published: seq<(string, set<string>)>)
    requires Inv(s) && LogOk(s, settled) && LogOk(s, published)
    ensures Inv(s.(settled := settled, published := published))
  {
    var s' := s.(settled := settled, published := published);
    forall x ensures ThreadOk(s', x)
    {
      assert ThreadOk(s, x);
    }
    forall j | j in s'.running ensures AttemptOk(s', j)
    {
      assert AttemptOk(s, j);
    }
  }

  lemma RecordKeepsInv(s: State, t: string, r: Refusal)
    requires Inv(s) && t in s.candidates
    ensures Inv(RecordRefusal(s, t, r))
  {
    var s' := RecordRefusal(s, t, r);
    assert ThreadOk(s, t);
    forall x ensures ThreadOk(s', x)
    {
      assert ThreadOk(s, x);
    }
    forall j | j in s'.running ensures AttemptOk(s', j)
    {
      assert AttemptOk(s, j);
    }
  }

  /** Repairing needs its own attempt on record as repaired: it is what restarts the ids added meanwhile. */
  lemma RepairKeepsInv(s: State, k: nat)
    requires Inv(s) && k in s.running && Active(s, s.running[k])
    ensures Inv(Staged(Repair(s, s.running[k]), k, Closing(true)))
  {
    var a := s.running[k];
    var s' := Staged(Repair(s, a), k, Closing(true));
    WithoutMembers(s.refusalOrder, a.threadId);
    assert AttemptOk(s, k);
    forall x ensures ThreadOk(s', x)
    {
      assert ThreadOk(s, x);
    }
    forall j | j in s'.running ensures AttemptOk(s', j)
    {
      assert AttemptOk(s, j);
    }
  }

  lemma ContinueKeepsInv(s: State, k: nat)
    requires Inv(s)
    ensures Inv(Continue(s, k))
  {
    if k in s.running {
      var a := s.running[k];
      assert AttemptOk(s, k);
      match a.stage
      case Settled(ids) =>
        if Active(s, a) {
          RepairKeepsInv(s, k);
          LoggingKeepsInv(Staged(Repair(s, a), k, Closing(true)), s.settled, s.published + [(a.threadId, ids)]);
        } else {
          StagedKeepsInv(s, k, Closing(false));
        }
      case Failed(r) =>
        if Active(s, a) {
          RecordKeepsInv(s, a.threadId, r);
          StagedKeepsInv(RecordRefusal(s, a.threadId, r), k, Closing(false));
        } else {
          StagedKeepsInv(s, k, Closing(false));
        }
      case _ =>
    }
  }

  lemma FinallyKeepsInv(s: State, k: nat)
    requires Inv(s)
    ensures Inv(Finally(s, k))
  {
    if k in s.running && s.running[k].stage.Closing? {
      var a := s.running[k];
      var s1 := Finished(s, k);
      assert AttemptOk(s, k) && ThreadOk(s, a.threadId);
      forall j | j in s1.running ensures AttemptOk(s1, j)
      {
        assert AttemptOk(s, j);
      }
      forall x | x != a.threadId ensures ThreadOk(s1, x)
      {
        assert ThreadOk(s, x);
      }
      if GoesOn(s, a) {
        RetryKeepsInv(s1, a.threadId);
      }
    }
  }

  lemma ForgetKeepsInv(s: State, t: string)
    requires Inv(s)
    ensures Inv(Forget(s, t))
  {
    WithoutMembers(s.refusalOrder, t);
    var s' := Forget(s, t);
    forall x ensures ThreadOk(s', x)
    {
      assert ThreadOk(s, x);
    }
    forall j | j in s'.running ensures AttemptOk(s', j)
    {
      assert AttemptOk(s, j);
    }
  }

  lemma DisposeKeepsInv(s: State)
    requires Inv(s)
    ensures Inv(Dispose(s))
  {
    var s' := Dispose(s);
    forall x ensures ThreadOk(s', x)
    {
      assert ThreadOk(s, x);
    }
    forall j | j in s'.running ensures AttemptOk(s', j)
    {
      assert AttemptOk(s, j);
    }
  }

  lemma {:induction false} RetryRefusedKeepsInv(s: State, reason: Refusal, order: seq<string>)
    requires Inv(s)
    ensures Inv(RetryRefusedFrom(s, reason, order))
    decreases |order|
  {
    if order != [] {
      InvAllowsRetry(s, order[0]);
      RetryRefusedKeepsInv(Retry(s, order[0]), reason, order[1..]);
      RetryRefusedKeepsInv(s, reason, order[1..]);
    }
  }

  lemma NextKeepsInv(s: State, e: Event)
    requires Inv(s)
    ensures Inv(Next(s, e))
  {
    match e
    case DoCapture(batches) =>
      if !s.disposed {
        CaptureKeepsInv(s, batches);
      }
    case DoGate(k, outcome) => GateKeepsInv(s, k, outcome);
    case DoContinue(k) => ContinueKeepsInv(s, k);
    case DoFinally(k) => FinallyKeepsInv(s, k);
    case DoForget(t) => ForgetKeepsInv(s, t);
    case AccessFreed => RetryRefusedKeepsInv(s, Busy, s.refusalOrder);
    case StorageRecovered => RetryRefusedKeepsInv(s, Storage, s.refusalOrder);
    case Acknowledged(t) => InvAllowsRetry(s, t);
    case DoDispose => DisposeKeepsInv(s);
  }

  lemma {:induction false} RunKeepsInv(s: State, es: seq<Event>)
    requires Inv(s)
    ensures Inv(Run(s, es))
    decreases |es|
  {
    if es != [] {
      NextKeepsInv(s, es[0]);
      RunKeepsInv(Next(s, es[0]), es[1..]);
    }
  }
}
