/** The recovery object itself: its maps, updated in place, follow the specification step by step. */
module SettlementRecoveryHost {
  import opened Orders
  import Spec = SettlementRecovery
  import opened SettlementRecovery

  class DelegatedAgentSettlementRecovery {
    var disposed: bool
    var candidates: map<string, Candidate>
    var refusals: map<string, Refusal>
    var refusalOrder: seq<string>
    var attempts: map<string, nat>
    var running: map<nat, Attempt>
    var nextIdentity: nat
    var nextAttempt: nat
    ghost var reported: map<string, set<string>>
    // The transcript and the clients.
    var settled: seq<(string, set<string>)>
    var published: seq<(string, set<string>)>

    ghost function View(): State
      reads this
    {
      State(disposed, candidates, refusals, refusalOrder, attempts, running, nextIdentity, nextAttempt, reported, settled, published)
    }

    constructor ()
      ensures View() == FRESH
    {
      disposed, candidates, refusals, refusalOrder := false, map[], map[], [];
      attempts, running, nextIdentity, nextAttempt := map[], map[], 0, 0;
      reported, settled, published := map[], [], [];
    }

    method RecordRefusal(t: string, r: Refusal)
      modifies this`refusals, this`refusalOrder
      ensures View() == Spec.RecordRefusal(old(View()), t, r)
    {
      if t !in refusals {
        refusalOrder := refusalOrder + [t];
      }
      refusals := refusals[t := r];
    }

    method ClearRefusal(t: string)
      modifies this`refusals, this`refusalOrder
      ensures View() == Spec.ClearRefusal(old(View()), t)
    {
      refusals, refusalOrder := refusals - {t}, Without(refusalOrder, t);
    }

    method Retry(t: string)
      modifies this`running, this`attempts, this`nextAttempt
      ensures View() == Spec.Retry(old(View()), t)
    {
      if t in attempts || disposed || t !in candidates {
        return;
      }
      var captured := candidates[t].ids;
      running := running[nextAttempt := Attempt(t, candidates[t].identity, captured, Queued)];
      attempts := attempts[t := nextAttempt];
      nextAttempt := nextAttempt + 1;
    }

    /** Fills the thread's set in place, or makes a new one. */
    method Add(b: Batch)
      modifies this`candidates, this`nextIdentity, this`reported
      ensures View() == Spec.Add(old(View()), b)
    {
      var t := b.threadId;
      var c := Candidate(nextIdentity, {});
      if t in candidates {
        c := candidates[t];
      } else {
        nextIdentity := nextIdentity + 1;
      }
      candidates := candidates[t := c.(ids := c.ids + b.ids)];
      reported := reported[t := ReportedOf(old(View()), t) + b.ids];
    }

    method CaptureBatch(b: Batch)
      modifies this
      ensures View() == Spec.CaptureBatch(old(View()), b)
    {
      Add(b);
      RecordRefusal(b.threadId, b.refusal);
      if b.refusal != Gap {
        Retry(b.threadId);
      }
    }

    method Capture(batches: seq<Batch>)
      modifies this
      ensures View() == Spec.Capture(old(View()), batches)
    {
      if disposed {
        return;
      }
      var i := 0;
      while i < |batches|
        invariant 0 <= i <= |batches|
        invariant CaptureFrom(View(), batches[i..]) == CaptureFrom(old(View()), batches)
      {
        assert batches[i..][1..] == batches[i + 1..];
        CaptureBatch(batches[i]);
        i := i + 1;
      }
    }

    method RetryRefused(reason: Refusal)
      modifies this`running, this`attempts, this`nextAttempt
      ensures View() == Spec.RetryRefused(old(View()), reason)
    {
      var i := 0;
      while i < |refusalOrder|
        invariant 0 <= i <= |refusalOrder|
        invariant RetryRefusedFrom(View(), reason, refusalOrder[i..]) == RetryRefusedFrom(old(View()), reason, refusalOrder)
      {
        assert refusalOrder[i..][1..] == refusalOrder[i + 1..];
        var t := refusalOrder[i];
        if t in refusals && refusals[t] == reason {
          Retry(t);
        }
        i := i + 1;
      }
    }

    /** `current` in the code: the candidate set the attempt was started for is still in place. */
    predicate IsActive(a: Attempt)
      reads this
      ensures IsActive(a) == Active(View(), a)
    {
      !disposed && a.threadId in candidates && candidates[a.threadId].identity == a.identity
    }

    /** The callback behind the transcript gate, or the gate's refusal. */
    method Gate(k: nat, outcome: GateOutcome)
      requires k in running && running[k].stage.Queued?
      modifies this`running, this`settled
      ensures View() == Spec.Gate(old(View()), k, outcome)
    {
      var a := running[k];
      match outcome {
        case Refused(r) => running := running[k := a.(stage := Failed(r))];
        case Ran(rows) =>
          var ids := if IsActive(a) then rows * a.captured else {};
          running := running[k := a.(stage := Settled(ids))];
          if ids != {} {
            settled := settled + [(a.threadId, ids)];
          }
      }
    }

    method RemoveCaptured(a: Attempt)
      requires IsActive(a)
      modifies this`candidates, this`refusals, this`refusalOrder
      ensures View() == Repair(old(View()), a)
    {
      var t := a.threadId;
      ClearRefusal(t);
      var rest := candidates[t].ids - a.captured;
      candidates := candidates[t := candidates[t].(ids := rest)];
      if rest == {} {
        candidates := candidates - {t};
      }
    }

    /** The success continuation. */
    method Then(k: nat)
      requires k in running && running[k].stage.Settled?
      modifies this`candidates, this`refusals, this`refusalOrder, this`running, this`published
      ensures View() == Spec.Continue(old(View()), k)
    {
      var a := running[k];
      if !IsActive(a) {
        running := running[k := a.(stage := Closing(false))];
        return;
      }
      RemoveCaptured(a);
      running := running[k := a.(stage := Closing(true))];
      if a.stage.ids != {} {
        published := published + [(a.threadId, a.stage.ids)];
      }
    }

    /** The failure continuation. */
    method Catch(k: nat)
      requires k in running && running[k].stage.Failed?
      modifies this`refusals, this`refusalOrder, this`running
      ensures View() == Spec.Continue(old(View()), k)
    {
      var a := running[k];
      if IsActive(a) {
        RecordRefusal(a.threadId, a.stage.refusal);
      }
      running := running[k := a.(stage := Closing(false))];
    }

    method Finally(k: nat)
      requires k in running && running[k].stage.Closing?
      modifies this`running, this`attempts, this`nextAttempt
      ensures View() == Spec.Finally(old(View()), k)
    {
      var a := running[k];
      attempts, running := attempts - {a.threadId}, running - {k};
      var t := a.threadId;
      if t in candidates && (a.stage.repaired || candidates[t].identity != a.identity)
         && !(t in refusals && refusals[t] == Gap) {
        Retry(t);
      }
    }

    method Forget(t: string)
      modifies this`candidates, this`refusals, this`refusalOrder
      ensures View() == Spec.Forget(old(View()), t)
    {
      candidates := candidates - {t};
      ClearRefusal(t);
    }

    method Dispose()
      modifies this`disposed, this`candidates, this`refusals, this`refusalOrder
      ensures View() == Spec.Dispose(old(View()))
    {
      disposed, candidates, refusals, refusalOrder := true, map[], map[], [];
    }
  }
}
