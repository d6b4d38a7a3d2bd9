/** The admission control object itself: its tables, updated in place, follow the specification step by step. */
module CanonicalAdmissionHost {
  import opened Orders
  import opened Wrappers
  import opened CanonicalAdmission

  class HostCanonicalAdmissionControl {
    var generation: Option<string>
    var lastRequestSeq: nat
    var pending: map<nat, Pending>
    var pendingOrder: seq<nat>
    var resolved: map<nat, Resolved>
    var resolvedOrder: seq<nat>
    var awaitingRelease: map<nat, Grant>
    var wake: bool
    // The peers this object drives: the persistence queue and its notifications, the control channel, the event stream.
    var observing: bool
    var freed: nat
    var queue: Queue
    var sent: seq<Control>
    var published: seq<Batch>
    // The history since the last retirement.
    ghost var verdicts: map<nat, Resolved>
    ghost var admitted: seq<nat>
    ghost var since: nat

    ghost function View(): State
      reads this
    {
      State(generation, lastRequestSeq, pending, pendingOrder, Cache(resolved, resolvedOrder), awaitingRelease, wake, observing,
            freed, queue, sent, published, verdicts, admitted, since)
    }

    constructor ()
      ensures View() == FRESH
    {
      generation, lastRequestSeq, pending, pendingOrder := None, 0, map[], [];
      resolved, resolvedOrder, awaitingRelease, wake := map[], [], map[], false;
      observing, freed, queue, sent, published := true, 0, Queue(map[], {}, []), [], [];
      verdicts, admitted, since := map[], [], 0;
    }

    method SendInvalid(seqNo: nat, threadId: string)
      modifies this`sent
      ensures View() == SayInvalid(old(View()), seqNo, threadId)
    {
      sent := sent + [Verdict(seqNo, threadId, Invalid, 0, 0)];
    }

    /**
     * Records a verdict and drops the oldest ones over the limit. The order lists exactly
     * the cached verdicts (`CacheListed`), so it never runs out while the cache is too big.
     */
    method Remember(k: nat, r: Resolved)
      modifies this`resolved, this`resolvedOrder
      ensures Cache(resolved, resolvedOrder) == Evict(Cache(old(resolved)[k := r], old(resolvedOrder) + [k]))
    {
      resolved, resolvedOrder := resolved[k := r], resolvedOrder + [k];
      ghost var full := Cache(resolved, resolvedOrder);
      while |resolved| > MAX_REQUESTS && resolvedOrder != []
        invariant Evict(Cache(resolved, resolvedOrder)) == Evict(full)
        decreases |resolvedOrder|
      {
        resolved, resolvedOrder := resolved - {resolvedOrder[0]}, resolvedOrder[1..];
      }
    }

    /** Takes a request off the pending ones; a retained grant stays charged. */
    method LetGo(k: nat, entry: Pending, retainGrant: bool)
      modifies this`pending, this`pendingOrder, this`awaitingRelease
      ensures
        var s := old(View());
        View() == s.(pending := s.pending - {k}, pendingOrder := Without(s.pendingOrder, k),
                     awaiting := if retainGrant && entry.grant.Some? then s.awaiting[k := entry.grant.value] else s.awaiting)
    {
      pending, pendingOrder := pending - {k}, Without(pendingOrder, k);
      if retainGrant && entry.grant.Some? {
        awaitingRelease := awaitingRelease[k := entry.grant.value];
      }
    }

    /** Records and sends a verdict. */
    method Record(k: nat, r: Resolved)
      modifies this`resolved, this`resolvedOrder, this`verdicts, this`sent
      ensures
        var s := old(View());
        View() == s.(cache := Evict(Cache(s.cache.entries[k := r], s.cache.order + [k])),
                     verdicts := s.verdicts[k := r], sent := s.sent + [VerdictOf(k, r)])
    {
      Remember(k, r);
      verdicts := verdicts[k := r];
      sent := sent + [VerdictOf(k, r)];
    }

    method Finish(k: nat, outcome: Outcome, accepted: nat, refused: nat, retainGrant: bool)
      requires k in pending
      modifies this`pending, this`pendingOrder, this`awaitingRelease, this`resolved, this`resolvedOrder, this`verdicts, this`sent
      ensures View() == CanonicalAdmission.Finish(old(View()), k, outcome, accepted, refused, retainGrant)
    {
      var entry := pending[k];
      LetGo(k, entry, retainGrant);
      Record(k, ResolvedAs(entry, outcome, accepted, refused));
    }

    /** The observer, for every notification but a reset. */
    method OnCapacityChange()
      modifies this`freed, this`wake
      ensures View() == Wake(old(View()))
    {
      if generation.None? || !observing {
        return;
      }
      freed := freed + 1;
      if wake || |pending| == 0 {
        return;
      }
      wake := true;
    }

    /** Sends every granted request back to its sender. */
    method RetryGranted()
      modifies this
      ensures View() == FinishGranted(old(View()), old(pendingOrder))
    {
      var order, i := pendingOrder, 0;
      while i < |order|
        invariant 0 <= i <= |order|
        invariant FinishGranted(View(), order[i..]) == FinishGranted(old(View()), order)
      {
        assert order[i..][1..] == order[i + 1..];
        if order[i] in pending && pending[order[i]].grant.Some? {
          Finish(order[i], Retry, 0, 0, false);
        }
        i := i + 1;
      }
    }

    /** The observer, when the queue was reset and forgot every lease. */
    method OnReset()
      modifies this
      ensures View() == Reset(old(View()))
    {
      queue := queue.(leases := map[]);
      if generation.None? || !observing {
        return;
      }
      RetryGranted();
      awaitingRelease := map[];
      OnCapacityChange();
    }

    /** The port drops a lease and says so. */
    method ReleaseReservation(id: string)
      modifies this`queue, this`freed, this`wake
      ensures View() == ReleaseLease(old(View()), id)
    {
      if id in queue.leases {
        queue := queue.(leases := queue.leases - {id});
        OnCapacityChange();
      }
    }

    /** The queue reserved: the lease is charged and the sender told. */
    method GiveGrant(k: nat, grant: Grant)
      requires k in pending
      modifies this`queue, this`pending, this`sent
      ensures
        var s := old(View());
        View() == Say(s.(pending := s.pending[k := s.pending[k].(grant := Some(grant))],
                         queue := s.queue.(leases := s.queue.leases[grant.reservationId := grant.threadId],
                                           used := s.queue.used + {grant.reservationId})),
                      Granted(grant))
    {
      queue := queue.(leases := queue.leases[grant.reservationId := grant.threadId], used := queue.used + {grant.reservationId});
      pending := pending[k := pending[k].(grant := Some(grant))];
      sent := sent + [Granted(grant)];
    }

    method TryGrant(k: nat, answer: ReserveAnswer)
      requires k in pending
      modifies this
      ensures View() == CanonicalAdmission.TryGrant(old(View()), k, answer)
    {
      hide CanonicalAdmission.Finish;
      var request := pending[k].request;
      var result := HonestReserve(queue, answer.result);
      pending := pending[k := pending[k].(asked := freed)];
      if answer.health {
        OnCapacityChange();
      }
      match result {
        case Impossible => Finish(k, Invalid, 0, 0, false);
        case Blocked =>
        case Reserved(id) => GiveGrant(k, Grant(k, request.threadId, id));
      }
    }

    /** The deferred wake: every request still waiting asks again. */
    method Pump(answers: nat -> ReserveAnswer)
      modifies this
      ensures View() == CanonicalAdmission.Pump(old(View()), answers)
    {
      if !wake {
        return;
      }
      wake := false;
      ghost var start := View();
      var order, i := pendingOrder, 0;
      while i < |order|
        invariant 0 <= i <= |order|
        invariant PumpFrom(View(), order[i..], answers) == PumpFrom(start, order, answers)
      {
        assert order[i..][1..] == order[i + 1..];
        if order[i] in pending && pending[order[i]].grant.None? {
          TryGrant(order[i], answers(order[i]));
        }
        i := i + 1;
      }
    }

    method Negotiate(peer: Option<string>)
      modifies this`generation, this`sent
      ensures View() == CanonicalAdmission.Negotiate(old(View()), peer)
    {
      if peer.None? || (generation.Some? && generation != peer) {
        return;
      }
      generation := peer;
      sent := sent + [Enable(peer.value)];
    }

    method ForgetRetained(k: nat)
      modifies this`awaitingRelease
      ensures View() == old(View()).(awaiting := old(awaitingRelease) - {k})
    {
      awaitingRelease := awaitingRelease - {k};
    }

    method HandleRelease(m: Message)
      requires m.Release?
      modifies this
      ensures View() == CanonicalAdmission.HandleRelease(old(View()), m)
    {
      hide CanonicalAdmission.Finish, ReleaseLease;
      var grant := if m.seqNo in pending && pending[m.seqNo].grant.Some? then pending[m.seqNo].grant
                   else if m.seqNo in awaitingRelease then Some(awaitingRelease[m.seqNo]) else None;
      if grant.Some? && grant.value.threadId == m.threadId && grant.value.reservationId == m.reservationId {
        ReleaseReservation(grant.value.reservationId);
        ForgetRetained(m.seqNo);
        if m.seqNo in pending {
          Finish(m.seqNo, Cancelled, 0, 0, false);
        }
      }
    }

    method HandleCancel(m: Message)
      requires m.Cancel?
      modifies this
      ensures View() == CanonicalAdmission.HandleCancel(old(View()), m)
    {
      if m.seqNo in pending && pending[m.seqNo].request.threadId == m.threadId {
        if pending[m.seqNo].grant.Some? {
          ReleaseReservation(pending[m.seqNo].grant.value.reservationId);
        }
        Finish(m.seqNo, Cancelled, 0, 0, false);
      } else {
        SendInvalid(m.seqNo, m.threadId);
      }
    }

    /** A new request joins the pending ones. */
    method Await(r: Request)
      modifies this`lastRequestSeq, this`pending, this`pendingOrder
      ensures
        var s := old(View());
        View() == s.(lastSeq := r.seqNo, pending := s.pending[r.seqNo := Pending(r, None, s.freed)],
                     pendingOrder := s.pendingOrder + [r.seqNo])
    {
      lastRequestSeq := r.seqNo;
      pending, pendingOrder := pending[r.seqNo := Pending(r, None, freed)], pendingOrder + [r.seqNo];
    }

    method HandleRequest(r: Request, answer: ReserveAnswer)
      modifies this
      ensures View() == CanonicalAdmission.HandleRequest(old(View()), r, answer)
    {
      hide CanonicalAdmission.TryGrant;
      if r.seqNo in pending {
        if !SameRequest(pending[r.seqNo].request, r) {
          SendInvalid(r.seqNo, r.threadId);
        } else if pending[r.seqNo].grant.Some? {
          sent := sent + [Granted(pending[r.seqNo].grant.value)];
        }
      } else if r.seqNo <= lastRequestSeq || |pending| + |awaitingRelease| >= MAX_REQUESTS {
        SendInvalid(r.seqNo, r.threadId);
      } else {
        Await(r);
        TryGrant(r.seqNo, answer);
      }
    }

    method TakeCustody(id: string, prefix: seq<Batch>)
      modifies this`queue
      ensures
        var s := old(View());
        View() == s.(queue := s.queue.(leases := s.queue.leases - {id}, stream := s.queue.stream + prefix))
    {
      queue := queue.(leases := queue.leases - {id}, stream := queue.stream + prefix);
    }

    method Publish(prefix: seq<Batch>)
      modifies this`published
      ensures View() == old(View()).(published := old(published) + prefix)
    {
      if prefix == [] {
        assert published + prefix == published;
        return;
      }
      published := published + prefix;
    }

    /** The port took custody of a prefix: resolve, then publish exactly that. */
    method Accept(k: nat, id: string, prefix: seq<Batch>, accepted: nat, refused: nat)
      requires k in pending
      modifies this
      ensures View() == CanonicalAdmission.Finish(Custody(old(View()), id, prefix), k, Accepted, accepted, refused, false)
    {
      TakeCustody(id, prefix);
      FinishThenPublish(View(), k, accepted, refused, prefix);
      Finish(k, Accepted, accepted, refused, false);
      Publish(prefix);
    }

    method Deliver(m: Message, result: AdmitResult)
      requires m.Delivery? && m.seqNo in pending && (result.AcceptedAdmission? ==> result.accepted <= |m.events|)
      modifies this
      ensures View() == CanonicalAdmission.Deliver(old(View()), m, result)
    {
      hide CanonicalAdmission.Finish;
      match result {
        case InvalidReservation => Finish(m.seqNo, Retry, 0, 0, true);
        case RefusedAdmission(n, consumed) =>
          if consumed {
            TakeCustody(m.reservationId, []);
            assert published + [] == published;
          }
          Finish(m.seqNo, Refused, 0, n, true);
        case AcceptedAdmission(accepted, refused) =>
          Accept(m.seqNo, m.reservationId, AsBatch(m.threadId, m.events[..accepted]), accepted, refused);
      }
    }

    method HandleDelivery(m: Message, answer: AdmitAnswer)
      requires m.Delivery?
      modifies this
      ensures View() == CanonicalAdmission.HandleDelivery(old(View()), m, answer)
    {
      if || m.seqNo !in pending || pending[m.seqNo].grant.None? || pending[m.seqNo].request.threadId != m.threadId
         || pending[m.seqNo].grant.value.reservationId != m.reservationId {
        SendInvalid(m.seqNo, m.threadId);
        return;
      }
      var result := HonestAdmit(queue, m.threadId, m.reservationId, m.events, answer.result);
      admitted := admitted + [m.seqNo];
      if answer.health {
        OnCapacityChange();
      }
      Deliver(m, result);
    }

    method HandleResolved(m: Message)
      requires SeqOf(m) in resolved
      modifies this`sent
      ensures View() == CanonicalAdmission.HandleResolved(old(View()), m)
    {
      var done := resolved[SeqOf(m)];
      if || done.request.threadId != ThreadOf(m)
         || (m.RequestMsg? && !SameRequest(done.request, m.request))
         || (m.Delivery? && done.reservationId != Some(m.reservationId)) {
        SendInvalid(SeqOf(m), ThreadOf(m));
      } else {
        sent := sent + [VerdictOf(SeqOf(m), done)];
      }
    }

    method Handle(from: string, m: Message, reserve: ReserveAnswer, admit: AdmitAnswer)
      modifies this
      ensures View() == CanonicalAdmission.Handle(old(View()), from, m, reserve, admit)
    {
      if generation != Some(from) {
        return;
      }
      if m.Release? {
        HandleRelease(m);
      } else if SeqOf(m) in resolved {
        HandleResolved(m);
      } else {
        match m {
          case Cancel(_, _) => HandleCancel(m);
          case RequestMsg(r) => HandleRequest(r, reserve);
          case Delivery(_, _, _, _) => HandleDelivery(m, admit);
        }
      }
    }

    method ReleaseUnowned(id: string)
      requires generation.None?
      modifies this`queue, this`freed, this`wake
      ensures queue == old(queue).(leases := old(queue).leases - {id}) && freed == old(freed) && wake == old(wake)
    {
      ghost var before := View();
      ReleaseReservation(id);
      assert View().queue == ReleaseLease(before, id).queue;
      assert id !in old(queue).leases ==> old(queue).leases - {id} == old(queue).leases;
    }

    /** Releases what the given grants name, in any order, with no owner left to notify. */
    method ReleaseAll(grants: map<nat, Grant>)
      requires generation.None?
      modifies this`queue, this`freed, this`wake
      ensures
        var s := old(View());
        View() == s.(queue := s.queue.(leases := s.queue.leases - Ids(grants)))
    {
      var keys := grants.Keys;
      ghost var released := {};
      while keys != {}
        invariant keys <= grants.Keys && freed == old(freed) && wake == old(wake)
        invariant queue == old(queue).(leases := old(queue).leases - released)
        invariant released <= Ids(grants) && forall k :: k in grants && k !in keys ==> grants[k].reservationId in released
      {
        var k :| k in keys;
        keys := keys - {k};
        ReleaseUnowned(grants[k].reservationId);
        released := released + {grants[k].reservationId};
      }
      assert released == Ids(grants);
    }

    method ReleaseEverything()
      requires generation.None?
      modifies this`queue, this`freed, this`wake
      ensures
        var s := old(View());
        View() == s.(queue := s.queue.(leases := s.queue.leases - NamedIds(s)))
    {
      ReleaseAll(PendingGrants(pending));
      ReleaseAll(awaitingRelease);
      assert queue.leases == old(queue).leases - NamedIds(old(View()));
    }

    method ForgetRequests()
      modifies this`pending, this`pendingOrder, this`awaitingRelease
      ensures View() == old(View()).(pending := map[], pendingOrder := [], awaiting := map[])
    {
      pending, pendingOrder, awaitingRelease := map[], [], map[];
    }

    method ForgetVerdicts()
      modifies this`resolved, this`resolvedOrder, this`lastRequestSeq
      ensures View() == old(View()).(cache := EMPTY_CACHE, lastSeq := 0)
    {
      resolved, resolvedOrder := map[], [];
      lastRequestSeq := 0;
    }

    /** A new history starts. */
    ghost method StartOver()
      modifies this`verdicts, this`admitted, this`since
      ensures View() == old(View()).(verdicts := map[], admitted := [], since := |old(sent)|)
    {
      verdicts, admitted, since := map[], [], |sent|;
    }

    /** No owner, and nothing to wake for. */
    method LoseOwner()
      modifies this`generation, this`wake
      ensures View() == old(View()).(generation := None, wake := false)
    {
      generation, wake := None, false;
    }

    /** The owner's transport is positively gone. */
    method RetireOwner()
      modifies this
      ensures View() == Retire(old(View()))
    {
      LoseOwner();
      ReleaseEverything();
      ForgetRequests();
      ForgetVerdicts();
      StartOver();
    }

    /** Observer teardown; grants stay with whoever still answers for them. */
    method Dispose()
      modifies this`observing, this`wake
      ensures View() == DisposeObserver(old(View()))
    {
      observing, wake := false, false;
    }
  }

  lemma FinishThenPublish(s: State, k: nat, accepted: nat, refused: nat, prefix: seq<Batch>)
    requires k in s.pending
    ensures CanonicalAdmission.Finish(s.(published := s.published + prefix), k, Accepted, accepted, refused, false)
         == (var s' := CanonicalAdmission.Finish(s, k, Accepted, accepted, refused, false);
             s'.(published := s'.published + prefix))
  {
  }
}
