/** What the invariants of canonical admission give the sender, the queue and the public event stream. */
module CanonicalAdmissionTheorems {
  import opened Wrappers
  import opened CanonicalAdmission
  import opened CanonicalAdmissionProof

  // --- custody of reservations ----------------------------------------------

  predicate PendingHolds(s: State, k: nat, id: string) {
    k in s.pending && s.pending[k].grant.Some? && s.pending[k].grant.value.reservationId == id
  }

  predicate RetainedHolds(s: State, k: nat, id: string) {
    k in s.awaiting && s.awaiting[k].reservationId == id
  }

  /** `k` is the one request answering for `id`, in exactly one of the two tables. */
  ghost predicate SoleHolder(s: State, k: nat, id: string) {
    && (PendingHolds(s, k, id) <==> !RetainedHolds(s, k, id))
    && (forall x :: PendingHolds(s, x, id) || RetainedHolds(s, x, id) ==> x == k)
  }

  /** Under any messages, notifications and port answers, each live reservation has one grant of the current owner. */
  lemma EveryLiveReservationHasOneHolder(es: seq<Event>, id: string)
    requires id in Run(FRESH, es).queue.leases
    ensures Run(FRESH, es).generation.Some? && exists k :: SoleHolder(Run(FRESH, es), k, id)
  {
    FreshInv();
    RunKeepsInv(FRESH, es);
    var s := Run(FRESH, es);
    var grants := Grants(s.pending, s.awaiting);
    var k :| OwnsId(grants, k, id);
    forall x | PendingHolds(s, x, id) || RetainedHolds(s, x, id) ensures x == k
    {
      assert x in grants && grants[x].reservationId == id;
    }
    assert SoleHolder(s, k, id);
  }

  /** However the owner's run went, nothing is live once its transport is retired. */
  lemma RetirementLeavesNothingLive(es: seq<Event>)
    ensures Retire(Run(FRESH, es)).queue.leases == map[]
  {
    FreshInv();
    RunKeepsInv(FRESH, es);
    RetireFreesAll(Run(FRESH, es));
  }

  // --- bounds ---------------------------------------------------------------

  lemma TablesStayBoundedAndApart(es: seq<Event>)
    ensures
      var s := Run(FRESH, es);
      && |s.pending| + |s.awaiting| <= MAX_REQUESTS && |s.cache.entries| <= MAX_REQUESTS
      && s.pending.Keys !! s.awaiting.Keys && s.pending.Keys !! s.cache.entries.Keys
      && forall k :: k in s.pending || k in s.awaiting || k in s.cache.entries ==> k <= s.lastSeq
  {
    FreshInv();
    RunKeepsInv(FRESH, es);
    var s := Run(FRESH, es);
    assert forall k :: k in s.pending ==> EntryOk(k, s.pending[k], s.lastSeq);
  }

  // --- wake-ups -------------------------------------------------------------

  /** While the observer stands, a request without a grant that last asked before capacity was freed has a wake coming. */
  lemma NoLostWake(es: seq<Event>, k: nat)
    requires Stale(Run(FRESH, es), k) && Run(FRESH, es).observing
    ensures Run(FRESH, es).wake
  {
    FreshInv();
    RunKeepsInv(FRESH, es);
  }

  /** The request has a grant, is gone, or asked when at least `freed` capacity notifications had come. */
  predicate AskedSince(s: State, k: nat, freed: nat) {
    s.freed >= freed && (k in s.pending ==> s.pending[k].grant.Some? || s.pending[k].asked >= freed)
  }

  lemma TryGrantAsks(s: State, x: nat, answer: ReserveAnswer, k: nat, freed: nat)
    requires x in s.pending && s.freed >= freed && (x == k || AskedSince(s, k, freed))
    ensures AskedSince(TryGrant(s, x, answer), k, freed)
  {
  }

  lemma TryGrantFrees(s: State, x: nat, answer: ReserveAnswer)
    requires x in s.pending
    ensures TryGrant(s, x, answer).freed >= s.freed
  {
  }

  /** Visiting `order` asks each of its ungranted requests again, later than when `freed` capacity notifications had come. */
  lemma {:induction false} PumpAsksAllAfter(s: State, order: seq<nat>, answers: nat -> ReserveAnswer, k: nat, freed: nat)
    requires s.freed >= freed && (k in order || AskedSince(s, k, freed))
    ensures AskedSince(PumpFrom(s, order, answers), k, freed)
    decreases |order|
  {
    hide TryGrant;
    if order != [] {
      var rest := order[1..];
      assert order == [order[0]] + rest;
      if order[0] in s.pending && s.pending[order[0]].grant.None? {
        TryGrantFrees(s, order[0], answers(order[0]));
        if order[0] == k || AskedSince(s, k, freed) {
          TryGrantAsks(s, order[0], answers(order[0]), k, freed);
        }
        PumpAsksAllAfter(TryGrant(s, order[0], answers(order[0])), rest, answers, k, freed);
      } else {
        PumpAsksAllAfter(s, rest, answers, k, freed);
      }
    }
  }

  lemma AWakeReasksEveryWaitingRequest(es: seq<Event>, answers: nat -> ReserveAnswer, k: nat)
    requires
      var s := Run(FRESH, es);
      s.wake && k in Pump(s, answers).pending && Pump(s, answers).pending[k].grant.None?
    ensures Pump(Run(FRESH, es), answers).pending[k].asked >= Run(FRESH, es).freed
  {
    FreshInv();
    RunKeepsInv(FRESH, es);
    var s := Run(FRESH, es).(wake := false);
    PumpAsksAllAfter(s, s.pendingOrder, answers, k, s.freed);
  }

  // --- verdicts -------------------------------------------------------------

  /** Verdicts are only ever added. */
  ghost predicate Grows(s: State, s': State) {
    forall k :: k in s.verdicts ==> k in s'.verdicts && s'.verdicts[k] == s.verdicts[k]
  }

  /** What every step but a delivery keeps: the owner, the public stream, and the verdicts already recorded. */
  ghost predicate Keeps(s: State, s': State) {
    s'.generation == s.generation && s'.published == s.published && Grows(s, s')
  }

  lemma FinishKeeps(s: State, k: nat, outcome: Outcome, accepted: nat, refused: nat, retain: bool)
    requires k in s.pending && k !in s.verdicts
    ensures Keeps(s, Finish(s, k, outcome, accepted, refused, retain))
  {
  }

  lemma {:induction false} FinishGrantedKeeps(s: State, order: seq<nat>)
    requires Apart(s.pending, s.awaiting, s.verdicts)
    ensures Keeps(s, FinishGranted(s, order))
    decreases |order|
  {
    if order != [] {
      if order[0] in s.pending && s.pending[order[0]].grant.Some? {
        FinishKeeps(s, order[0], Retry, 0, 0, false);
        FinishGrantedKeeps(Finish(s, order[0], Retry, 0, 0, false), order[1..]);
      } else {
        FinishGrantedKeeps(s, order[1..]);
      }
    }
  }

  lemma ResetKeeps(s: State)
    requires Inv(s)
    ensures Keeps(s, Reset(s))
  {
    FinishGrantedKeeps(s.(queue := s.queue.(leases := map[])), s.pendingOrder);
  }

  lemma TryGrantKeeps(s: State, k: nat, answer: ReserveAnswer)
    requires k in s.pending && k !in s.verdicts
    ensures Keeps(s, TryGrant(s, k, answer))
  {
    TryGrantShape(s, k, answer);
    FinishKeeps(HealthNoise(Asked(s, k), answer.health), k, Invalid, 0, 0, false);
  }

  lemma {:induction false} PumpKeeps(s: State, order: seq<nat>, answers: nat -> ReserveAnswer)
    requires Visiting(s, order)
    ensures Keeps(s, PumpFrom(s, order, answers))
    decreases |order|
  {
    if order != [] {
      assert order == [order[0]] + order[1..];
      if order[0] in s.pending && s.pending[order[0]].grant.None? {
        TryGrantVisits(s, order[0], answers(order[0]), order[1..]);
        TryGrantKeeps(s, order[0], answers(order[0]));
        PumpKeeps(TryGrant(s, order[0], answers(order[0])), order[1..], answers);
      } else {
        assert forall k :: Stale(s, k) ==> k != order[0];
        PumpKeeps(s, order[1..], answers);
      }
    }
  }

  lemma WakeKeeps(s: State, answers: nat -> ReserveAnswer)
    requires Inv(s)
    ensures Keeps(s, Pump(s, answers))
  {
    if s.wake {
      var s1 := s.(wake := false);
      assert forall k :: Stale(s1, k) ==> k in s1.pendingOrder;
      PumpKeeps(s1, s1.pendingOrder, answers);
    }
  }

  lemma WakeFrame(s: State)
    ensures
      var s' := Wake(s);
      && s'.pending == s.pending && s'.verdicts == s.verdicts && s'.generation == s.generation && s'.published == s.published
  {
  }

  lemma ReleasedFrame(s: State, k: nat, id: string)
    ensures
      var s' := Released(s, k, id);
      && s'.pending == s.pending && s'.verdicts == s.verdicts && s'.generation == s.generation && s'.published == s.published
  {
    hide Wake;
    WakeFrame(s.(queue := s.queue.(leases := s.queue.leases - {id})));
  }

  lemma ReleaseKeeps(s: State, m: Message)
    requires Apart(s.pending, s.awaiting, s.verdicts) && m.Release?
    ensures Keeps(s, HandleRelease(s, m))
  {
    ReleasedFrame(s, m.seqNo, m.reservationId);
    if m.seqNo in s.pending {
      FinishKeeps(Released(s, m.seqNo, m.reservationId), m.seqNo, Cancelled, 0, 0, false);
    }
  }

  lemma CancelKeeps(s: State, m: Message)
    requires Apart(s.pending, s.awaiting, s.verdicts) && m.Cancel?
    ensures Keeps(s, HandleCancel(s, m))
  {
    if m.seqNo in s.pending && s.pending[m.seqNo].request.threadId == m.threadId {
      var e := s.pending[m.seqNo];
      var s1 := if e.grant.Some? then ReleaseLease(s, e.grant.value.reservationId) else s;
      assert s1.pending == s.pending && s1.verdicts == s.verdicts && Keeps(s, s1);
      FinishKeeps(s1, m.seqNo, Cancelled, 0, 0, false);
    }
  }

  lemma RequestKeeps(s: State, r: Request, answer: ReserveAnswer)
    requires Apart(s.pending, s.awaiting, s.verdicts) && VerdictsOk(s.verdicts, s.lastSeq)
    ensures Keeps(s, HandleRequest(s, r, answer))
  {
    if r.seqNo !in s.pending && r.seqNo > s.lastSeq && |s.pending| + |s.awaiting| < MAX_REQUESTS {
      assert r.seqNo !in s.verdicts;
      TryGrantKeeps(Waiting(s, r), r.seqNo, answer);
    }
  }

  lemma DeliverKeeps(s: State, m: Message, result: AdmitResult)
    requires m.Delivery? && m.seqNo in s.pending && m.seqNo !in s.verdicts
    requires result.AcceptedAdmission? ==> result.accepted <= |m.events|
    ensures Deliver(s, m, result).generation == s.generation && Grows(s, Deliver(s, m, result))
  {
  }

  lemma DeliveryKeeps(s: State, m: Message, answer: AdmitAnswer)
    requires Apart(s.pending, s.awaiting, s.verdicts) && m.Delivery?
    ensures HandleDelivery(s, m, answer).generation == s.generation && Grows(s, HandleDelivery(s, m, answer))
  {
    var s1 := HealthNoise(s.(admitted := s.admitted + [m.seqNo]), answer.health);
    if m.seqNo in s.pending {
      DeliverKeeps(s1, m, HonestAdmit(s.queue, m.threadId, m.reservationId, m.events, answer.result));
    }
  }

  lemma HandleKeeps(s: State, g: string, m: Message, reserve: ReserveAnswer, admit: AdmitAnswer)
    requires Apart(s.pending, s.awaiting, s.verdicts) && VerdictsOk(s.verdicts, s.lastSeq)
    requires !m.Delivery? || SeqOf(m) in s.cache.entries || s.generation != Some(g)
    ensures Keeps(s, Handle(s, g, m, reserve, admit))
  {
    hide HandleRelease, HandleCancel, HandleRequest, HandleDelivery, VerdictsOk, Apart;
    if s.generation == Some(g) {
      if m.Release? {
        ReleaseKeeps(s, m);
      } else if SeqOf(m) !in s.cache.entries {
        if m.Cancel? {
          CancelKeeps(s, m);
        } else {
          RequestKeeps(s, m.request, reserve);
        }
      }
    }
  }

  lemma HandleEventKeeps(s: State, g: string, m: Message, r: ReserveAnswer, a: AdmitAnswer)
    requires Inv(s)
    ensures
      var s' := Handle(s, g, m, r, a);
      Grows(s, s') && s'.generation == s.generation && (!m.Delivery? ==> s'.published == s.published)
  {
    if !m.Delivery? || SeqOf(m) in s.cache.entries || s.generation != Some(g) {
      HandleKeeps(s, g, m, r, a);
    } else {
      DeliveryKeeps(s, m, a);
    }
  }

  lemma OtherEventsKeep(s: State, e: Event)
    requires Inv(s) && !e.DoHandle?
    ensures !e.DoRetire? ==> Grows(s, Next(s, e))
    ensures e.DoNegotiate? || e.DoRetire? || Next(s, e).generation == s.generation
    ensures Next(s, e).published == s.published
  {
    hide Inv, Reset, Pump;
    match e
    case QueueReset => ResetKeeps(s);
    case DoWake(answers) => WakeKeeps(s, answers);
    case _ =>
  }

  lemma NextKeeps(s: State, e: Event)
    requires Inv(s)
    ensures !e.DoRetire? ==> Grows(s, Next(s, e))
    ensures e.DoNegotiate? || e.DoRetire? || Next(s, e).generation == s.generation
    ensures !(e.DoHandle? && e.message.Delivery?) ==> Next(s, e).published == s.published
  {
    hide Inv, Handle;
    if e.DoHandle? {
      HandleEventKeeps(s, e.generation, e.message, e.reserve, e.admit);
    } else {
      OtherEventsKeep(s, e);
    }
  }

  lemma {:induction false} RunGrows(s: State, es: seq<Event>)
    requires Inv(s) && DoRetire !in es
    ensures Grows(s, Run(s, es))
    decreases |es|
  {
    if es != [] {
      assert es[0] in es;
      NextKeeps(s, es[0]);
      NextKeepsInv(s, es[0]);
      RunGrows(Next(s, es[0]), es[1..]);
    }
  }

  /** Until the owner is retired, a recorded verdict never changes. */
  lemma VerdictsAreFinal(before: seq<Event>, after: seq<Event>, k: nat)
    requires k in Run(FRESH, before).verdicts && DoRetire !in after
    ensures
      var s := Run(Run(FRESH, before), after);
      k in s.verdicts && s.verdicts[k] == Run(FRESH, before).verdicts[k]
  {
    FreshInv();
    RunKeepsInv(FRESH, before);
    RunGrows(Run(FRESH, before), after);
  }

  /** A repeated message for a cached request gets the recorded verdict again, whatever the port would have answered. */
  lemma CachedVerdictIsResent(es: seq<Event>, g: string, m: Message, reserve: ReserveAnswer, admit: AdmitAnswer)
    requires
      var s := Run(FRESH, es);
      s.generation == Some(g) && !m.Release? && SeqOf(m) in s.cache.entries
    ensures
      var s, k := Run(FRESH, es), SeqOf(m);
      && k in s.verdicts
      && (var done := s.verdicts[k];
          var matches := && done.request.threadId == ThreadOf(m)
                         && (m.RequestMsg? ==> SameRequest(done.request, m.request))
                         && (m.Delivery? ==> done.reservationId == Some(m.reservationId));
          Handle(s, g, m, reserve, admit) == Say(s, if matches then VerdictOf(k, done) else Verdict(k, ThreadOf(m), Invalid, 0, 0)))
  {
    FreshInv();
    RunKeepsInv(FRESH, es);
  }

  /** No owner is ever told two different outcomes of one request, `invalid` answers to mismatches aside. */
  lemma OneOutcomePerRequest(es: seq<Event>, i: nat, j: nat)
    requires
      var s := Run(FRESH, es);
      && s.since <= i < |s.sent| && s.since <= j < |s.sent|
      && s.sent[i].Verdict? && s.sent[j].Verdict? && s.sent[i].seqNo == s.sent[j].seqNo
      && s.sent[i].outcome != Invalid && s.sent[j].outcome != Invalid
    ensures Run(FRESH, es).sent[i] == Run(FRESH, es).sent[j]
  {
    FreshInv();
    RunKeepsInv(FRESH, es);
    var s := Run(FRESH, es);
    assert Recorded(s.sent[i], s.verdicts) && Recorded(s.sent[j], s.verdicts);
  }

  /** Between two retirements no request is handed to the port's `admit` twice, and none is pending once it was. */
  lemma AdmittedAtMostOnce(es: seq<Event>, i: nat, j: nat)
    requires i < j < |Run(FRESH, es).admitted|
    ensures Run(FRESH, es).admitted[i] != Run(FRESH, es).admitted[j]
    ensures Run(FRESH, es).admitted[i] !in Run(FRESH, es).pending
  {
    FreshInv();
    RunKeepsInv(FRESH, es);
  }

  // --- older generations ----------------------------------------------------

  function WithoutMessagesOf(es: seq<Event>, g: string): seq<Event>
    decreases |es|
  {
    if es == [] then []
    else if es[0].DoHandle? && es[0].generation == g then WithoutMessagesOf(es[1..], g)
    else [es[0]] + WithoutMessagesOf(es[1..], g)
  }

  lemma RunCons(s: State, e: Event, rest: seq<Event>)
    ensures Run(s, [e] + rest) == Run(Next(s, e), rest)
  {
    assert ([e] + rest)[1..] == rest;
  }

  lemma StaysRetired(s: State, e: Event, g: string)
    requires Inv(s) && s.generation != Some(g) && e != DoNegotiate(Some(g))
    ensures Inv(Next(s, e)) && Next(s, e).generation != Some(g)
    ensures e.DoHandle? && e.generation == g ==> Next(s, e) == s
  {
    NextKeeps(s, e);
    NextKeepsInv(s, e);
  }

  lemma {:induction false} RunWithoutRetired(s: State, es: seq<Event>, g: string)
    requires Inv(s) && s.generation != Some(g) && DoNegotiate(Some(g)) !in es
    ensures Run(s, es) == Run(s, WithoutMessagesOf(es, g))
    decreases |es|
  {
    if es != [] {
      assert es[0] in es && DoNegotiate(Some(g)) !in es[1..];
      StaysRetired(s, es[0], g);
      RunWithoutRetired(Next(s, es[0]), es[1..], g);
      RunCons(s, es[0], WithoutMessagesOf(es[1..], g));
    }
  }

  /** A retired generation that never negotiates again may say anything at any time: the run is the same without it. */
  lemma RetiredGenerationChangesNothing(before: seq<Event>, after: seq<Event>, g: string)
    requires Run(FRESH, before).generation != Some(g) && DoNegotiate(Some(g)) !in after
    ensures Run(Run(FRESH, before), after) == Run(Run(FRESH, before), WithoutMessagesOf(after, g))
  {
    FreshInv();
    RunKeepsInv(FRESH, before);
    RunWithoutRetired(Run(FRESH, before), after, g);
  }

  // --- the public stream ----------------------------------------------------

  /** One thread's events in a stream of batches. */
  function Project(stream: seq<Batch>, threadId: string): seq<string> {
    if stream == [] then []
    else (if stream[0].threadId == threadId then stream[0].events else []) + Project(stream[1..], threadId)
  }

  lemma {:induction false} ProjectConcat(a: seq<Batch>, b: seq<Batch>, threadId: string)
    ensures Project(a + b, threadId) == Project(a, threadId) + Project(b, threadId)
  {
    if a == [] {
      assert a + b == b;
    } else {
      assert (a + b)[1..] == a[1..] + b;
      ProjectConcat(a[1..], b, threadId);
    }
  }

  /** The prefix of a delivery's events the port takes, for one thread: nothing unless it matches and is accepted. */
  function AcceptedOf(s: State, m: Message, answer: AdmitAnswer, threadId: string): seq<string>
    requires m.Delivery?
  {
    if !Matches(s, m) || m.threadId != threadId then []
    else
      match HonestAdmit(s.queue, m.threadId, m.reservationId, m.events, answer.result)
      case AcceptedAdmission(n, _) => m.events[..n]
      case _ => []
  }

  function AcceptedBy(s: State, e: Event, threadId: string): seq<string> {
    if e.DoHandle? && s.generation == Some(e.generation) && e.message.Delivery? && e.message.seqNo !in s.cache.entries
    then AcceptedOf(s, e.message, e.admit, threadId)
    else []
  }

  function AcceptedAlong(s: State, es: seq<Event>, threadId: string): seq<string>
    decreases |es|
  {
    if es == [] then [] else AcceptedBy(s, es[0], threadId) + AcceptedAlong(Next(s, es[0]), es[1..], threadId)
  }

  lemma DeliverPublishes(s: State, m: Message, result: AdmitResult)
    requires m.Delivery? && m.seqNo in s.pending && (result.AcceptedAdmission? ==> result.accepted <= |m.events|)
    ensures Deliver(s, m, result).published
         == s.published + if result.AcceptedAdmission? then AsBatch(m.threadId, m.events[..result.accepted]) else []
  {
    assert s.published + [] == s.published;
  }

  /** The batch a delivery gets published. */
  function BatchOf(s: State, m: Message, answer: AdmitAnswer): seq<Batch>
    requires m.Delivery?
  {
    if !Matches(s, m) then []
    else
      match HonestAdmit(s.queue, m.threadId, m.reservationId, m.events, answer.result)
      case AcceptedAdmission(n, _) => AsBatch(m.threadId, m.events[..n])
      case _ => []
  }

  lemma DeliveryPublishesItsBatch(s: State, m: Message, answer: AdmitAnswer)
    requires m.Delivery?
    ensures HandleDelivery(s, m, answer).published == s.published + BatchOf(s, m, answer)
  {
    assert s.published + [] == s.published;
    if Matches(s, m) {
      DeliverPublishes(HealthNoise(s.(admitted := s.admitted + [m.seqNo]), answer.health), m,
                       HonestAdmit(s.queue, m.threadId, m.reservationId, m.events, answer.result));
    }
  }

  lemma BatchProjects(s: State, m: Message, answer: AdmitAnswer, threadId: string)
    requires m.Delivery?
    ensures Project(BatchOf(s, m, answer), threadId) == AcceptedOf(s, m, answer, threadId)
  {
  }

  lemma DeliveryPublishes(s: State, m: Message, answer: AdmitAnswer, threadId: string)
    requires m.Delivery?
    ensures Project(HandleDelivery(s, m, answer).published, threadId)
         == Project(s.published, threadId) + AcceptedOf(s, m, answer, threadId)
  {
    DeliveryPublishesItsBatch(s, m, answer);
    ProjectConcat(s.published, BatchOf(s, m, answer), threadId);
    BatchProjects(s, m, answer, threadId);
  }

  lemma DeliveryEventPublishes(s: State, e: Event, threadId: string)
    requires e.DoHandle? && e.message.Delivery? && s.generation == Some(e.generation) && e.message.seqNo !in s.cache.entries
    ensures Project(Next(s, e).published, threadId) == Project(s.published, threadId) + AcceptedBy(s, e, threadId)
  {
    DeliveryPublishes(s, e.message, e.admit, threadId);
  }

  lemma NextPublishes(s: State, e: Event, threadId: string)
    requires Inv(s)
    ensures Project(Next(s, e).published, threadId) == Project(s.published, threadId) + AcceptedBy(s, e, threadId)
  {
    if e.DoHandle? && e.message.Delivery? && s.generation == Some(e.generation) && e.message.seqNo !in s.cache.entries {
      DeliveryEventPublishes(s, e, threadId);
    } else {
      NextPublishesNothing(s, e);
    }
  }

  lemma NextPublishesNothing(s: State, e: Event)
    requires Inv(s)
    requires e.DoHandle? && e.message.Delivery? ==> s.generation != Some(e.generation) || e.message.seqNo in s.cache.entries
    ensures Next(s, e).published == s.published
  {
    if e.DoHandle? {
      HandleKeeps(s, e.generation, e.message, e.reserve, e.admit);
    } else {
      NextKeeps(s, e);
    }
  }

  lemma Assoc(a: seq<string>, b: seq<string>, c: seq<string>)
    ensures (a + b) + c == a + (b + c)
  {
  }

  lemma {:induction false} RunPublishes(s: State, es: seq<Event>, threadId: string)
    requires Inv(s)
    ensures Project(Run(s, es).published, threadId) == Project(s.published, threadId) + AcceptedAlong(s, es, threadId)
    decreases |es|
  {
    if es != [] {
      NextPublishes(s, es[0], threadId);
      NextKeepsInv(s, es[0]);
      RunPublishes(Next(s, es[0]), es[1..], threadId);
      Assoc(Project(s.published, threadId), AcceptedBy(s, es[0], threadId), AcceptedAlong(Next(s, es[0]), es[1..], threadId));
    }
  }

  /** Per thread, what is published is the concatenation of the accepted prefixes, in the order the port accepted them. */
  lemma PublishedIsWhatWasAccepted(es: seq<Event>, threadId: string)
    ensures Project(Run(FRESH, es).published, threadId) == AcceptedAlong(FRESH, es, threadId)
  {
    FreshInv();
    RunPublishes(FRESH, es, threadId);
  }

  // --- what the sender is told of it ----------------------------------------

  /** What the verdict of a delivery handed to the port reports as accepted for the thread. */
  function ReportedBy(s: State, e: Event, threadId: string): nat {
    if e.DoHandle? && s.generation == Some(e.generation) && e.message.Delivery? && e.message.seqNo !in s.cache.entries
       && Matches(s, e.message) && e.message.threadId == threadId
    then CountOf(Next(s, e).sent, |s.sent|) else 0
  }

  function CountOf(sent: seq<Control>, i: nat): nat {
    if i < |sent| && sent[i].Verdict? then sent[i].accepted else 0
  }

  function ReportedAlong(s: State, es: seq<Event>, threadId: string): nat
    decreases |es|
  {
    if es == [] then 0 else ReportedBy(s, es[0], threadId) + ReportedAlong(Next(s, es[0]), es[1..], threadId)
  }

  lemma TakenSays(s: State, m: Message, result: AdmitResult)
    requires m.Delivery? && (result.AcceptedAdmission? ==> result.accepted <= |m.events|)
    ensures Taken(s, m, result).sent == s.sent && Taken(s, m, result).pending == s.pending
  {
  }

  /** A delivery's verdict repeats the port's own two counts, whether or not they make up the whole delivery. */
  lemma DeliveryIsReported(s: State, m: Message, answer: AdmitAnswer)
    requires m.Delivery? && Matches(s, m)
    ensures
      var result := HonestAdmit(s.queue, m.threadId, m.reservationId, m.events, answer.result);
      HandleDelivery(s, m, answer).sent ==
        s.sent + [Verdict(m.seqNo, m.threadId, OutcomeOf(result), AcceptedCount(result), RefusedCount(result))]
  {
    hide Taken;
    TakenSays(HealthNoise(s.(admitted := s.admitted + [m.seqNo]), answer.health), m,
              HonestAdmit(s.queue, m.threadId, m.reservationId, m.events, answer.result));
  }

  lemma NextReports(s: State, e: Event, threadId: string)
    ensures |AcceptedBy(s, e, threadId)| == ReportedBy(s, e, threadId)
  {
    hide HandleDelivery;
    if e.DoHandle? && e.message.Delivery? && Matches(s, e.message) {
      DeliveryIsReported(s, e.message, e.admit);
    }
  }

  lemma {:induction false} RunReports(s: State, es: seq<Event>, threadId: string)
    ensures |AcceptedAlong(s, es, threadId)| == ReportedAlong(s, es, threadId)
    decreases |es|
  {
    hide Next, AcceptedBy, ReportedBy;
    if es != [] {
      NextReports(s, es[0], threadId);
      RunReports(Next(s, es[0]), es[1..], threadId);
    }
  }

  /** Over a whole run, the events published for a thread number exactly what the verdicts of its deliveries report as accepted. */
  lemma AcceptedCountsArePublished(es: seq<Event>, threadId: string)
    ensures |Project(Run(FRESH, es).published, threadId)| == ReportedAlong(FRESH, es, threadId)
  {
    PublishedIsWhatWasAccepted(es, threadId);
    RunReports(FRESH, es, threadId);
  }
}
