/** Invariants of canonical admission control over every message sequence. */
module CanonicalAdmissionProof {
  import opened Orders
  import opened Wrappers
  import opened CanonicalAdmission

  // --- the invariant --------------------------------------------------------

  /** Every grant the owner still answers for: granted requests not yet resolved, and retained grants. */
  function Grants(pending: map<nat, Pending>, awaiting: map<nat, Grant>): map<nat, Grant> {
    map k | k in pending.Keys + awaiting.Keys && (k in pending ==> pending[k].grant.Some?)
      :: if k in pending then pending[k].grant.value else awaiting[k]
  }

  predicate Distinct(order: seq<nat>) {
    forall i, j :: 0 <= i < j < |order| ==> order[i] != order[j]
  }

  /** A pending request is listed, keyed by its own number, and its grant repeats number and thread. */
  ghost predicate PendingOk(pending: map<nat, Pending>, order: seq<nat>, lastSeq: nat) {
    && (forall k :: k in order <==> k in pending)
    && (forall k :: k in pending ==> EntryOk(k, pending[k], lastSeq))
  }

  predicate EntryOk(k: nat, e: Pending, lastSeq: nat) {
    && k <= lastSeq && e.request.seqNo == k
    && (e.grant.Some? ==> e.grant.value.seqNo == k && e.grant.value.threadId == e.request.threadId)
  }

  ghost predicate AwaitingOk(awaiting: map<nat, Grant>, lastSeq: nat) {
    forall k :: k in awaiting ==> k <= lastSeq && awaiting[k].seqNo == k
  }

  ghost predicate VerdictsOk(verdicts: map<nat, Resolved>, lastSeq: nat) {
    forall k :: k in verdicts ==> k <= lastSeq && verdicts[k].request.seqNo == k
  }

  /** The cache lists each of its verdicts once, in recording order, and holds at most the maximum. */
  ghost predicate CacheListed(c: Cache) {
    Distinct(c.order) && (forall k :: k in c.order <==> k in c.entries)
  }

  ghost predicate CacheOk(c: Cache, verdicts: map<nat, Resolved>) {
    CacheListed(c) && |c.entries| <= MAX_REQUESTS && (forall k :: k in c.entries ==> k in verdicts && verdicts[k] == c.entries[k])
  }

  ghost predicate Apart(pending: map<nat, Pending>, awaiting: map<nat, Grant>, verdicts: map<nat, Resolved>) {
    forall k :: k in pending ==> k !in awaiting && k !in verdicts
  }

  ghost predicate AdmittedOk(admitted: seq<nat>, pending: map<nat, Pending>, lastSeq: nat) {
    Distinct(admitted) && (forall k :: k in admitted ==> k <= lastSeq && k !in pending)
  }

  predicate OwnsId(grants: map<nat, Grant>, k: nat, id: string) {
    k in grants && grants[k].reservationId == id
  }

  ghost predicate Owned(grants: map<nat, Grant>, id: string) {
    exists k :: OwnsId(grants, k, id)
  }

  /** Every live lease is named by a grant, no two grants name one id, and a live lease is its grant's thread's. */
  ghost predicate LeaseOk(grants: map<nat, Grant>, q: Queue) {
    && (forall id :: id in q.leases ==> id in q.used && Owned(grants, id))
    && (forall k, k' :: k in grants && k' in grants && k != k' ==> grants[k].reservationId != grants[k'].reservationId)
    && (forall k :: k in grants ==> GrantBacked(grants[k], q))
  }

  predicate GrantBacked(g: Grant, q: Queue) {
    g.reservationId in q.used && (g.reservationId in q.leases ==> q.leases[g.reservationId] == g.threadId)
  }

  /** Every verdict sent to this owner, other than a mismatch's `invalid`, is the recorded one. */
  ghost predicate Truthful(sent: seq<Control>, since: nat, verdicts: map<nat, Resolved>) {
    && since <= |sent|
    && (forall i :: since <= i < |sent| ==> Recorded(sent[i], verdicts))
  }

  predicate Recorded(c: Control, verdicts: map<nat, Resolved>) {
    c.Verdict? && c.outcome != Invalid ==> c.seqNo in verdicts && c == VerdictOf(c.seqNo, verdicts[c.seqNo])
  }

  predicate OwnerOk(s: State) {
    s.generation.None? ==>
      && s.pending == map[] && s.awaiting == map[] && s.verdicts == map[] && s.lastSeq == 0 && s.admitted == []
  }

  ghost predicate TablesOk(s: State) {
    && PendingOk(s.pending, s.pendingOrder, s.lastSeq)
    && AwaitingOk(s.awaiting, s.lastSeq)
    && VerdictsOk(s.verdicts, s.lastSeq)
    && CacheOk(s.cache, s.verdicts)
    && Apart(s.pending, s.awaiting, s.verdicts)
    && |s.pending| + |s.awaiting| <= MAX_REQUESTS
  }

  /** Everything but the admission history, which a delivery has open, and the wake, which a pump suspends. */
  ghost predicate Core(s: State) {
    && TablesOk(s)
    && LeaseOk(Grants(s.pending, s.awaiting), s.queue)
    && OwnerOk(s)
    && Truthful(s.sent, s.since, s.verdicts)
    && s.published == s.queue.stream
  }

  predicate Stale(s: State, k: nat) {
    k in s.pending && s.pending[k].grant.None? && s.pending[k].asked < s.freed
  }

  /** A request that asked before capacity was last freed is still to be visited, or a wake is scheduled. */
  ghost predicate WakeCovers(s: State, order: seq<nat>) {
    s.observing ==> forall k :: Stale(s, k) ==> s.wake || k in order
  }

  ghost predicate WakeOk(s: State) {
    (s.wake ==> s.generation.Some? && s.observing) && WakeCovers(s, [])
  }

  ghost predicate Inv(s: State) {
    Core(s) && AdmittedOk(s.admitted, s.pending, s.lastSeq) && WakeOk(s)
  }

  // --- single tables --------------------------------------------------------

  lemma OldestDrops(c: Cache)
    requires CacheListed(c) && c.order != []
    ensures CacheListed(Cache(c.entries - {c.order[0]}, c.order[1..]))
  {
    assert c.order == [c.order[0]] + c.order[1..];
    assert c.order[0] !in c.order[1..];
  }

  lemma NothingListed(c: Cache)
    requires CacheListed(c) && c.order == []
    ensures |c.entries| == 0
  {
    assert c.entries == map[];
  }

  lemma {:induction false} EvictKeeps(c: Cache)
    requires CacheListed(c)
    ensures CacheListed(Evict(c)) && |Evict(c).entries| <= MAX_REQUESTS
    ensures forall k :: k in Evict(c).entries ==> k in c.entries && Evict(c).entries[k] == c.entries[k]
    decreases |c.order|
  {
    if c.order == [] {
      NothingListed(c);
    } else if |c.entries| > MAX_REQUESTS {
      OldestDrops(c);
      EvictKeeps(Cache(c.entries - {c.order[0]}, c.order[1..]));
    }
  }

  lemma DistinctAppends(order: seq<nat>, k: nat)
    requires Distinct(order) && k !in order
    ensures Distinct(order + [k]) && (forall x :: x in order + [k] <==> x in order || x == k)
  {
    forall i, j | 0 <= i < j < |order + [k]| ensures (order + [k])[i] != (order + [k])[j]
    {
      assert (order + [k])[i] == order[i] && order[i] in order;
    }
  }

  lemma CacheRecords(c: Cache, verdicts: map<nat, Resolved>, k: nat, r: Resolved)
    requires CacheOk(c, verdicts) && k !in verdicts
    ensures CacheOk(Evict(Cache(c.entries[k := r], c.order + [k])), verdicts[k := r])
  {
    DistinctAppends(c.order, k);
    EvictKeeps(Cache(c.entries[k := r], c.order + [k]));
  }

  lemma LeaseDropsGrant(grants: map<nat, Grant>, q: Queue, k: nat)
    requires LeaseOk(grants, q) && (k in grants ==> grants[k].reservationId !in q.leases)
    ensures LeaseOk(grants - {k}, q)
  {
    forall id | id in q.leases ensures Owned(grants - {k}, id)
    {
      var x :| OwnsId(grants, x, id);
      assert OwnsId(grants - {k}, x, id);
    }
  }

  lemma LeaseDropsLeases(grants: map<nat, Grant>, q: Queue, leases: map<string, string>, stream: seq<Batch>)
    requires LeaseOk(grants, q)
    requires forall id :: id in leases ==> id in q.leases && leases[id] == q.leases[id]
    ensures LeaseOk(grants, q.(leases := leases, stream := stream))
  {
  }

  lemma LeaseAddsGrant(grants: map<nat, Grant>, q: Queue, k: nat, g: Grant)
    requires LeaseOk(grants, q) && k !in grants && g.reservationId !in q.used
    ensures LeaseOk(grants[k := g], q.(leases := q.leases[g.reservationId := g.threadId], used := q.used + {g.reservationId}))
  {
    var grants' := grants[k := g];
    var q' := q.(leases := q.leases[g.reservationId := g.threadId], used := q.used + {g.reservationId});
    forall id | id in q'.leases ensures Owned(grants', id)
    {
      if id == g.reservationId {
        assert OwnsId(grants', k, id);
      } else {
        var x :| OwnsId(grants, x, id);
        assert OwnsId(grants', x, id);
      }
    }
  }

  /** An owner holds no more requests than its charges allow after one moves from pending to retained. */
  lemma ChargesMove(pending: map<nat, Pending>, awaiting: map<nat, Grant>, k: nat, g: Grant)
    requires k in pending
    ensures |pending - {k}| == |pending| - 1
    ensures |awaiting[k := g]| <= |awaiting| + 1
  {
    assert (pending - {k}).Keys == pending.Keys - {k};
    assert awaiting[k := g].Keys == awaiting.Keys + {k};
  }

  // --- one resolution -------------------------------------------------------

  lemma PendingLosesOne(pending: map<nat, Pending>, order: seq<nat>, lastSeq: nat, k: nat)
    requires PendingOk(pending, order, lastSeq)
    ensures PendingOk(pending - {k}, Without(order, k), lastSeq)
  {
    WithoutMembers(order, k);
  }

  function Retained(s: State, k: nat, retain: bool): map<nat, Grant>
    requires k in s.pending
  {
    if retain && s.pending[k].grant.Some? then s.awaiting[k := s.pending[k].grant.value] else s.awaiting
  }

  lemma RecordsKeepApart(s: State, k: nat, r: Resolved, retain: bool)
    requires k in s.pending && EntryOk(k, s.pending[k], s.lastSeq) && r.request == s.pending[k].request
    requires AwaitingOk(s.awaiting, s.lastSeq) && VerdictsOk(s.verdicts, s.lastSeq) && Apart(s.pending, s.awaiting, s.verdicts)
    ensures AwaitingOk(Retained(s, k, retain), s.lastSeq) && VerdictsOk(s.verdicts[k := r], s.lastSeq)
    ensures Apart(s.pending - {k}, Retained(s, k, retain), s.verdicts[k := r])
  {
  }

  lemma FinishKeepsTables(s: State, k: nat, outcome: Outcome, accepted: nat, refused: nat, retain: bool)
    requires TablesOk(s) && k in s.pending
    ensures TablesOk(Finish(s, k, outcome, accepted, refused, retain))
  {
    var e := s.pending[k];
    assert EntryOk(k, e, s.lastSeq);
    CacheRecords(s.cache, s.verdicts, k, ResolvedAs(e, outcome, accepted, refused));
    PendingLosesOne(s.pending, s.pendingOrder, s.lastSeq, k);
    ChargesMove(s.pending, s.awaiting, k, if e.grant.Some? then e.grant.value else Grant(k, "", ""));
    RecordsKeepApart(s, k, ResolvedAs(e, outcome, accepted, refused), retain);
  }

  lemma FinishKeepsGrants(s: State, k: nat, retain: bool)
    requires k in s.pending && k !in s.awaiting
    ensures
      var grants := Grants(s.pending, s.awaiting);
      var awaiting := if retain && s.pending[k].grant.Some? then s.awaiting[k := s.pending[k].grant.value] else s.awaiting;
      Grants(s.pending - {k}, awaiting) == if retain then grants else grants - {k}
  {
  }

  lemma TruthfulFinish(sent: seq<Control>, since: nat, verdicts: map<nat, Resolved>, k: nat, r: Resolved)
    requires Truthful(sent, since, verdicts) && k !in verdicts
    ensures Truthful(sent + [VerdictOf(k, r)], since, verdicts[k := r])
  {
  }

  /** A resolution may let go of a grant only when its lease is no longer live, or keeps it as retained. */
  lemma FinishKeepsCore(s: State, k: nat, outcome: Outcome, accepted: nat, refused: nat, retain: bool)
    requires Core(s) && k in s.pending
    requires retain || s.pending[k].grant.None? || s.pending[k].grant.value.reservationId !in s.queue.leases
    ensures Core(Finish(s, k, outcome, accepted, refused, retain))
  {
    FinishKeepsTables(s, k, outcome, accepted, refused, retain);
    FinishKeepsGrants(s, k, retain);
    LeaseDropsGrantIf(Grants(s.pending, s.awaiting), s.queue, k, retain);
    TruthfulFinish(s.sent, s.since, s.verdicts, k, ResolvedAs(s.pending[k], outcome, accepted, refused));
  }

  lemma LeaseDropsGrantIf(grants: map<nat, Grant>, q: Queue, k: nat, retain: bool)
    requires LeaseOk(grants, q) && (retain || (k in grants ==> grants[k].reservationId !in q.leases))
    ensures LeaseOk(if retain then grants else grants - {k}, q)
  {
    if !retain {
      LeaseDropsGrant(grants, q, k);
    }
  }

  /** A resolution neither hides a stale request nor reopens an admitted number; `open` is the number being delivered. */
  lemma FinishKeepsRest(s: State, k: nat, outcome: Outcome, accepted: nat, refused: nat, retain: bool, order: seq<nat>)
    requires k in s.pending && WakeCovers(s, order)
    ensures WakeCovers(Finish(s, k, outcome, accepted, refused, retain), order)
  {
    var s' := Finish(s, k, outcome, accepted, refused, retain);
    assert forall x :: Stale(s', x) ==> Stale(s, x);
  }

  lemma FinishKeepsInv(s: State, k: nat, outcome: Outcome, accepted: nat, refused: nat, retain: bool)
    requires Inv(s) && k in s.pending
    requires retain || s.pending[k].grant.None? || s.pending[k].grant.value.reservationId !in s.queue.leases
    ensures Inv(Finish(s, k, outcome, accepted, refused, retain))
  {
    FinishKeepsCore(s, k, outcome, accepted, refused, retain);
    FinishKeepsRest(s, k, outcome, accepted, refused, retain, []);
  }

  // --- capacity notifications -----------------------------------------------

  /** A notification schedules a wake for every request still without a grant. */
  lemma WakeKeepsCore(s: State)
    requires Core(s)
    ensures Core(Wake(s)) && WakeCovers(Wake(s), [])
    ensures s.wake ==> Wake(s).wake
    ensures (s.wake ==> s.generation.Some? && s.observing) ==> (Wake(s).wake ==> s.generation.Some? && s.observing)
  {
  }

  /** A lease may leave the queue at any time: its grant stays named until the sender or a resolution lets go of it. */
  lemma LosingLeasesKeepsCore(s: State, leases: map<string, string>)
    requires Core(s) && (forall id :: id in leases ==> id in s.queue.leases && leases[id] == s.queue.leases[id])
    ensures Core(s.(queue := s.queue.(leases := leases)))
  {
    LeaseDropsLeases(Grants(s.pending, s.awaiting), s.queue, leases, s.queue.stream);
  }

  lemma ReleaseKeepsInv(s: State, id: string)
    requires Inv(s)
    ensures Inv(ReleaseLease(s, id)) && id !in ReleaseLease(s, id).queue.leases
    ensures ReleaseLease(s, id).pending == s.pending && ReleaseLease(s, id).awaiting == s.awaiting
  {
    if id in s.queue.leases {
      LosingLeasesKeepsCore(s, s.queue.leases - {id});
      WakeKeepsCore(s.(queue := s.queue.(leases := s.queue.leases - {id})));
    }
  }

  lemma DiscardKeepsInv(s: State, threadId: string)
    requires Inv(s)
    ensures Inv(Discard(s, threadId))
  {
    var leases := map id | id in s.queue.leases && s.queue.leases[id] != threadId :: s.queue.leases[id];
    LosingLeasesKeepsCore(s, leases);
    WakeKeepsCore(s.(queue := s.queue.(leases := leases)));
  }

  lemma {:induction false} FinishGrantedKeepsInv(s: State, order: seq<nat>)
    requires Inv(s) && s.queue.leases == map[]
    ensures Inv(FinishGranted(s, order)) && FinishGranted(s, order).queue == s.queue
    ensures FinishGranted(s, order).generation == s.generation && FinishGranted(s, order).observing == s.observing
    decreases |order|
  {
    if order != [] {
      if order[0] in s.pending && s.pending[order[0]].grant.Some? {
        FinishKeepsInv(s, order[0], Retry, 0, 0, false);
        FinishGrantedKeepsInv(Finish(s, order[0], Retry, 0, 0, false), order[1..]);
      } else {
        FinishGrantedKeepsInv(s, order[1..]);
      }
    }
  }

  lemma ForgettingRetainedKeepsCore(s: State)
    requires Core(s) && s.queue.leases == map[]
    ensures Core(s.(awaiting := map[]))
  {
    var grants, grants' := Grants(s.pending, s.awaiting), Grants(s.pending, map[]);
    assert forall k :: k in grants' ==> k in grants && grants'[k] == grants[k];
    assert LeaseOk(grants', s.queue);
  }

  lemma ResetKeepsInv(s: State)
    requires Inv(s)
    ensures Inv(Reset(s))
  {
    LosingLeasesKeepsCore(s, map[]);
    var s1 := s.(queue := s.queue.(leases := map[]));
    if s.generation.Some? && s.observing {
      FinishGrantedKeepsInv(s1, s1.pendingOrder);
      var s2 := FinishGranted(s1, s1.pendingOrder);
      ForgettingRetainedKeepsCore(s2);
      WakeKeepsCore(s2.(awaiting := map[]));
    }
  }

  // --- asking for a reservation ---------------------------------------------

  /** A request entry may change its grant and its last asking, not its identity. */
  lemma EntryChangeKeepsTables(s: State, k: nat, e: Pending)
    requires TablesOk(s) && k in s.pending && EntryOk(k, e, s.lastSeq)
    ensures TablesOk(s.(pending := s.pending[k := e]))
  {
    assert s.pending[k := e].Keys == s.pending.Keys;
  }

  lemma GrantsAfterAsking(pending: map<nat, Pending>, awaiting: map<nat, Grant>, k: nat, asked: nat)
    requires k in pending
    ensures Grants(pending[k := pending[k].(asked := asked)], awaiting) == Grants(pending, awaiting)
  {
  }

  lemma GrantsAfterGranting(pending: map<nat, Pending>, awaiting: map<nat, Grant>, k: nat, g: Grant)
    requires k in pending && pending[k].grant.None?
    ensures Grants(pending[k := pending[k].(grant := Some(g))], awaiting) == Grants(pending, awaiting)[k := g]
    ensures k !in Grants(pending, awaiting)
  {
  }

  lemma TruthfulNote(sent: seq<Control>, since: nat, verdicts: map<nat, Resolved>, c: Control)
    requires Truthful(sent, since, verdicts) && Recorded(c, verdicts)
    ensures Truthful(sent + [c], since, verdicts)
  {
  }

  function Asked(s: State, k: nat): State
    requires k in s.pending
  {
    s.(pending := s.pending[k := s.pending[k].(asked := s.freed)])
  }

  function Given(s: State, k: nat, id: string): State
    requires k in s.pending
  {
    var g := Grant(k, s.pending[k].request.threadId, id);
    Say(s.(pending := s.pending[k := s.pending[k].(grant := Some(g))],
           queue := s.queue.(leases := s.queue.leases[id := g.threadId], used := s.queue.used + {id})), Granted(g))
  }

  lemma AskingKeepsCore(s: State, k: nat)
    requires Core(s) && k in s.pending
    ensures Core(Asked(s, k))
  {
    assert EntryOk(k, s.pending[k], s.lastSeq);
    EntryChangeKeepsTables(s, k, s.pending[k].(asked := s.freed));
    GrantsAfterAsking(s.pending, s.awaiting, k, s.freed);
  }

  lemma GrantingKeepsCore(s: State, k: nat, id: string)
    requires Core(s) && k in s.pending && s.pending[k].grant.None? && id !in s.queue.used
    ensures Core(Given(s, k, id))
  {
    var g := Grant(k, s.pending[k].request.threadId, id);
    assert EntryOk(k, s.pending[k], s.lastSeq);
    EntryChangeKeepsTables(s, k, s.pending[k].(grant := Some(g)));
    GrantsAfterGranting(s.pending, s.awaiting, k, g);
    LeaseAddsGrant(Grants(s.pending, s.awaiting), s.queue, k, g);
    TruthfulNote(s.sent, s.since, s.verdicts, Granted(g));
  }

  /** What a pump keeps while `rest` is still to be visited. */
  ghost predicate Visiting(s: State, rest: seq<nat>) {
    && Core(s) && AdmittedOk(s.admitted, s.pending, s.lastSeq)
    && (s.wake ==> s.generation.Some? && s.observing) && WakeCovers(s, rest)
  }

  lemma AskedCovers(s: State, k: nat, rest: seq<nat>)
    requires WakeCovers(s, [k] + rest) && k in s.pending
    ensures WakeCovers(Asked(s, k), rest)
  {
    assert forall x :: Stale(Asked(s, k), x) ==> Stale(s, x) && x != k;
  }

  lemma AdmittedSameKeys(admitted: seq<nat>, pending: map<nat, Pending>, lastSeq: nat, k: nat, e: Pending)
    requires AdmittedOk(admitted, pending, lastSeq) && k in pending
    ensures AdmittedOk(admitted, pending[k := e], lastSeq)
  {
  }

  lemma NoiseVisits(s: State, health: bool, rest: seq<nat>)
    requires Visiting(s, rest)
    ensures Visiting(HealthNoise(s, health), rest)
  {
    if health {
      WakeKeepsCore(s);
    }
  }

  lemma AskingVisits(s: State, k: nat, rest: seq<nat>)
    requires Visiting(s, [k] + rest) && k in s.pending
    ensures Visiting(Asked(s, k), rest)
  {
    AskingKeepsCore(s, k);
    AskedCovers(s, k, rest);
    AdmittedSameKeys(s.admitted, s.pending, s.lastSeq, k, s.pending[k].(asked := s.freed));
  }

  lemma FewerStale(s: State, s': State, rest: seq<nat>)
    requires WakeCovers(s, rest) && s'.freed == s.freed && s'.observing == s.observing && s'.wake == s.wake
    requires forall x :: x in s'.pending && s'.pending[x].grant.None? ==> x in s.pending && s.pending[x] == s'.pending[x]
    ensures WakeCovers(s', rest)
  {
    assert forall x :: Stale(s', x) ==> Stale(s, x);
  }

  /** A grant moves no request in or out, and leaves the others as they were. */
  lemma GivenFrame(s: State, k: nat, id: string)
    requires k in s.pending && s.pending[k].grant.None?
    ensures
      var s' := Given(s, k, id);
      && s'.freed == s.freed && s'.observing == s.observing && s'.wake == s.wake && s'.generation == s.generation
      && s'.admitted == s.admitted && s'.lastSeq == s.lastSeq
      && k in s'.pending && s'.pending == s.pending[k := s'.pending[k]] && s'.pending[k].grant.Some?
  {
  }

  lemma GivingVisits(s: State, k: nat, id: string, rest: seq<nat>)
    requires Visiting(s, rest) && k in s.pending && s.pending[k].grant.None? && id !in s.queue.used
    ensures Visiting(Given(s, k, id), rest)
  {
    hide Core, Given, AdmittedOk, WakeCovers;
    GivenFrame(s, k, id);
    GrantingKeepsCore(s, k, id);
    FewerStale(s, Given(s, k, id), rest);
    AdmittedSameKeys(s.admitted, s.pending, s.lastSeq, k, Given(s, k, id).pending[k]);
  }

  lemma FinishVisits(s: State, k: nat, outcome: Outcome, rest: seq<nat>)
    requires Visiting(s, rest) && k in s.pending && s.pending[k].grant.None?
    ensures Visiting(Finish(s, k, outcome, 0, 0, false), rest)
  {
    FinishKeepsCore(s, k, outcome, 0, 0, false);
    FinishKeepsRest(s, k, outcome, 0, 0, false, rest);
  }

  lemma TryGrantShape(s: State, k: nat, answer: ReserveAnswer)
    requires k in s.pending
    ensures
      var s1 := HealthNoise(Asked(s, k), answer.health);
      && s1.queue == s.queue && s1.pending == Asked(s, k).pending
      && TryGrant(s, k, answer) == (match HonestReserve(s.queue, answer.result)
                                    case Blocked => s1
                                    case Impossible => Finish(s1, k, Invalid, 0, 0, false)
                                    case Reserved(id) => Given(s1, k, id))
  {
  }

  lemma TryGrantVisits(s: State, k: nat, answer: ReserveAnswer, rest: seq<nat>)
    requires Visiting(s, [k] + rest) && k in s.pending && s.pending[k].grant.None?
    ensures Visiting(TryGrant(s, k, answer), rest)
  {
    TryGrantShape(s, k, answer);
    AskingVisits(s, k, rest);
    NoiseVisits(Asked(s, k), answer.health, rest);
    var s1 := HealthNoise(Asked(s, k), answer.health);
    match HonestReserve(s.queue, answer.result)
    case Blocked =>
    case Impossible => FinishVisits(s1, k, Invalid, rest);
    case Reserved(id) => GivingVisits(s1, k, id, rest);
  }

  lemma {:induction false} PumpVisits(s: State, order: seq<nat>, answers: nat -> ReserveAnswer)
    requires Visiting(s, order)
    ensures Inv(PumpFrom(s, order, answers))
    decreases |order|
  {
    if order != [] {
      assert order == [order[0]] + order[1..];
      if order[0] in s.pending && s.pending[order[0]].grant.None? {
        TryGrantVisits(s, order[0], answers(order[0]), order[1..]);
        PumpVisits(TryGrant(s, order[0], answers(order[0])), order[1..], answers);
      } else {
        assert forall k :: Stale(s, k) ==> k != order[0];
        PumpVisits(s, order[1..], answers);
      }
    }
  }

  lemma PumpKeepsInv(s: State, answers: nat -> ReserveAnswer)
    requires Inv(s)
    ensures Inv(Pump(s, answers))
  {
    if s.wake {
      var s1 := s.(wake := false);
      assert forall k :: Stale(s1, k) ==> k in s1.pendingOrder;
      PumpVisits(s1, s1.pendingOrder, answers);
    }
  }

  // --- messages -------------------------------------------------------------

  lemma NoteKeepsInv(s: State, c: Control)
    requires Inv(s) && Recorded(c, s.verdicts)
    ensures Inv(Say(s, c))
  {
    TruthfulNote(s.sent, s.since, s.verdicts, c);
    FewerStale(s, Say(s, c), []);
  }

  lemma AnswersAreRecorded(s: State, r: Request)
    ensures Recorded(Verdict(r.seqNo, r.threadId, Invalid, 0, 0), s.verdicts)
    ensures forall g: Grant :: Recorded(Granted(g), s.verdicts)
  {
  }

  /** The last request visited: the pump's invariant is the owner's again. */
  lemma NothingLeftToVisit(s: State)
    requires Visiting(s, [])
    ensures Inv(s)
  {
  }

  lemma RequestKeepsInv(s: State, r: Request, answer: ReserveAnswer)
    requires Inv(s) && s.generation.Some?
    ensures Inv(HandleRequest(s, r, answer))
  {
    hide Inv, TryGrant, Visiting, Recorded;
    AnswersAreRecorded(s, r);
    if r.seqNo in s.pending || r.seqNo <= s.lastSeq || |s.pending| + |s.awaiting| >= MAX_REQUESTS {
      NoteKeepsInv(s, Verdict(r.seqNo, r.threadId, Invalid, 0, 0));
      if r.seqNo in s.pending && s.pending[r.seqNo].grant.Some? {
        NoteKeepsInv(s, Granted(s.pending[r.seqNo].grant.value));
      }
    } else {
      AcceptingKeepsInv(s, r);
      TryGrantVisits(Waiting(s, r), r.seqNo, answer, []);
      NothingLeftToVisit(TryGrant(Waiting(s, r), r.seqNo, answer));
    }
  }

  lemma PendingGains(pending: map<nat, Pending>, order: seq<nat>, lastSeq: nat, e: Pending)
    requires PendingOk(pending, order, lastSeq) && e.request.seqNo > lastSeq && e.grant.None?
    ensures PendingOk(pending[e.request.seqNo := e], order + [e.request.seqNo], e.request.seqNo)
    ensures |pending[e.request.seqNo := e]| <= |pending| + 1
  {
    var k := e.request.seqNo;
    assert pending[k := e].Keys == pending.Keys + {k};
    assert forall x :: x in pending ==> EntryOk(x, pending[x], lastSeq);
  }

  lemma LaterSeqKeeps(awaiting: map<nat, Grant>, verdicts: map<nat, Resolved>, lastSeq: nat, k: nat)
    requires AwaitingOk(awaiting, lastSeq) && VerdictsOk(verdicts, lastSeq) && k > lastSeq
    ensures AwaitingOk(awaiting, k) && VerdictsOk(verdicts, k) && k !in awaiting && k !in verdicts
  {
  }

  function Waiting(s: State, r: Request): State {
    s.(lastSeq := r.seqNo, pending := s.pending[r.seqNo := Pending(r, None, s.freed)], pendingOrder := s.pendingOrder + [r.seqNo])
  }

  lemma AcceptingKeepsTables(s: State, r: Request)
    requires TablesOk(s) && r.seqNo > s.lastSeq && |s.pending| + |s.awaiting| < MAX_REQUESTS
    ensures TablesOk(Waiting(s, r))
  {
    PendingGains(s.pending, s.pendingOrder, s.lastSeq, Pending(r, None, s.freed));
    LaterSeqKeeps(s.awaiting, s.verdicts, s.lastSeq, r.seqNo);
  }

  lemma GrantsAfterAccepting(pending: map<nat, Pending>, awaiting: map<nat, Grant>, k: nat, e: Pending)
    requires k !in pending && k !in awaiting && e.grant.None?
    ensures Grants(pending[k := e], awaiting) == Grants(pending, awaiting)
  {
  }

  lemma AdmittedGrows(admitted: seq<nat>, pending: map<nat, Pending>, lastSeq: nat, k: nat, e: Pending)
    requires AdmittedOk(admitted, pending, lastSeq) && k > lastSeq
    ensures AdmittedOk(admitted, pending[k := e], k)
  {
  }

  lemma AcceptedCovers(s: State, r: Request)
    requires WakeCovers(s, [])
    ensures WakeCovers(Waiting(s, r), [r.seqNo] + [])
  {
    assert forall k :: Stale(Waiting(s, r), k) ==> Stale(s, k);
  }

  lemma AcceptingKeepsInv(s: State, r: Request)
    requires Inv(s) && s.generation.Some? && r.seqNo > s.lastSeq && |s.pending| + |s.awaiting| < MAX_REQUESTS
    ensures Visiting(Waiting(s, r), [r.seqNo] + [])
  {
    AcceptingKeepsTables(s, r);
    GrantsAfterAccepting(s.pending, s.awaiting, r.seqNo, Pending(r, None, s.freed));
    AdmittedGrows(s.admitted, s.pending, s.lastSeq, r.seqNo, Pending(r, None, s.freed));
    AcceptedCovers(s, r);
  }

  lemma GrantsAfterDropping(pending: map<nat, Pending>, awaiting: map<nat, Grant>, k: nat)
    requires k !in pending
    ensures Grants(pending, awaiting - {k}) == Grants(pending, awaiting) - {k}
  {
  }

  lemma DroppingRetainedKeepsTables(s: State, k: nat)
    requires TablesOk(s)
    ensures TablesOk(s.(awaiting := s.awaiting - {k}))
  {
    assert (s.awaiting - {k}).Keys == s.awaiting.Keys - {k};
    assert |s.awaiting - {k}| <= |s.awaiting|;
  }

  lemma DroppingRetainedKeepsInv(s: State, k: nat)
    requires Inv(s) && k in s.awaiting && s.awaiting[k].reservationId !in s.queue.leases
    ensures Inv(s.(awaiting := s.awaiting - {k}))
  {
    assert k !in s.pending;
    GrantsAfterDropping(s.pending, s.awaiting, k);
    LeaseDropsGrant(Grants(s.pending, s.awaiting), s.queue, k);
    DroppingRetainedKeepsTables(s, k);
    FewerStale(s, s.(awaiting := s.awaiting - {k}), []);
  }

  /** A pending request has no retained grant: releasing its lease drops nothing else. */
  lemma ReleasedOfPending(s: State, k: nat, id: string)
    requires k !in s.awaiting
    ensures Released(s, k, id) == ReleaseLease(s, id)
  {
    var s1 := ReleaseLease(s, id);
    assert s1.awaiting - {k} == s.awaiting;
    assert s1.(awaiting := s1.awaiting - {k}) == s1;
  }

  lemma PendingIsNotRetained(s: State, k: nat)
    requires Inv(s) && k in s.pending
    ensures k !in s.awaiting
  {
  }

  lemma ReleaseOfPendingKeepsInv(s: State, m: Message)
    requires Inv(s) && m.Release? && m.seqNo in s.pending && s.pending[m.seqNo].grant.Some?
    ensures Inv(HandleRelease(s, m))
  {
    hide Inv, Finish, ReleaseLease, Released;
    PendingIsNotRetained(s, m.seqNo);
    ReleasedOfPending(s, m.seqNo, m.reservationId);
    if s.pending[m.seqNo].grant.value.reservationId == m.reservationId {
      ReleaseKeepsInv(s, m.reservationId);
      FinishKeepsInv(Released(s, m.seqNo, m.reservationId), m.seqNo, Cancelled, 0, 0, false);
    }
  }

  lemma HandleReleaseKeepsInv(s: State, m: Message)
    requires Inv(s) && m.Release?
    ensures Inv(HandleRelease(s, m))
  {
    if m.seqNo in s.pending && s.pending[m.seqNo].grant.Some? {
      ReleaseOfPendingKeepsInv(s, m);
    } else if m.seqNo in s.awaiting && s.awaiting[m.seqNo].reservationId == m.reservationId {
      assert m.seqNo !in s.pending;
      ReleaseKeepsInv(s, m.reservationId);
      DroppingRetainedKeepsInv(ReleaseLease(s, m.reservationId), m.seqNo);
    }
  }

  lemma HandleCancelKeepsInv(s: State, m: Message)
    requires Inv(s) && m.Cancel?
    ensures Inv(HandleCancel(s, m))
  {
    if m.seqNo in s.pending && s.pending[m.seqNo].request.threadId == m.threadId {
      if s.pending[m.seqNo].grant.Some? {
        var id := s.pending[m.seqNo].grant.value.reservationId;
        ReleaseKeepsInv(s, id);
        FinishKeepsInv(ReleaseLease(s, id), m.seqNo, Cancelled, 0, 0, false);
      } else {
        FinishKeepsInv(s, m.seqNo, Cancelled, 0, 0, false);
      }
    } else {
      NoteKeepsInv(s, Verdict(m.seqNo, m.threadId, Invalid, 0, 0));
    }
  }

  lemma HandleResolvedKeepsInv(s: State, m: Message)
    requires Inv(s) && SeqOf(m) in s.cache.entries
    ensures Inv(HandleResolved(s, m))
  {
    NoteKeepsInv(s, Verdict(SeqOf(m), ThreadOf(m), Invalid, 0, 0));
    NoteKeepsInv(s, VerdictOf(SeqOf(m), s.cache.entries[SeqOf(m)]));
  }

  /** The one moment a number is both pending and already handed to the port. */
  ghost predicate Delivering(s: State, k: nat) {
    && Core(s) && WakeOk(s) && k in s.pending && Distinct(s.admitted)
    && (forall x :: x in s.admitted ==> x <= s.lastSeq && (x in s.pending ==> x == k))
  }

  lemma DeliveringStarts(s: State, k: nat, health: bool)
    requires Inv(s) && k in s.pending
    ensures Delivering(HealthNoise(s.(admitted := s.admitted + [k]), health), k)
    ensures HealthNoise(s.(admitted := s.admitted + [k]), health).pending == s.pending
    ensures HealthNoise(s.(admitted := s.admitted + [k]), health).queue == s.queue
  {
    assert k !in s.admitted && EntryOk(k, s.pending[k], s.lastSeq);
    DistinctAppends(s.admitted, k);
    FewerStale(s, s.(admitted := s.admitted + [k]), []);
    WakeKeepsCore(s.(admitted := s.admitted + [k]));
  }

  lemma DeliveringEnds(s: State, k: nat, outcome: Outcome, accepted: nat, refused: nat, retain: bool)
    requires Delivering(s, k)
    requires retain || s.pending[k].grant.None? || s.pending[k].grant.value.reservationId !in s.queue.leases
    ensures Inv(Finish(s, k, outcome, accepted, refused, retain))
  {
    FinishKeepsCore(s, k, outcome, accepted, refused, retain);
    FinishKeepsRest(s, k, outcome, accepted, refused, retain, []);
  }

  /** Custody passes from the lease to the stream, and the accepted prefix is what gets published. */
  lemma CustodyMoves(s: State, k: nat, id: string, prefix: seq<Batch>)
    requires Delivering(s, k)
    ensures Delivering(Custody(s, id, prefix), k)
  {
    LeaseDropsLeases(Grants(s.pending, s.awaiting), s.queue, s.queue.leases - {id}, s.queue.stream + prefix);
    FewerStale(s, Custody(s, id, prefix), []);
  }

  lemma TakenKeepsDelivering(s: State, m: Message, result: AdmitResult)
    requires m.Delivery? && Delivering(s, m.seqNo) && (result.AcceptedAdmission? ==> result.accepted <= |m.events|)
    ensures Delivering(Taken(s, m, result), m.seqNo) && Taken(s, m, result).pending == s.pending
    ensures result.AcceptedAdmission? ==> m.reservationId !in Taken(s, m, result).queue.leases
  {
    match result
    case InvalidReservation =>
    case RefusedAdmission(_, _) => CustodyMoves(s, m.seqNo, m.reservationId, []);
    case AcceptedAdmission(n, _) => CustodyMoves(s, m.seqNo, m.reservationId, AsBatch(m.threadId, m.events[..n]));
  }

  lemma DeliverKeepsInv(s: State, m: Message, result: AdmitResult)
    requires m.Delivery? && Delivering(s, m.seqNo) && (result.AcceptedAdmission? ==> result.accepted <= |m.events|)
    requires s.pending[m.seqNo].grant.Some? && s.pending[m.seqNo].grant.value.reservationId == m.reservationId
    ensures Inv(Deliver(s, m, result))
  {
    TakenKeepsDelivering(s, m, result);
    DeliveringEnds(Taken(s, m, result), m.seqNo, OutcomeOf(result), AcceptedCount(result),
                   RefusedCount(result), !result.AcceptedAdmission?);
  }

  lemma HandleDeliveryKeepsInv(s: State, m: Message, answer: AdmitAnswer)
    requires Inv(s) && m.Delivery?
    ensures Inv(HandleDelivery(s, m, answer))
  {
    var k := m.seqNo;
    if !Matches(s, m) {
      NoteKeepsInv(s, Verdict(k, m.threadId, Invalid, 0, 0));
    } else {
      DeliveringStarts(s, k, answer.health);
      DeliverKeepsInv(HealthNoise(s.(admitted := s.admitted + [k]), answer.health), m,
                      HonestAdmit(s.queue, m.threadId, m.reservationId, m.events, answer.result));
    }
  }

  lemma HandleKeepsInv(s: State, generation: string, m: Message, reserve: ReserveAnswer, admit: AdmitAnswer)
    requires Inv(s)
    ensures Inv(Handle(s, generation, m, reserve, admit))
  {
    if s.generation == Some(generation) {
      if m.Release? {
        HandleReleaseKeepsInv(s, m);
      } else if SeqOf(m) in s.cache.entries {
        HandleResolvedKeepsInv(s, m);
      } else {
        match m
        case Cancel(_, _) => HandleCancelKeepsInv(s, m);
        case RequestMsg(r) => RequestKeepsInv(s, r, reserve);
        case Delivery(_, _, _, _) => HandleDeliveryKeepsInv(s, m, admit);
      }
    }
  }

  // --- ownership ------------------------------------------------------------

  lemma GrantsAreNamed(s: State, id: string)
    requires Owned(Grants(s.pending, s.awaiting), id)
    ensures id in NamedIds(s)
  {
    var k :| OwnsId(Grants(s.pending, s.awaiting), k, id);
    if k in s.pending {
      assert PendingGrants(s.pending)[k].reservationId == id;
    } else {
      assert s.awaiting[k].reservationId == id;
    }
  }

  lemma NamedIdsCoverLeases(s: State)
    requires LeaseOk(Grants(s.pending, s.awaiting), s.queue)
    ensures s.queue.leases - NamedIds(s) == map[]
  {
    forall id | id in s.queue.leases ensures id in NamedIds(s)
    {
      GrantsAreNamed(s, id);
    }
  }

  /** Retirement releases the last lease: none is live afterwards, whatever the owner left behind. */
  lemma RetireFreesAll(s: State)
    requires Inv(s)
    ensures Retire(s).queue.leases == map[] && Inv(Retire(s))
  {
    NamedIdsCoverLeases(s);
    NothingHeldInv(Retire(s));
  }

  lemma NothingHeldInv(s: State)
    requires s.pending == map[] && s.pendingOrder == [] && s.awaiting == map[] && s.verdicts == map[] && s.cache == EMPTY_CACHE
    requires s.admitted == [] && s.lastSeq == 0 && s.queue.leases == map[] && !s.wake
    requires s.since == |s.sent| && s.published == s.queue.stream
    ensures Inv(s)
  {
    assert Grants(map[], map[]) == map[];
  }

  lemma NegotiateKeepsInv(s: State, peer: Option<string>)
    requires Inv(s)
    ensures Inv(Negotiate(s, peer))
  {
    if peer.Some? && (s.generation.None? || s.generation == peer) {
      var s1 := s.(generation := peer);
      FewerStale(s, s1, []);
      NoteKeepsInv(s1, Enable(peer.value));
    }
  }

  lemma NotifyKeepsInv(s: State)
    requires Inv(s)
    ensures Inv(Wake(s))
  {
    WakeKeepsCore(s);
  }

  lemma DisposeKeepsInv(s: State)
    requires Inv(s)
    ensures Inv(DisposeObserver(s))
  {
  }

  lemma NextKeepsInv(s: State, e: Event)
    requires Inv(s)
    ensures Inv(Next(s, e))
  {
    match e
    case DoNegotiate(peer) => NegotiateKeepsInv(s, peer);
    case DoHandle(g, m, r, a) => HandleKeepsInv(s, g, m, r, a);
    case DoWake(answers) => PumpKeepsInv(s, answers);
    case CapacityFreed => NotifyKeepsInv(s);
    case ThreadDiscarded(t) => DiscardKeepsInv(s, t);
    case QueueReset => ResetKeepsInv(s);
    case DoRetire => RetireFreesAll(s);
    case DoDispose => DisposeKeepsInv(s);
  }

  lemma {:induction false} RunKeepsInv(s: State, es: seq<Event>)
    requires Inv(s)
    ensures Inv(Run(s, es))
    decreases |es|
  {
    if es != [] {
      NextKeepsInv(s, es[0]);
      RunKeepsInv(Next(s, es[0]), es[1..]);
    }
  }

  lemma FreshInv()
    ensures Inv(FRESH)
  {
    NothingHeldInv(FRESH);
  }
}
