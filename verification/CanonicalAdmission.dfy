/**
 * Canonical admission control: reservations over a bounded queue, granted,
 * delivered, resolved and released under messages that may be duplicated,
 * reordered or mismatched in any way.
 *
 * The persistence port is an environment answer. An answer that breaks the port's
 * own contract (a reservation id used before, an acceptance without a matching
 * lease) is read as the nearest answer that keeps it, so quantifying over answers
 * quantifies over every behaviour of an honest port.
 */
module CanonicalAdmission {
  import opened Orders
  import opened Wrappers

  const MAX_REQUESTS := 256

  datatype Cost = Cost(eventCount: nat, eventBytes: nat, maxEventBytes: nat)

  datatype Request = Request(seqNo: nat, threadId: string, cost: Cost)

  datatype Grant = Grant(seqNo: nat, threadId: string, reservationId: string)

  /** `asked`: how often capacity had been freed when this request last asked for a reservation. */
  datatype Pending = Pending(request: Request, grant: Option<Grant>, asked: nat)

  datatype Outcome = Accepted | Refused | Retry | Invalid | Cancelled

  datatype Resolved = Resolved(request: Request, outcome: Outcome, accepted: nat, refused: nat, reservationId: Option<string>)

  datatype Control =
    | Enable(generation: string)
    | Granted(grant: Grant)
    | Verdict(seqNo: nat, threadId: string, outcome: Outcome, accepted: nat, refused: nat)

  datatype Message =
    | RequestMsg(request: Request)
    | Delivery(seqNo: nat, threadId: string, reservationId: string, events: seq<string>)
    | Release(seqNo: nat, threadId: string, reservationId: string)
    | Cancel(seqNo: nat, threadId: string)

  /** A thread's runtime events, accepted or published together. */
  datatype Batch = Batch(threadId: string, events: seq<string>)

  /** The persistence queue: live leases, every id ever issued, and the batches it took custody of. */
  datatype Queue = Queue(leases: map<string, string>, used: set<string>, stream: seq<Batch>)

  datatype ReserveResult = Reserved(id: string) | Blocked | Impossible
  /** `health`: a health notification reached the observer inside the call. */
  datatype ReserveAnswer = ReserveAnswer(result: ReserveResult, health: bool)
  datatype AdmitResult = InvalidReservation | RefusedAdmission(refused: nat, consumed: bool) | AcceptedAdmission(accepted: nat, refused: nat)
  datatype AdmitAnswer = AdmitAnswer(result: AdmitResult, health: bool)

  /** The replay cache, oldest verdict first. */
  datatype Cache = Cache(entries: map<nat, Resolved>, order: seq<nat>)

  /**
   * `verdicts` and `admitted` are the history since the last retirement: every verdict
   * recorded and every sequence number handed to the port; `since` is where that
   * history starts in `sent`. `freed` counts the capacity notifications an owner took
   * in; `observing` is false once the observer was torn down.
   */
  datatype State = State(
    generation: Option<string>, lastSeq: nat,
    pending: map<nat, Pending>, pendingOrder: seq<nat>,
    cache: Cache, awaiting: map<nat, Grant>, wake: bool, observing: bool, freed: nat,
    queue: Queue, sent: seq<Control>, published: seq<Batch>,
    verdicts: map<nat, Resolved>, admitted: seq<nat>, since: nat)

  const EMPTY_CACHE := Cache(map[], [])
  const FRESH := State(None, 0, map[], [], EMPTY_CACHE, map[], false, true, 0, Queue(map[], {}, []), [], [], map[], [], 0)

  // --- small helpers --------------------------------------------------------

  predicate SameRequest(a: Request, b: Request) {
    a.threadId == b.threadId && a.cost == b.cost
  }

  function VerdictOf(k: nat, r: Resolved): Control {
    Verdict(k, r.request.threadId, r.outcome, r.accepted, r.refused)
  }

  function Say(s: State, c: Control): State {
    s.(sent := s.sent + [c])
  }

  function SayInvalid(s: State, seqNo: nat, threadId: string): State {
    Say(s, Verdict(seqNo, threadId, Invalid, 0, 0))
  }

  // --- resolution -----------------------------------------------------------

  /** Drops the oldest cached verdicts until the cache fits. */
  function Evict(c: Cache): Cache
    decreases |c.order|
  {
    if |c.entries| <= MAX_REQUESTS || c.order == [] then c
    else Evict(Cache(c.entries - {c.order[0]}, c.order[1..]))
  }

  function ResolvedAs(e: Pending, outcome: Outcome, accepted: nat, refused: nat): Resolved {
    Resolved(e.request, outcome, accepted, refused, if e.grant.Some? then Some(e.grant.value.reservationId) else None)
  }

  /** Moves a pending request to the resolved ones; `retain` keeps its grant charged until the sender releases it. */
  function Finish(s: State, k: nat, outcome: Outcome, accepted: nat, refused: nat, retain: bool): State
    requires k in s.pending
  {
    var e := s.pending[k];
    var r := ResolvedAs(e, outcome, accepted, refused);
    s.(pending := s.pending - {k}, pendingOrder := Without(s.pendingOrder, k),
       awaiting := if retain && e.grant.Some? then s.awaiting[k := e.grant.value] else s.awaiting,
       cache := Evict(Cache(s.cache.entries[k := r], s.cache.order + [k])),
       verdicts := s.verdicts[k := r], sent := s.sent + [VerdictOf(k, r)])
  }

  // --- capacity notifications -----------------------------------------------

  /** A committed, discarded, released, reset or health notification, past the reset handling. */
  function Wake(s: State): State {
    if s.generation.None? || !s.observing then s
    else s.(freed := s.freed + 1, wake := s.wake || |s.pending| > 0)
  }

  function HealthNoise(s: State, health: bool): State {
    if health then Wake(s) else s
  }

  function FinishGranted(s: State, order: seq<nat>): State
    decreases |order|
  {
    if order == [] then s
    else if order[0] in s.pending && s.pending[order[0]].grant.Some?
    then FinishGranted(Finish(s, order[0], Retry, 0, 0, false), order[1..])
    else FinishGranted(s, order[1..])
  }

  /** The queue forgot every lease: granted requests go back to their senders, retained grants lapse. */
  function Reset(s: State): State {
    var s1 := s.(queue := s.queue.(leases := map[]));
    if s.generation.None? || !s.observing then s1
    else Wake(FinishGranted(s1, s1.pendingOrder).(awaiting := map[]))
  }

  /** An authoritative rebase discarded one thread's buffered events and leases. */
  function Discard(s: State, threadId: string): State {
    Wake(s.(queue := s.queue.(leases := map id | id in s.queue.leases && s.queue.leases[id] != threadId :: s.queue.leases[id])))
  }

  function ReleaseLease(s: State, id: string): State {
    if id in s.queue.leases then Wake(s.(queue := s.queue.(leases := s.queue.leases - {id}))) else s
  }

  // --- asking for a reservation ---------------------------------------------

  function HonestReserve(q: Queue, r: ReserveResult): ReserveResult {
    if r.Reserved? && r.id in q.used then Blocked else r
  }

  function TryGrant(s: State, k: nat, answer: ReserveAnswer): State
    requires k in s.pending
  {
    var request := s.pending[k].request;
    var s1 := HealthNoise(s.(pending := s.pending[k := s.pending[k].(asked := s.freed)]), answer.health);
    match HonestReserve(s.queue, answer.result)
    case Blocked => s1
    case Impossible => Finish(s1, k, Invalid, 0, 0, false)
    case Reserved(id) =>
      var g := Grant(k, request.threadId, id);
      Say(s1.(pending := s1.pending[k := s1.pending[k].(grant := Some(g))],
              queue := s1.queue.(leases := s1.queue.leases[id := request.threadId], used := s1.queue.used + {id})),
          Granted(g))
  }

  function PumpFrom(s: State, order: seq<nat>, answers: nat -> ReserveAnswer): State
    decreases |order|
  {
    if order == [] then s
    else if order[0] in s.pending && s.pending[order[0]].grant.None?
    then PumpFrom(TryGrant(s, order[0], answers(order[0])), order[1..], answers)
    else PumpFrom(s, order[1..], answers)
  }

  // --- messages -------------------------------------------------------------

  function HonestAdmit(q: Queue, threadId: string, id: string, events: seq<string>, r: AdmitResult): AdmitResult {
    if r.InvalidReservation? then r
    else if id !in q.leases || q.leases[id] != threadId then InvalidReservation
    else if r.AcceptedAdmission? && r.accepted > |events| then InvalidReservation
    else r
  }

  /** An accepted prefix as the batch it is published in; nothing is published of an empty one. */
  function AsBatch(threadId: string, events: seq<string>): seq<Batch> {
    if events == [] then [] else [Batch(threadId, events)]
  }

  /** The grant a release may name: the request's own while pending, else the retained one. */
  function HeldGrant(s: State, k: nat): Option<Grant> {
    if k in s.pending && s.pending[k].grant.Some? then s.pending[k].grant
    else if k in s.awaiting then Some(s.awaiting[k]) else None
  }

  /** The lease goes back to the queue and the retained grant, if that is what held it, lapses. */
  function Released(s: State, k: nat, id: string): State {
    var s1 := ReleaseLease(s, id);
    s1.(awaiting := s1.awaiting - {k})
  }

  function HandleRelease(s: State, m: Message): State
    requires m.Release?
  {
    var grant := HeldGrant(s, m.seqNo);
    if grant.None? || grant.value.threadId != m.threadId || grant.value.reservationId != m.reservationId then s
    else if m.seqNo in s.pending then Finish(Released(s, m.seqNo, m.reservationId), m.seqNo, Cancelled, 0, 0, false)
    else Released(s, m.seqNo, m.reservationId)
  }

  function SeqOf(m: Message): nat {
    if m.RequestMsg? then m.request.seqNo else m.seqNo
  }

  function ThreadOf(m: Message): string {
    if m.RequestMsg? then m.request.threadId else m.threadId
  }

  /** A message for an already resolved request: the cached verdict, or `invalid` when it does not match. */
  function HandleResolved(s: State, m: Message): State
    requires SeqOf(m) in s.cache.entries
  {
    var done := s.cache.entries[SeqOf(m)];
    if || done.request.threadId != ThreadOf(m)
       || (m.RequestMsg? && !SameRequest(done.request, m.request))
       || (m.Delivery? && done.reservationId != Some(m.reservationId))
    then SayInvalid(s, SeqOf(m), ThreadOf(m))
    else Say(s, VerdictOf(SeqOf(m), done))
  }

  function HandleRequest(s: State, r: Request, answer: ReserveAnswer): State {
    if r.seqNo in s.pending then
      if !SameRequest(s.pending[r.seqNo].request, r) then SayInvalid(s, r.seqNo, r.threadId)
      else if s.pending[r.seqNo].grant.Some? then Say(s, Granted(s.pending[r.seqNo].grant.value))
      else s
    else if r.seqNo <= s.lastSeq || |s.pending| + |s.awaiting| >= MAX_REQUESTS then SayInvalid(s, r.seqNo, r.threadId)
    else TryGrant(s.(lastSeq := r.seqNo, pending := s.pending[r.seqNo := Pending(r, None, s.freed)],
                     pendingOrder := s.pendingOrder + [r.seqNo]), r.seqNo, answer)
  }

  function HandleCancel(s: State, m: Message): State
    requires m.Cancel?
  {
    if m.seqNo in s.pending && s.pending[m.seqNo].request.threadId == m.threadId then
      var s1 := if s.pending[m.seqNo].grant.Some? then ReleaseLease(s, s.pending[m.seqNo].grant.value.reservationId) else s;
      Finish(s1, m.seqNo, Cancelled, 0, 0, false)
    else SayInvalid(s, m.seqNo, m.threadId)
  }

  /** The lease is consumed, the queue takes the accepted prefix, and that prefix is published. */
  function Custody(s: State, id: string, prefix: seq<Batch>): State {
    s.(queue := s.queue.(leases := s.queue.leases - {id}, stream := s.queue.stream + prefix), published := s.published + prefix)
  }

  /** What the port's answer to a matching delivery does to its lease, its stream and the published events. */
  function Taken(s: State, m: Message, result: AdmitResult): State
    requires m.Delivery? && (result.AcceptedAdmission? ==> result.accepted <= |m.events|)
  {
    match result
    case InvalidReservation => s
    case RefusedAdmission(_, consumed) => if consumed then Custody(s, m.reservationId, []) else s
    case AcceptedAdmission(n, _) => Custody(s, m.reservationId, AsBatch(m.threadId, m.events[..n]))
  }

  function OutcomeOf(result: AdmitResult): Outcome {
    match result
    case InvalidReservation => Retry
    case RefusedAdmission(_, _) => Refused
    case AcceptedAdmission(_, _) => Accepted
  }

  function AcceptedCount(result: AdmitResult): nat {
    if result.AcceptedAdmission? then result.accepted else 0
  }

  function RefusedCount(result: AdmitResult): nat {
    match result
    case InvalidReservation => 0
    case RefusedAdmission(n, _) => n
    case AcceptedAdmission(_, n) => n
  }

  /** A delivery resolves its request; anything but an acceptance keeps the grant charged. */
  function Deliver(s: State, m: Message, result: AdmitResult): State
    requires m.Delivery? && m.seqNo in s.pending && (result.AcceptedAdmission? ==> result.accepted <= |m.events|)
  {
    Finish(Taken(s, m, result), m.seqNo, OutcomeOf(result), AcceptedCount(result),
           RefusedCount(result), !result.AcceptedAdmission?)
  }

  /** A delivery under the grant of a request still pending, for that request's thread. */
  predicate Matches(s: State, m: Message)
    requires m.Delivery?
  {
    && m.seqNo in s.pending && s.pending[m.seqNo].grant.Some? && s.pending[m.seqNo].request.threadId == m.threadId
    && s.pending[m.seqNo].grant.value.reservationId == m.reservationId
  }

  function HandleDelivery(s: State, m: Message, answer: AdmitAnswer): State
    requires m.Delivery?
  {
    if !Matches(s, m) then SayInvalid(s, m.seqNo, m.threadId)
    else Deliver(HealthNoise(s.(admitted := s.admitted + [m.seqNo]), answer.health), m,
                 HonestAdmit(s.queue, m.threadId, m.reservationId, m.events, answer.result))
  }

  function Handle(s: State, generation: string, m: Message, reserve: ReserveAnswer, admit: AdmitAnswer): State {
    if s.generation != Some(generation) then s
    else if m.Release? then HandleRelease(s, m)
    else if SeqOf(m) in s.cache.entries then HandleResolved(s, m)
    else match m
      case Cancel(_, _) => HandleCancel(s, m)
      case RequestMsg(r) => HandleRequest(s, r, reserve)
      case Delivery(_, _, _, _) => HandleDelivery(s, m, admit)
  }

  // --- ownership ------------------------------------------------------------

  function Negotiate(s: State, peer: Option<string>): State {
    if peer.None? || (s.generation.Some? && s.generation != peer) then s
    else Say(s.(generation := peer), Enable(peer.value))
  }

  function Pump(s: State, answers: nat -> ReserveAnswer): State {
    if s.wake then PumpFrom(s.(wake := false), s.pendingOrder, answers) else s
  }

  function Ids(grants: map<nat, Grant>): set<string> {
    set k | k in grants :: grants[k].reservationId
  }

  function PendingGrants(pending: map<nat, Pending>): map<nat, Grant> {
    map k | k in pending && pending[k].grant.Some? :: pending[k].grant.value
  }

  function NamedIds(s: State): set<string> {
    Ids(PendingGrants(s.pending)) + Ids(s.awaiting)
  }

  /** The owner's transport is positively gone: every lease it holds is released and all bookkeeping starts over. */
  function Retire(s: State): State {
    s.(generation := None, lastSeq := 0, pending := map[], pendingOrder := [], cache := EMPTY_CACHE,
    awaiting := map[], wake := false, verdicts := map[], admitted := [], since := |s.sent|,
    queue := s.queue.(leases := s.queue.leases - NamedIds(s)))
  }

  function DisposeObserver(s: State): State {
    s.(observing := false, wake := false)
  }

  datatype Event =
    | DoNegotiate(peer: Option<string>)
    | DoHandle(generation: string, message: Message, reserve: ReserveAnswer, admit: AdmitAnswer)
    | DoWake(answers: nat -> ReserveAnswer)
    | CapacityFreed
    | ThreadDiscarded(threadId: string)
    | QueueReset
    | DoRetire
    | DoDispose

  function Next(s: State, e: Event): State {
    match e
    case DoNegotiate(peer) => Negotiate(s, peer)
    case DoHandle(g, m, r, a) => Handle(s, g, m, r, a)
    case DoWake(answers) => Pump(s, answers)
    case CapacityFreed => Wake(s)
    case ThreadDiscarded(t) => Discard(s, t)
    case QueueReset => Reset(s)
    case DoRetire => Retire(s)
    case DoDispose => DisposeObserver(s)
  }

  function Run(s: State, es: seq<Event>): State
    decreases |es|
  {
    if es == [] then s else Run(Next(s, es[0]), es[1..])
  }
}
