/**
 * The native activity projection: thread status events are coalesced in a pending map,
 * flushed to main in bounded batches over a FIFO channel, and cleared on a supervisor
 * reset. Flushing is split at its `emit`, so an observation may re-enter it.
 */
module ThreadActivity {
  import opened Wrappers
  import opened MainShell

  datatype Status = Inactive | Launching | WorkingStatus | Idle | FinishedStatus | NeedsApproval | NeedsReply | ErrorStatus

  datatype SupervisorEvent = ThreadState(threadId: string, status: Status) | ThreadExited(threadId: string) | OtherEvent

  /** The statuses the projection reports as active. */
  predicate ReportsActive(status: Status) {
    status == WorkingStatus || status == Launching
  }

  /** The statuses a reset turns inactive: the turn is not over, even when it waits for the user. */
  predicate TurnActive(status: Status) {
    status in {Launching, WorkingStatus, NeedsApproval, NeedsReply}
  }

  function ChangeOf(e: SupervisorEvent): Option<Change> {
    match e
    case ThreadState(t, status) => Some(Change(t, ReportsActive(status)))
    case ThreadExited(t) => Some(Change(t, false))
    case OtherEvent => None
  }

  // --- the projection -------------------------------------------------------

  /** `order` is the pending map's insertion order, `cap` the most changes one message may carry. */
  datatype Projection = Projection(pending: map<string, bool>, order: seq<string>, scheduled: bool, disposed: bool, cap: nat)

  function Record(p: Projection, t: string, active: bool): Projection {
    if t in p.pending && p.pending[t] == active then p
    else p.(pending := p.pending[t := active], order := if t in p.pending then p.order else p.order + [t], scheduled := true)
  }

  function Observe(p: Projection, e: SupervisorEvent): Projection {
    if p.disposed || ChangeOf(e).None? then p else Record(p, ChangeOf(e).value.threadId, ChangeOf(e).value.active)
  }

  /** The flush loop pushes a change before it compares with the cap, so it always takes one. */
  function Limit(cap: nat): nat {
    if cap == 0 then 1 else cap
  }

  function BatchSize(p: Projection): nat {
    if |p.order| <= Limit(p.cap) then |p.order| else Limit(p.cap)
  }

  function Batch(pending: map<string, bool>, order: seq<string>): seq<Change> {
    if order == [] then []
    else (if order[0] in pending then [Change(order[0], pending[order[0]])] else []) + Batch(pending, order[1..])
  }

  predicate CanFlush(p: Projection) {
    !p.disposed && p.order != []
  }

  /** The entries a flush takes out before it emits them. */
  function Taken(p: Projection): seq<Change> {
    Batch(p.pending, p.order[..BatchSize(p)])
  }

  function Dropped(p: Projection, n: nat): Projection
    requires n <= |p.order|
  {
    p.(pending := p.pending - (set t | t in p.order[..n]), order := p.order[n..], scheduled := false)
  }

  function Remaining(p: Projection): Projection {
    Dropped(p, BatchSize(p))
  }

  /** After `emit` returned: what a capped batch left, or a re-entrant observation added, gets a flush. */
  function Settle(p: Projection): Projection {
    if p.order != [] && !p.scheduled then p.(scheduled := true) else p
  }

  function Dispose(p: Projection): Projection {
    p.(pending := map[], order := [], scheduled := false, disposed := true)
  }

  // --- the system around it -------------------------------------------------

  datatype Message = ActivityBatch(changes: seq<Change>) | ResetMessage

  /**
   * `inHand` is a batch taken out and not yet emitted, `emitting` holds from the taking to
   * the end of the flush. `stored` are the thread rows, `observed` each thread's last
   * observed status.
   */
  datatype Sys = Sys(projection: Projection, inHand: seq<Change>, emitting: bool, channel: seq<Message>, main: Main,
                     stored: map<string, Status>, observed: map<string, Status>)

  function StatusOf(e: SupervisorEvent): Option<(string, Status)> {
    match e
    case ThreadState(t, status) => Some((t, status))
    case ThreadExited(t) => Some((t, Inactive))
    case OtherEvent => None
  }

  function ObserveIn(s: Sys, e: SupervisorEvent): Sys {
    s.(projection := Observe(s.projection, e),
       observed := if StatusOf(e).Some? then s.observed[StatusOf(e).value.0 := StatusOf(e).value.1] else s.observed)
  }

  function StartFlush(s: Sys): Sys {
    if s.emitting || !CanFlush(s.projection) then s
    else s.(projection := Remaining(s.projection), inHand := Taken(s.projection), emitting := true)
  }

  /** The timer clears its own handle before it flushes. */
  function TimerFires(s: Sys): Sys {
    if s.emitting || !s.projection.scheduled then s else StartFlush(s.(projection := s.projection.(scheduled := false)))
  }

  function EmitBatch(s: Sys): Sys {
    if s.inHand == [] then s else s.(channel := s.channel + [ActivityBatch(s.inHand)], inHand := [])
  }

  function EndFlush(s: Sys): Sys {
    if !s.emitting || s.inHand != [] then s else s.(projection := Settle(s.projection), emitting := false)
  }

  /** Every stored row still inside a turn is marked inactive and observed as such. */
  function InactivateAll(p: Projection, stored: map<string, Status>, rows: seq<string>): Projection
    decreases |rows|
  {
    if rows == [] then p
    else InactivateAll(if rows[0] in stored && TurnActive(stored[rows[0]]) then Observe(p, ThreadState(rows[0], Inactive)) else p,
                       stored, rows[1..])
  }

  /** A supervisor reset: the inactive events go through the projection, the reset straight to main. `rows` lists the threads. */
  function Reset(s: Sys, rows: seq<string>): Sys {
    s.(projection := InactivateAll(s.projection, s.stored, rows),
       stored := map t | t in s.stored :: if TurnActive(s.stored[t]) then Inactive else s.stored[t],
       observed := map t | t in s.observed :: if t in rows && t in s.stored && TurnActive(s.stored[t]) then Inactive else s.observed[t],
       channel := s.channel + [ResetMessage])
  }

  function Deliver(s: Sys, file: Settings): Sys {
    if s.channel == [] then s
    else
      s.(channel := s.channel[1..],
         main := match s.channel[0]
                 case ActivityBatch(changes) => ApplyActivity(s.main, changes, file)
                 case ResetMessage => ResetActivity(s.main, file))
  }

  datatype Event =
    | DoObserve(event: SupervisorEvent)
    | DoStore(threadId: string, status: Status)
    | DoDelete(threadId: string)
    | DoFlush
    | DoTimer
    | DoEmit
    | DoEndFlush
    | DoDeliver(file: Settings)
    | DoReset(rows: seq<string>)

  function Next(s: Sys, e: Event): Sys {
    match e
    case DoObserve(event) => ObserveIn(s, event)
    case DoStore(t, status) => s.(stored := s.stored[t := status])
    case DoDelete(t) => s.(stored := s.stored - {t})
    case DoFlush => StartFlush(s)
    case DoTimer => TimerFires(s)
    case DoEmit => EmitBatch(s)
    case DoEndFlush => EndFlush(s)
    case DoDeliver(file) => Deliver(s, file)
    case DoReset(rows) => Reset(s, rows)
  }

  function Run(s: Sys, es: seq<Event>): Sys
    decreases |es|
  {
    if es == [] then s else Run(Next(s, es[0]), es[1..])
  }

  function Fresh(cap: nat): Sys {
    Sys(Projection(map[], [], false, false, cap), [], false, [], FRESH_MAIN, map[], map[])
  }
}
