/** Coalescing keeps the meaning of the event stream, and a reset leaves nothing of the old supervisor behind. */
module ThreadActivityTheorems {
  import opened Wrappers
  import opened MainShell
  import opened ThreadActivity

  /** The pending order lists each pending thread once. */
  predicate Listed(p: Projection) {
    && (forall t :: t in p.order ==> t in p.pending) && (forall t :: t in p.pending ==> t in p.order)
    && (forall i, j :: 0 <= i < j < |p.order| ==> p.order[i] != p.order[j])
  }

  // --- batches --------------------------------------------------------------

  /** The set once every pending entry has been applied. */
  function Overlay(working: set<string>, pending: map<string, bool>): set<string> {
    (working - pending.Keys) + (set t | t in pending && pending[t])
  }

  lemma {:induction false} BatchApplies(working: set<string>, pending: map<string, bool>, order: seq<string>)
    requires forall t :: t in order ==> t in pending
    requires forall i, j :: 0 <= i < j < |order| ==> order[i] != order[j]
    ensures forall t :: t in ApplyAll(working, Batch(pending, order))
                   <==> if t in order then pending[t] else t in working
    decreases |order|
  {
    if order != [] {
      assert order == [order[0]] + order[1..];
      assert order[0] !in order[1..];
      var batch := Batch(pending, order);
      assert batch[1..] == Batch(pending, order[1..]);
      BatchApplies(Apply(working, batch[0]), pending, order[1..]);
    }
  }

  lemma {:induction false} BatchLength(pending: map<string, bool>, order: seq<string>)
    requires forall t :: t in order ==> t in pending
    ensures |Batch(pending, order)| == |order|
  {
    if order != [] {
      BatchLength(pending, order[1..]);
    }
  }

  lemma SplitDisjoint(order: seq<string>, n: nat)
    requires n <= |order| && forall i, j :: 0 <= i < j < |order| ==> order[i] != order[j]
    ensures forall t :: t in order[..n] ==> t !in order[n..]
    ensures forall t :: t in order <==> t in order[..n] || t in order[n..]
  {
    forall i, j | 0 <= i < n && 0 <= j < |order| - n ensures order[..n][i] != order[n..][j]
    {
      assert order[n..][j] == order[n + j];
    }
    assert order == order[..n] + order[n..];
  }

  lemma RemainingListed(p: Projection)
    requires Listed(p)
    ensures Listed(Remaining(p))
  {
    SplitDisjoint(p.order, BatchSize(p));
  }

  /** A flush hands out the oldest entries, at least one and at most the cap, and keeps the rest for later. */
  lemma TakingSplits(p: Projection, working: set<string>)
    requires Listed(p) && CanFlush(p)
    ensures 1 <= |Taken(p)| <= Limit(p.cap)
    ensures Overlay(ApplyAll(working, Taken(p)), Remaining(p).pending) == Overlay(working, p.pending)
  {
    var head := p.order[..BatchSize(p)];
    SplitDisjoint(p.order, BatchSize(p));
    BatchLength(p.pending, head);
    BatchApplies(working, p.pending, head);
  }

  lemma RecordApplies(working: set<string>, pending: map<string, bool>, t: string, active: bool)
    ensures Overlay(working, pending[t := active]) == Apply(Overlay(working, pending), Change(t, active))
  {
  }

  lemma RecordListed(p: Projection, t: string, active: bool)
    requires Listed(p)
    ensures Listed(Record(p, t, active))
  {
    if t !in p.pending {
      forall i, j | 0 <= i < j < |p.order + [t]| ensures (p.order + [t])[i] != (p.order + [t])[j]
      {
        assert (p.order + [t])[i] == p.order[i];
      }
    }
  }

  // --- the meaning of a system state ----------------------------------------

  /** The working set main ends up with once everything on its way has arrived. */
  function Arriving(working: set<string>, channel: seq<Message>): set<string>
    decreases |channel|
  {
    if channel == [] then working
    else Arriving(match channel[0]
                  case ActivityBatch(changes) => ApplyAll(working, changes)
                  case ResetMessage => {}, channel[1..])
  }

  function Drained(s: Sys): set<string> {
    Overlay(ApplyAll(Arriving(s.main.working, s.channel), s.inHand), s.projection.pending)
  }

  lemma {:induction false} ArrivingAppends(working: set<string>, channel: seq<Message>, m: Message)
    ensures Arriving(working, channel + [m])
         == match m
            case ActivityBatch(changes) => ApplyAll(Arriving(working, channel), changes)
            case ResetMessage => {}
    decreases |channel|
  {
    if channel == [] {
      assert [m][1..] == [];
    } else {
      assert (channel + [m])[1..] == channel[1..] + [m];
      ArrivingAppends(match channel[0]
                      case ActivityBatch(changes) => ApplyAll(working, changes)
                      case ResetMessage => {}, channel[1..], m);
    }
  }

  /** Batches are never empty nor over the cap, and pending work always has a flush coming. */
  ghost predicate Inv(s: Sys) {
    && Listed(s.projection)
    && (forall i :: 0 <= i < |s.channel| && s.channel[i].ActivityBatch? ==> 1 <= |s.channel[i].changes| <= Limit(s.projection.cap))
    && |s.inHand| <= Limit(s.projection.cap) && (s.inHand != [] ==> s.emitting)
    && (s.projection.order != [] ==> s.projection.scheduled || s.emitting)
    && (s.projection.disposed ==> s.projection.order == [])
  }

  /** Starting a flush moves changes from the pending map to the batch in hand, and nothing gets lost between. */
  lemma StartFlushKeeps(s: Sys)
    requires Inv(s.(projection := s.projection.(scheduled := true))) && !s.emitting
    ensures Inv(StartFlush(s))
    ensures Drained(StartFlush(s)) == Drained(s) && InFlight(StartFlush(s)) == InFlight(s)
  {
    if CanFlush(s.projection) {
      RemainingListed(s.projection);
      TakingSplits(s.projection, Arriving(s.main.working, s.channel));
      TakingSplits(s.projection, {});
    }
  }

  /** What the projection would still send: the batch in hand, then the pending map. */
  function InFlight(s: Sys): set<string> {
    Overlay(ApplyAll({}, s.inHand), s.projection.pending)
  }

  /** What observing an event does to the set main ends up with. */
  function Meant(working: set<string>, e: Event): set<string> {
    if e.DoObserve? && ChangeOf(e.event).Some? then Apply(working, ChangeOf(e.event).value) else working
  }

  lemma ObserveKeeps(s: Sys, e: SupervisorEvent)
    requires Inv(s) && !s.projection.disposed
    ensures Inv(ObserveIn(s, e)) && Drained(ObserveIn(s, e)) == Meant(Drained(s), DoObserve(e))
  {
    if ChangeOf(e).Some? {
      var c := ChangeOf(e).value;
      RecordListed(s.projection, c.threadId, c.active);
      var working := ApplyAll(Arriving(s.main.working, s.channel), s.inHand);
      RecordApplies(working, s.projection.pending, c.threadId, c.active);
      assert s.projection.pending[c.threadId := c.active] == Record(s.projection, c.threadId, c.active).pending;
    }
  }

  lemma DeliverKeeps(s: Sys, file: Settings)
    requires Inv(s)
    ensures Inv(Deliver(s, file)) && Drained(Deliver(s, file)) == Drained(s)
  {
  }

  lemma EmitKeeps(s: Sys)
    requires Inv(s)
    ensures Inv(EmitBatch(s)) && Drained(EmitBatch(s)) == Drained(s)
  {
    ArrivingAppends(s.main.working, s.channel, ActivityBatch(s.inHand));
  }

  predicate ToInactivate(stored: map<string, Status>, rows: seq<string>, t: string) {
    t in rows && t in stored && TurnActive(stored[t])
  }

  /** The projection after the inactive events of a reset: each listed row inside its turn is pending as inactive. */
  ghost predicate Inactivated(p: Projection, p': Projection, stored: map<string, Status>, rows: seq<string>) {
    && Listed(p') && p'.cap == p.cap && !p'.disposed && (p'.order != [] && p'.order != p.order ==> p'.scheduled)
    && (p.scheduled ==> p'.scheduled)
    && (forall t :: t in p'.pending <==> t in p.pending || ToInactivate(stored, rows, t))
    && (forall t :: t in p'.pending ==> p'.pending[t] == (t in p.pending && p.pending[t] && !ToInactivate(stored, rows, t)))
  }

  /** One inactive event. */
  lemma OneInactive(p: Projection, stored: map<string, Status>, t: string)
    requires Listed(p) && !p.disposed && ToInactivate(stored, [t], t)
    ensures Inactivated(p, Observe(p, ThreadState(t, Inactive)), stored, [t])
  {
    RecordListed(p, t, false);
    assert forall x :: ToInactivate(stored, [t], x) <==> x == t;
  }

  lemma NoneInactive(p: Projection, stored: map<string, Status>, t: string)
    requires Listed(p) && !p.disposed && !ToInactivate(stored, [t], t)
    ensures Inactivated(p, p, stored, [t])
  {
    assert forall x :: !ToInactivate(stored, [t], x);
  }

  lemma InactivatedInTurn(p: Projection, p1: Projection, p2: Projection, stored: map<string, Status>, t: string, rest: seq<string>)
    requires Inactivated(p, p1, stored, [t]) && Inactivated(p1, p2, stored, rest)
    ensures Inactivated(p, p2, stored, [t] + rest)
  {
    hide Listed, TurnActive;
    assert forall x :: ToInactivate(stored, [t] + rest, x) <==> ToInactivate(stored, [t], x) || ToInactivate(stored, rest, x);
  }

  lemma {:induction false} InactivateKeeps(p: Projection, stored: map<string, Status>, rows: seq<string>)
    requires Listed(p) && !p.disposed
    ensures Inactivated(p, InactivateAll(p, stored, rows), stored, rows)
    decreases |rows|
  {
    hide Observe, Inactivated, Listed;
    if rows == [] {
      NothingInactivated(p, stored);
    } else {
      var t, rest := rows[0], rows[1..];
      assert rows == [t] + rest;
      var p1 := if t in stored && TurnActive(stored[t]) then Observe(p, ThreadState(t, Inactive)) else p;
      if t in stored && TurnActive(stored[t]) {
        OneInactive(p, stored, t);
      } else {
        NoneInactive(p, stored, t);
      }
      InactivatedIsListed(p, p1, stored, [t]);
      InactivateKeeps(p1, stored, rest);
      InactivatedInTurn(p, p1, InactivateAll(p1, stored, rest), stored, t, rest);
    }
  }

  lemma NothingInactivated(p: Projection, stored: map<string, Status>)
    requires Listed(p) && !p.disposed
    ensures Inactivated(p, p, stored, [])
  {
  }

  lemma InactivatedIsListed(p: Projection, p': Projection, stored: map<string, Status>, rows: seq<string>)
    requires Inactivated(p, p', stored, rows)
    ensures Listed(p') && !p'.disposed && p'.cap == p.cap
  {
  }

  lemma ResetKeeps(s: Sys, rows: seq<string>)
    requires Inv(s) && !s.projection.disposed
    ensures Inv(Reset(s, rows)) && !Reset(s, rows).projection.disposed
  {
    hide InactivateAll, Listed;
    InactivateKeeps(s.projection, s.stored, rows);
  }

  lemma TimerKeeps(s: Sys)
    requires Inv(s)
    ensures Inv(TimerFires(s)) && Drained(TimerFires(s)) == Drained(s) && InFlight(TimerFires(s)) == InFlight(s)
  {
    hide StartFlush;
    if !s.emitting && s.projection.scheduled {
      StartFlushKeeps(s.(projection := s.projection.(scheduled := false)));
    }
  }

  /** Nothing but disposal, which is no event of the system, ends the projection. */
  lemma NextKeepsOpen(s: Sys, e: Event)
    requires !s.projection.disposed && !e.DoReset?
    ensures !Next(s, e).projection.disposed
  {
  }

  lemma NextKeeps(s: Sys, e: Event)
    requires Inv(s) && !s.projection.disposed
    ensures Inv(Next(s, e)) && !Next(s, e).projection.disposed
    ensures !e.DoReset? ==> Drained(Next(s, e)) == Meant(Drained(s), e)
  {
    hide StartFlush, TimerFires, ObserveIn, EmitBatch, EndFlush, Deliver, Reset, Inv;
    if !e.DoReset? {
      NextKeepsOpen(s, e);
    }
    match e
    case DoReset(rows) => ResetKeeps(s, rows);
    case DoObserve(event) => ObserveKeeps(s, event);
    case DoFlush => FlushKeeps(s);
    case DoTimer => TimerKeeps(s);
    case DoEmit => EmitKeeps(s);
    case DoDeliver(file) => DeliverKeeps(s, file);
    case DoEndFlush => EndFlushKeeps(s);
    case _ => StoringKeeps(s, e);
  }

  lemma EndFlushKeeps(s: Sys)
    requires Inv(s)
    ensures Inv(EndFlush(s)) && Drained(EndFlush(s)) == Drained(s)
  {
  }

  lemma StoringKeeps(s: Sys, e: Event)
    requires Inv(s) && (e.DoStore? || e.DoDelete?)
    ensures Inv(Next(s, e)) && Drained(Next(s, e)) == Drained(s)
  {
  }

  lemma FlushKeeps(s: Sys)
    requires Inv(s)
    ensures Inv(StartFlush(s)) && Drained(StartFlush(s)) == Drained(s) && InFlight(StartFlush(s)) == InFlight(s)
  {
    if !s.emitting {
      StartFlushKeeps(s);
    }
  }

  /** Applying every observed event in order, without batches or delays. */
  function MeantAll(working: set<string>, es: seq<Event>): set<string>
    decreases |es|
  {
    if es == [] then working else MeantAll(Meant(working, es[0]), es[1..])
  }

  ghost predicate Live(s: Sys) {
    Inv(s) && !s.projection.disposed
  }

  predicate NoReset(es: seq<Event>) {
    forall i :: 0 <= i < |es| ==> !es[i].DoReset?
  }

  lemma {:induction false} RunKeeps(s: Sys, es: seq<Event>)
    requires Live(s)
    ensures Live(Run(s, es))
    decreases |es|
  {
    if es != [] {
      NextKeeps(s, es[0]);
      RunKeeps(Next(s, es[0]), es[1..]);
    }
  }

  /**
   * However observations, flushes, emissions and deliveries interleave, what main has plus
   * what is on its way is the result of applying every observed event in order.
   */
  lemma {:induction false} CoalescingKeepsTheMeaning(s: Sys, es: seq<Event>)
    requires Live(s) && NoReset(es)
    ensures Drained(Run(s, es)) == MeantAll(Drained(s), es)
    decreases |es|
  {
    if es != [] {
      NextKeeps(s, es[0]);
      assert NoReset(es[1..]);
      CoalescingKeepsTheMeaning(Next(s, es[0]), es[1..]);
    }
  }

  /** Once nothing is pending, in hand or in the channel, main holds exactly what the uncoalesced run gives. */
  lemma QuietMainAgrees(cap: nat, es: seq<Event>)
    requires NoReset(es)
    requires
      var s := Run(Fresh(cap), es);
      s.channel == [] && s.inHand == [] && s.projection.order == []
    ensures Run(Fresh(cap), es).main.working == MeantAll({}, es)
  {
    assert Live(Fresh(cap));
    RunKeeps(Fresh(cap), es);
    CoalescingKeepsTheMeaning(Fresh(cap), es);
    assert Drained(Fresh(cap)) == {};
    var s := Run(Fresh(cap), es);
    assert s.projection.pending == map[];
    assert Drained(s) == s.main.working;
  }

  /** Every message carries between one change and the cap, and pending work always has a flush coming or under way. */
  lemma BatchesAreBoundedAndFlushesScheduled(cap: nat, es: seq<Event>, i: nat)
    ensures
      var s := Run(Fresh(cap), es);
      && (i < |s.channel| && s.channel[i].ActivityBatch? ==> 1 <= |s.channel[i].changes| <= Limit(cap))
      && (s.projection.pending != map[] ==> s.projection.scheduled || s.emitting)
  {
    assert Live(Fresh(cap));
    RunKeeps(Fresh(cap), es);
    CapStays(Fresh(cap), es);
    assert Run(Fresh(cap), es).projection.order == [] ==> Run(Fresh(cap), es).projection.pending == map[];
  }

  lemma NextKeepsCap(s: Sys, e: Event)
    requires Live(s)
    ensures Next(s, e).projection.cap == s.projection.cap
  {
    hide InactivateAll;
    if e.DoReset? {
      InactivateKeeps(s.projection, s.stored, e.rows);
    }
  }

  lemma {:induction false} CapStays(s: Sys, es: seq<Event>)
    requires Live(s)
    ensures Run(s, es).projection.cap == s.projection.cap
    decreases |es|
  {
    hide Next;
    if es != [] {
      NextKeeps(s, es[0]);
      NextKeepsCap(s, es[0]);
      CapStays(Next(s, es[0]), es[1..]);
    }
  }

  /** The power channels follow main's working set through the whole system. */
  lemma {:induction false} PowerFollowsThroughout(s: Sys, es: seq<Event>)
    requires PowerOk(s.main)
    ensures PowerOk(Run(s, es).main)
    decreases |es|
  {
    if es != [] {
      if es[0].DoDeliver? && s.channel != [] {
        match s.channel[0]
        case ActivityBatch(changes) => ReactKeepsPower(s.main, Activity(changes, es[0].file));
        case ResetMessage => ReactKeepsPower(s.main, SupervisorReset(es[0].file));
      }
      PowerFollowsThroughout(Next(s, es[0]), es[1..]);
    }
  }

  // --- a flush whose emit throws --------------------------------------------

  /** `emit` threw: the batch is gone and the code after it never ran. */
  function EmitThrows(s: Sys): Sys {
    s.(inHand := [], emitting := false)
  }

  /** A throwing emit strands pending work without a flush exactly when the batch was capped. */
  lemma ThrowingEmitStrandsExactlyTheRest(s: Sys)
    requires Live(s) && !s.emitting && s.projection.order != []
    ensures
      var after := EmitThrows(StartFlush(s)).projection;
      (after.order != [] && !after.scheduled) <==> |s.projection.order| > Limit(s.projection.cap)
  {
  }

  // --- resets ---------------------------------------------------------------

  /** What is still to be sent as active was last observed active. */
  ghost predicate Observed(s: Sys) {
    forall t :: t in InFlight(s) ==> t in s.observed && ReportsActive(s.observed[t])
  }

  lemma ObserveKeepsObserved(s: Sys, event: SupervisorEvent)
    requires Live(s) && Observed(s)
    ensures Observed(ObserveIn(s, event))
  {
    if ChangeOf(event).Some? {
      RecordApplies(ApplyAll({}, s.inHand), s.projection.pending, ChangeOf(event).value.threadId, ChangeOf(event).value.active);
    }
  }

  lemma ResetKeepsObserved(s: Sys, rows: seq<string>)
    requires Live(s) && Observed(s)
    ensures Observed(Reset(s, rows))
  {
    hide InactivateAll, Listed;
    InactivateKeeps(s.projection, s.stored, rows);
  }

  lemma NextKeepsObserved(s: Sys, e: Event)
    requires Live(s) && Observed(s)
    ensures Observed(Next(s, e))
  {
    hide StartFlush, TimerFires, ObserveIn, Reset, InFlight;
    match e
    case DoObserve(event) => ObserveKeepsObserved(s, event);
    case DoFlush =>
      FlushKeeps(s);
      FlushesObserveNothing(s);
    case DoTimer =>
      TimerKeeps(s);
      FlushesObserveNothing(s);
    case DoReset(rows) => ResetKeepsObserved(s, rows);
    case _ => OtherEventsKeepFlight(s, e);
  }

  lemma FlushesObserveNothing(s: Sys)
    ensures StartFlush(s).observed == s.observed && TimerFires(s).observed == s.observed
  {
  }

  lemma OtherEventsKeepFlight(s: Sys, e: Event)
    requires Inv(s) && !e.DoObserve? && !e.DoFlush? && !e.DoTimer? && !e.DoReset?
    ensures InFlight(Next(s, e)) <= InFlight(s) && Next(s, e).observed == s.observed
  {
  }

  lemma {:induction false} RunKeepsObserved(s: Sys, es: seq<Event>)
    requires Live(s) && Observed(s)
    ensures Observed(Run(s, es))
    decreases |es|
  {
    if es != [] {
      NextKeeps(s, es[0]);
      NextKeepsObserved(s, es[0]);
      RunKeepsObserved(Next(s, es[0]), es[1..]);
    }
  }

  predicate ListsRows(rows: seq<string>, stored: map<string, Status>) {
    forall t :: t in stored ==> t in rows
  }

  lemma DrainedAfterReset(s: Sys, rows: seq<string>)
    requires Live(s) && ListsRows(rows, s.stored)
    ensures Drained(Reset(s, rows)) == set t | t in InFlight(s) && !(t in s.stored && TurnActive(s.stored[t]))
  {
    ArrivingAppends(s.main.working, s.channel, ResetMessage);
    InactivateKeeps(s.projection, s.stored, rows);
  }

  /** A reset clears main for good exactly when each thread still to be reported active has a stored row inside its turn. */
  lemma ResetClearsExactlyWhen(s: Sys, rows: seq<string>)
    requires Live(s) && ListsRows(rows, s.stored)
    ensures Drained(Reset(s, rows)) == {} <==> forall t :: t in InFlight(s) ==> t in s.stored && TurnActive(s.stored[t])
  {
    DrainedAfterReset(s, rows);
  }

  /** Stored rows mirror the last observed status of every thread inside a turn. */
  ghost predicate Mirrors(s: Sys) {
    forall t :: t in s.observed && TurnActive(s.observed[t]) ==> t in s.stored && s.stored[t] == s.observed[t]
  }

  /**
   * After a supervisor reset, with stored rows that mirror what was observed, main ends up
   * with what the events since the reset say and nothing the old supervisor reported.
   */
  lemma ResetSafety(cap: nat, before: seq<Event>, rows: seq<string>, after: seq<Event>)
    requires Mirrors(Run(Fresh(cap), before)) && ListsRows(rows, Run(Fresh(cap), before).stored) && NoReset(after)
    ensures Drained(Run(Reset(Run(Fresh(cap), before), rows), after)) == MeantAll({}, after)
  {
    var start := Fresh(cap);
    assert Live(start);
    assert InFlight(start) == {};
    RunKeeps(start, before);
    RunKeepsObserved(start, before);
    var s := Run(start, before);
    ResetClearsExactlyWhen(s, rows);
    NextKeeps(s, DoReset(rows));
    CoalescingKeepsTheMeaning(Reset(s, rows), after);
  }

  /** The reset message alone does not suffice: an active change still pending arrives after it. */
  lemma TransitionsAloneAreNotEnough()
    ensures
      var s := Run(Fresh(512), [DoObserve(ThreadState("thread", WorkingStatus))]);
      Drained(Reset(s, [])) == {"thread"}
  {
    var e := DoObserve(ThreadState("thread", WorkingStatus));
    var s := Run(Fresh(512), [e]);
    assert [e][1..] == [];
    assert s == Run(Next(Fresh(512), e), []);
    assert Live(Fresh(512));
    NextKeeps(Fresh(512), e);
    DrainedAfterReset(s, []);
    assert s.projection.pending == map["thread" := true];
    assert InFlight(s) == {"thread"};
  }
}
