/**
 * The per-thread chain of accepted reverts: each awaits the one that the lock table named
 * when it was accepted. Nothing is asked of the thread coordinator in front of it but that
 * it refuses a callback only when the reverts before it have settled; it may call back in
 * any order and have several callbacks in flight.
 */
module RevertChain {
  import opened Wrappers

  /** `Invoked`: the callback runs and awaits the previous revert. */
  datatype Stage = Queued | Invoked | Running | Settled

  datatype Op = Op(thread: string, previous: Option<nat>, stage: Stage)

  /**
   * Accepted reverts are numbered by acceptance. `locks` names the last one of a thread
   * until it settles, `trace` lists every phase any revert performed, `snapshot` is what
   * disposal decided to join.
   */
  datatype Chain = Chain(
    ops: seq<Op>, locks: map<string, nat>, closing: bool, snapshot: set<nat>,
    clientJoined: bool, joined: bool, trace: seq<nat>)

  const NEW := Chain([], map[], false, {}, false, false, [])

  /** `coordinated` is false on a client without a coordinator, where the callback runs at once. */
  datatype Event =
    | Accept(thread: string, coordinated: bool)
    | Invoke(id: nat)
    | Reject(id: nat)
    | Begin(id: nat)
    | Work(id: nat)
    | Finish(id: nat)
    | DropLock(thread: string)
    | Dispose
    | ClientJoined
    | Join

  function At(c: Chain, id: nat, stage: Stage): Chain
    requires id < |c.ops|
  {
    c.(ops := c.ops[id := c.ops[id].(stage := stage)])
  }

  predicate Is(c: Chain, id: nat, stage: Stage) {
    id < |c.ops| && c.ops[id].stage == stage
  }

  /** The reverts accepted for the same thread before `id` have all settled. */
  predicate EarlierSettled(c: Chain, id: nat)
    requires id < |c.ops|
  {
    forall i :: 0 <= i < id && c.ops[i].thread == c.ops[id].thread ==> c.ops[i].stage == Settled
  }

  predicate PreviousSettled(c: Chain, id: nat)
    requires id < |c.ops|
  {
    c.ops[id].previous.Some? ==> Is(c, c.ops[id].previous.value, Settled)
  }

  function Next(c: Chain, e: Event): Chain {
    match e
    case Accept(t, coordinated) =>
      if c.closing then c
      else c.(ops := c.ops + [Op(t, if t in c.locks then Some(c.locks[t]) else None, if coordinated then Queued else Invoked)],
              locks := c.locks[t := |c.ops|])
    case Invoke(id) => if Is(c, id, Queued) then At(c, id, Invoked) else c
    case Reject(id) => if Is(c, id, Queued) && EarlierSettled(c, id) then At(c, id, Settled) else c
    case Begin(id) =>
      if Is(c, id, Invoked) && PreviousSettled(c, id) then At(c, id, if c.closing then Settled else Running) else c
    case Work(id) => if Is(c, id, Running) then c.(trace := c.trace + [id]) else c
    case Finish(id) => if Is(c, id, Running) then At(c, id, Settled) else c
    case DropLock(t) => if t in c.locks && Is(c, c.locks[t], Settled) then c.(locks := c.locks - {t}) else c
    case Dispose => if c.closing then c else c.(closing := true, snapshot := c.locks.Values)
    case ClientJoined => if c.closing then c.(clientJoined := true) else c
    case Join =>
      if c.closing && c.clientJoined && (forall id :: id in c.snapshot ==> Is(c, id, Settled)) then c.(joined := true) else c
  }

  function Run(c: Chain, es: seq<Event>): Chain
    decreases |es|
  {
    if es == [] then c else Run(Next(c, es[0]), es[1..])
  }

  // --- the invariant --------------------------------------------------------

  /** Reverts of one thread start and settle in acceptance order. */
  ghost predicate InOrder(c: Chain) {
    forall i, j ::
      (0 <= i < j < |c.ops| && c.ops[i].thread == c.ops[j].thread
       && (c.ops[j].stage == Running || c.ops[j].stage == Settled)) ==> c.ops[i].stage == Settled
  }

  /** The lock of a thread names its last revert; a thread without one has nothing left to run. */
  ghost predicate LocksNameTheLast(c: Chain) {
    && (forall t :: t in c.locks ==> c.locks[t] < |c.ops| && c.ops[c.locks[t]].thread == t)
    && (forall i :: 0 <= i < |c.ops| && c.ops[i].thread in c.locks ==> i <= c.locks[c.ops[i].thread])
    && (forall i :: 0 <= i < |c.ops| && c.ops[i].thread !in c.locks ==> c.ops[i].stage == Settled)
  }

  /** What a revert awaits is the last one accepted before it for its thread, unless all those had settled. */
  ghost predicate AwaitsTheLast(c: Chain, j: nat)
    requires j < |c.ops|
  {
    match c.ops[j].previous
    case None => EarlierSettled(c, j)
    case Some(p) =>
      && p < j && c.ops[p].thread == c.ops[j].thread
      && forall i :: p < i < j ==> c.ops[i].thread != c.ops[j].thread
  }

  /** Phases were performed by reverts that had started, each thread's in acceptance order. */
  ghost predicate TraceInOrder(c: Chain) {
    && (forall i :: 0 <= i < |c.trace| ==> Is(c, c.trace[i], Running) || Is(c, c.trace[i], Settled))
    && (forall i, j :: 0 <= i < j < |c.trace| && c.ops[c.trace[i]].thread == c.ops[c.trace[j]].thread ==>
          c.trace[i] <= c.trace[j])
  }

  ghost predicate Disposal(c: Chain) {
    && (c.closing ==> forall t :: t in c.locks ==> c.locks[t] in c.snapshot)
    && (c.joined ==> c.closing && c.clientJoined && forall id :: id in c.snapshot ==> Is(c, id, Settled))
  }

  ghost predicate Inv(c: Chain) {
    && InOrder(c) && LocksNameTheLast(c) && TraceInOrder(c) && Disposal(c)
    && forall j :: 0 <= j < |c.ops| ==> AwaitsTheLast(c, j)
  }

  /** With what it awaits settled, everything accepted before a revert for its thread has settled. */
  lemma AwaitingIsEnough(c: Chain, id: nat)
    requires Inv(c) && id < |c.ops| && PreviousSettled(c, id)
    ensures EarlierSettled(c, id)
  {
    assert AwaitsTheLast(c, id);
  }

  /** The revert is called back, or starts or settles in its turn; only a running one can have performed phases. */
  ghost predicate InTurn(c: Chain, id: nat, stage: Stage) {
    && id < |c.ops| && c.ops[id].stage != Settled
    && (if stage == Invoked then c.ops[id].stage == Queued else stage != Queued && EarlierSettled(c, id))
    && (c.ops[id].stage == Running ==> stage == Settled)
  }

  lemma AdvancingKeepsOrder(c: Chain, id: nat, stage: Stage)
    requires InOrder(c) && InTurn(c, id, stage)
    ensures InOrder(At(c, id, stage))
  {
  }

  lemma AdvancingKeepsTrace(c: Chain, id: nat, stage: Stage)
    requires TraceInOrder(c) && InTurn(c, id, stage)
    ensures TraceInOrder(At(c, id, stage))
  {
    hide EarlierSettled;
    var c' := At(c, id, stage);
    forall i | 0 <= i < |c'.trace| ensures Is(c', c'.trace[i], Running) || Is(c', c'.trace[i], Settled)
    {
      assert Is(c, c.trace[i], Running) || Is(c, c.trace[i], Settled);
    }
  }

  lemma AdvancingKeepsAwaiting(c: Chain, id: nat, stage: Stage, j: nat)
    requires InTurn(c, id, stage) && j < |c.ops| && AwaitsTheLast(c, j)
    ensures AwaitsTheLast(At(c, id, stage), j)
  {
  }

  /** A revert may start or settle once those before it have settled: nothing else depends on when. */
  lemma AdvancingKeepsInv(c: Chain, id: nat, stage: Stage)
    requires Inv(c) && InTurn(c, id, stage)
    ensures Inv(At(c, id, stage))
  {
    AdvancingKeepsOrder(c, id, stage);
    AdvancingKeepsTrace(c, id, stage);
    hide InOrder, TraceInOrder, AwaitsTheLast, EarlierSettled;
    forall j | 0 <= j < |c.ops| ensures AwaitsTheLast(At(c, id, stage), j) {
      AdvancingKeepsAwaiting(c, id, stage, j);
    }
  }

  lemma AcceptKeepsLocks(c: Chain, t: string, coordinated: bool)
    requires LocksNameTheLast(c) && !c.closing
    ensures LocksNameTheLast(Next(c, Accept(t, coordinated)))
  {
  }

  lemma AcceptKeepsOrder(c: Chain, t: string, coordinated: bool)
    requires InOrder(c) && TraceInOrder(c) && !c.closing
    ensures InOrder(Next(c, Accept(t, coordinated))) && TraceInOrder(Next(c, Accept(t, coordinated)))
  {
  }

  /** The lock read at acceptance is the last revert of the thread; without one, all have settled. */
  lemma AcceptKeepsAwaiting(c: Chain, t: string, coordinated: bool, j: nat)
    requires LocksNameTheLast(c) && !c.closing && j <= |c.ops| && (j < |c.ops| ==> AwaitsTheLast(c, j))
    ensures AwaitsTheLast(Next(c, Accept(t, coordinated)), j)
  {
  }

  lemma AcceptKeepsInv(c: Chain, t: string, coordinated: bool)
    requires Inv(c) && !c.closing
    ensures Inv(Next(c, Accept(t, coordinated)))
  {
    AcceptKeepsLocks(c, t, coordinated);
    AcceptKeepsOrder(c, t, coordinated);
    hide InOrder, LocksNameTheLast, TraceInOrder, AwaitsTheLast;
    var c' := Next(c, Accept(t, coordinated));
    forall j | 0 <= j < |c'.ops| ensures AwaitsTheLast(c', j) {
      AcceptKeepsAwaiting(c, t, coordinated, j);
    }
  }

  lemma WorkKeepsTrace(c: Chain, id: nat)
    requires InOrder(c) && TraceInOrder(c) && Is(c, id, Running)
    ensures TraceInOrder(Next(c, Work(id)))
  {
  }

  lemma WorkKeepsInv(c: Chain, id: nat)
    requires Inv(c) && Is(c, id, Running)
    ensures Inv(Next(c, Work(id)))
  {
    var c' := Next(c, Work(id));
    WorkKeepsTrace(c, id);
    hide TraceInOrder;
    forall j | 0 <= j < |c'.ops| ensures AwaitsTheLast(c', j) {
      assert AwaitsTheLast(c, j);
    }
  }

  lemma DropLockKeepsLocks(c: Chain, t: string)
    requires InOrder(c) && LocksNameTheLast(c)
    ensures LocksNameTheLast(Next(c, DropLock(t)))
  {
  }

  lemma DropLockKeepsInv(c: Chain, t: string)
    requires Inv(c)
    ensures Inv(Next(c, DropLock(t)))
  {
    DropLockKeepsLocks(c, t);
    hide InOrder, LocksNameTheLast, TraceInOrder;
    var c' := Next(c, DropLock(t));
    forall j | 0 <= j < |c'.ops| ensures AwaitsTheLast(c', j) {
      assert AwaitsTheLast(c, j);
    }
    LocklessFrames(c, c');
  }

  lemma LocklessFrames(c: Chain, c': Chain)
    requires c'.ops == c.ops && c'.trace == c.trace
    ensures InOrder(c) ==> InOrder(c')
    ensures TraceInOrder(c) ==> TraceInOrder(c')
  {
  }

  lemma DisposalKeepsInv(c: Chain, e: Event)
    requires Inv(c) && (e.Dispose? || e.ClientJoined? || e.Join?)
    ensures Inv(Next(c, e))
  {
    var c' := Next(c, e);
    forall t | t in c'.locks && c'.closing ensures c'.locks[t] in c'.snapshot {
      assert t in c.locks.Keys;
    }
    forall j | 0 <= j < |c'.ops| ensures AwaitsTheLast(c', j) {
      assert AwaitsTheLast(c, j);
    }
  }

  lemma NextKeepsInv(c: Chain, e: Event)
    requires Inv(c)
    ensures Inv(Next(c, e))
  {
    hide Inv;
    match e
    case Accept(t, coordinated) =>
      if !c.closing {
        AcceptKeepsInv(c, t, coordinated);
      }
    case Invoke(id) =>
      if Is(c, id, Queued) {
        AdvancingKeepsInv(c, id, Invoked);
      }
    case Reject(id) =>
      if Is(c, id, Queued) && EarlierSettled(c, id) {
        AdvancingKeepsInv(c, id, Settled);
      }
    case Begin(id) =>
      if Is(c, id, Invoked) && PreviousSettled(c, id) {
        AwaitingIsEnough(c, id);
        AdvancingKeepsInv(c, id, if c.closing then Settled else Running);
      }
    case Work(id) =>
      if Is(c, id, Running) {
        WorkKeepsInv(c, id);
      }
    case Finish(id) =>
      if Is(c, id, Running) {
        RunningIsFirst(c, id);
        AdvancingKeepsInv(c, id, Settled);
      }
    case DropLock(t) => DropLockKeepsInv(c, t);
    case _ => DisposalKeepsInv(c, e);
  }

  lemma JoinedStays(c: Chain, e: Event)
    requires c.joined
    ensures Next(c, e).joined
  {
  }

  lemma RunningIsFirst(c: Chain, id: nat)
    requires Inv(c) && Is(c, id, Running)
    ensures EarlierSettled(c, id)
  {
  }

  lemma {:induction false} RunKeepsInv(c: Chain, es: seq<Event>)
    requires Inv(c)
    ensures Inv(Run(c, es))
    decreases |es|
  {
    if es != [] {
      NextKeepsInv(c, es[0]);
      RunKeepsInv(Next(c, es[0]), es[1..]);
    }
  }

  // --- what callers get -----------------------------------------------------

  /**
   * On one thread, phases run in acceptance order and no two reverts are under way at once,
   * with or without a coordinator, whatever order it calls back in.
   */
  lemma RevertsRunOneAtATimeInAcceptanceOrder(es: seq<Event>)
    ensures
      var c := Run(NEW, es);
      && (forall i, j :: 0 <= i < j < |c.ops| && c.ops[i].thread == c.ops[j].thread ==>
            !(c.ops[i].stage == Running && c.ops[j].stage == Running))
      && (forall i :: 0 <= i < |c.trace| ==> c.trace[i] < |c.ops|)
      && (forall i, j :: 0 <= i < j < |c.trace| && c.ops[c.trace[i]].thread == c.ops[c.trace[j]].thread ==>
            c.trace[i] <= c.trace[j])
  {
    RunKeepsInv(NEW, es);
    var c := Run(NEW, es);
    forall i | 0 <= i < |c.trace| ensures c.trace[i] < |c.ops| {
      assert Is(c, c.trace[i], Running) || Is(c, c.trace[i], Settled);
    }
  }

  /** Joined disposal means every revert ever accepted has settled, those still queued at the time included. */
  lemma JoinedMeansEveryAcceptedRevertSettled(es: seq<Event>)
    requires Run(NEW, es).joined
    ensures
      var c := Run(NEW, es);
      c.closing && c.clientJoined && forall id :: 0 <= id < |c.ops| ==> c.ops[id].stage == Settled
  {
    RunKeepsInv(NEW, es);
    JoinedHasSettled(Run(NEW, es));
  }

  lemma JoinedHasSettled(c: Chain)
    requires Inv(c) && c.joined
    ensures c.closing && c.clientJoined && forall id :: 0 <= id < |c.ops| ==> c.ops[id].stage == Settled
  {
    forall id | 0 <= id < |c.ops| ensures c.ops[id].stage == Settled
    {
      var t := c.ops[id].thread;
      if t in c.locks {
        assert Is(c, c.locks[t], Settled);
      }
    }
  }

  /** Once disposal began nothing more is accepted and no revert starts a phase that had not begun. */
  lemma {:induction false} ClosingAdmitsNothing(c: Chain, es: seq<Event>)
    requires c.closing
    ensures
      var c' := Run(c, es);
      && c'.closing && |c'.ops| == |c.ops|
      && forall id :: 0 <= id < |c.ops| && c'.ops[id].stage == Running ==> c.ops[id].stage == Running
    decreases |es|
  {
    if es != [] {
      ClosingAdmitsNothing(Next(c, es[0]), es[1..]);
    }
  }

  // --- why a refusal must wait its turn -------------------------------------

  /** Settling a revert out of its turn breaks the order exactly when an earlier one has not settled. */
  lemma RefusalInTurnExactlyWhen(c: Chain, id: nat)
    requires Inv(c) && Is(c, id, Queued)
    ensures InOrder(At(c, id, Settled)) <==> EarlierSettled(c, id)
  {
    var c' := At(c, id, Settled);
    if EarlierSettled(c, id) {
      AdvancingKeepsOrder(c, id, Settled);
    } else {
      var i :| 0 <= i < id && c.ops[i].thread == c.ops[id].thread && c.ops[i].stage != Settled;
      assert c'.ops[i] == c.ops[i] && c'.ops[id].stage == Settled;
    }
  }

  lemma RunOne(c: Chain, e: Event)
    ensures Run(c, [e]) == Next(c, e)
  {
    assert [e][1..] == [];
  }

  lemma RunTwo(c: Chain, e: Event, f: Event)
    ensures Run(c, [e, f]) == Next(Next(c, e), f)
  {
    hide Next;
    assert [e, f][1..] == [f];
    RunOne(Next(c, e), f);
  }

  lemma {:induction false} RunConcat(c: Chain, a: seq<Event>, b: seq<Event>)
    ensures Run(c, a + b) == Run(Run(c, a), b)
    decreases |a|
  {
    hide Next;
    if a == [] {
      assert a + b == b;
    } else {
      RunConcat(Next(c, a[0]), a[1..], b);
      assert (a + b)[0] == a[0] && (a + b)[1..] == a[1..] + b;
    }
  }

  /** Three reverts of one thread, each behind the one before. */
  function Three(t: string, first: Stage, trace: seq<nat>): Chain {
    Chain([Op(t, None, first), Op(t, Some(0), Queued), Op(t, Some(1), Queued)], map[t := 2], false, {}, false, false, trace)
  }

  lemma TwoAccepted(t: string)
    ensures Run(NEW, [Accept(t, true), Accept(t, true)]) ==
            Chain([Op(t, None, Queued), Op(t, Some(0), Queued)], map[t := 1], false, {}, false, false, [])
  {
    var one := Chain([Op(t, None, Queued)], map[t := 0], false, {}, false, false, []);
    assert Next(NEW, Accept(t, true)) == one;
    RunTwo(NEW, Accept(t, true), Accept(t, true));
  }

  lemma ThirdAccepted(t: string)
    ensures
      var c := Chain([Op(t, None, Queued), Op(t, Some(0), Queued)], map[t := 1], false, {}, false, false, []);
      Run(c, [Accept(t, true), Invoke(0)]) == Three(t, Invoked, [])
  {
    var c := Chain([Op(t, None, Queued), Op(t, Some(0), Queued)], map[t := 1], false, {}, false, false, []);
    assert Next(c, Accept(t, true)) == Three(t, Queued, []);
    RunTwo(c, Accept(t, true), Invoke(0));
  }

  lemma FirstWorks(t: string)
    ensures Run(Three(t, Invoked, []), [Begin(0), Work(0)]) == Three(t, Running, [0])
  {
    assert Next(Three(t, Invoked, []), Begin(0)) == Three(t, Running, []);
    RunTwo(Three(t, Invoked, []), Begin(0), Work(0));
  }

  lemma ThirdStarts(t: string)
    ensures
      var c := Run(At(Three(t, Running, [0]), 1, Settled), [Invoke(2), Begin(2)]);
      c.trace == [0] && Is(c, 0, Running) && Is(c, 2, Running)
  {
    RunTwo(At(Three(t, Running, [0]), 1, Settled), Invoke(2), Begin(2));
  }

  /**
   * Refused out of turn, a revert lets its successor's phases fall between those of a
   * predecessor: with one revert under way and two behind it, refusing the middle one then
   * and there lets the last one work in between.
   */
  lemma EarlyRefusalInterleaves(t: string)
    ensures
      var c := Run(NEW, [Accept(t, true), Accept(t, true)] + [Accept(t, true), Invoke(0)] + [Begin(0), Work(0)]);
      && Is(c, 1, Queued)
      && Run(At(c, 1, Settled), [Invoke(2), Begin(2)] + [Work(2), Work(0)]).trace == [0, 2, 0]
  {
    TwoAccepted(t);
    ThirdAccepted(t);
    FirstWorks(t);
    RunConcat(NEW, [Accept(t, true), Accept(t, true)] + [Accept(t, true), Invoke(0)], [Begin(0), Work(0)]);
    RunConcat(NEW, [Accept(t, true), Accept(t, true)], [Accept(t, true), Invoke(0)]);
    var c := At(Three(t, Running, [0]), 1, Settled);
    ThirdStarts(t);
    RunConcat(c, [Invoke(2), Begin(2)], [Work(2), Work(0)]);
    RunTwo(Run(c, [Invoke(2), Begin(2)]), Work(2), Work(0));
  }
}
