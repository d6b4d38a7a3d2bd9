/** The host object: its constructor, its chain of reverts and its closing, statement by statement. */
module RevertCustodyHost {
  import opened Wrappers
  import opened DataCustody
  import opened RevertChain

  /** The constructor's statements in order; those that do not apply at a stage do nothing there. */
  function Construction(granted: bool, opens: bool, builds: bool, refused: bool): seq<Move> {
    [Acquire(granted), RaiseFlag, OpenHandle(opens), FinishBuild(builds)] + Closing(refused)
  }

  /** Handle first, then the flag, then the fence. */
  function Closing(refused: bool): seq<Move> {
    [CloseHandle(refused), LowerFlag, ReleaseFence]
  }

  class BackendHost {
    var stage: DataCustody.Stage
    const path: bool
    var fence: bool
    var databaseOpen: bool
    var handle: bool
    var ops: seq<Op>
    var locks: map<string, nat>
    var closing: bool
    var snapshot: set<nat>
    var clientJoined: bool
    var joined: bool
    var trace: seq<nat>

    ghost function CustodyView(): Custody
      reads this
    {
      Custody(stage, path, fence, databaseOpen, handle)
    }

    ghost function ChainView(): Chain
      reads this
    {
      Chain(ops, locks, closing, snapshot, clientJoined, joined, trace)
    }

    /**
     * The whole constructor: fence, flag, handle, the rest; in the catch block handle, flag
     * and fence again, unless a drain hook refuses the close.
     */
    constructor (fencePath: bool, granted: bool, opens: bool, builds: bool, refused: bool)
      ensures CustodyView() == Steps(Fresh(fencePath), Construction(granted, opens, builds, refused), false)
      ensures ChainView() == NEW
    {
      path := fencePath;
      stage, fence, databaseOpen, handle := Starting, false, false, false;
      ops, locks, closing, snapshot, clientJoined, joined, trace := [], map[], false, {}, false, false, [];
      new;
      if path {
        if !granted {
          stage := Over(Failed);
          ConstructionSteps(Fresh(path), granted, opens, builds, refused);
          return;
        }
        fence := true;
      }
      stage := Fenced;
      databaseOpen := true;
      stage := Flagged;
      if opens {
        handle := true;
        stage := Building;
        if builds {
          stage := Built;
          ConstructionSteps(Fresh(path), granted, opens, builds, refused);
          return;
        }
      }
      stage := Unwinding;
      if handle && refused {
        stage := Retained;
      } else {
        LetGo(Failed);
      }
      ConstructionSteps(Fresh(path), granted, opens, builds, refused);
    }

    /** Closes the handle and gives up flag and fence, in that order. */
    method LetGo(end: End)
      modifies this`handle, this`databaseOpen, this`fence, this`stage
      ensures CustodyView() == Custody(Over(end), path, false, false, false)
    {
      handle := false;
      stage := Lowering(end);
      databaseOpen := false;
      stage := Releasing(end);
      fence := false;
      stage := Over(end);
    }

    /** The retained-custody handle of a failed construction: closes once a retry is no longer refused. */
    method RetryCloseDatabase(refused: bool)
      requires Nested(CustodyView()) && (stage == Retained || stage == Over(Failed))
      modifies this`handle, this`databaseOpen, this`fence, this`stage
      ensures CustodyView() == Steps(old(CustodyView()), Closing(refused), joined)
    {
      ClosingSteps(CustodyView(), refused, joined);
      if stage == Retained && !refused {
        LetGo(Failed);
      }
    }

    /** Throws before the join; a refused drain keeps the handle, the flag and the fence. */
    method CloseDatabase(refused: bool) returns (threw: bool)
      requires Nested(CustodyView()) && (stage == Built || stage == Over(Closed))
      modifies this`handle, this`databaseOpen, this`fence, this`stage
      ensures CustodyView() == Steps(old(CustodyView()), Closing(refused), joined)
      ensures threw <==> old(databaseOpen) && (!joined || refused)
    {
      ClosingSteps(CustodyView(), refused, joined);
      if !databaseOpen { return false; }
      if !joined || refused { return true; }
      LetGo(Closed);
      return false;
    }

    method RevertCheckpoint(thread: string, coordinated: bool) returns (accepted: bool)
      modifies this`ops, this`locks
      ensures ChainView() == Next(old(ChainView()), Accept(thread, coordinated))
      ensures accepted <==> !closing
    {
      if closing { return false; }
      var previous := if thread in locks then Some(locks[thread]) else None;
      locks := locks[thread := |ops|];
      ops := ops + [Op(thread, previous, if coordinated then Queued else Invoked)];
      return true;
    }

    method Set(id: nat, stage: RevertChain.Stage)
      requires id < |ops|
      modifies this`ops
      ensures ChainView() == At(old(ChainView()), id, stage)
    {
      ops := ops[id := ops[id].(stage := stage)];
    }

    /** The coordinator calls back. */
    method CalledBack(id: nat)
      requires id < |ops|
      modifies this`ops
      ensures ChainView() == Next(old(ChainView()), Invoke(id))
    {
      if ops[id].stage == Queued { Set(id, Invoked); }
    }

    /** The callback once the revert before it has settled: refuses when the host is closing, else runs. */
    method PreviousHasSettled(id: nat)
      requires id < |ops| && ops[id].stage == Invoked && PreviousSettled(ChainView(), id)
      modifies this`ops
      ensures ChainView() == Next(old(ChainView()), Begin(id))
    {
      if closing { Set(id, Settled); } else { Set(id, Running); }
    }

    method RunPhase(id: nat)
      requires id < |ops| && ops[id].stage == Running
      modifies this`trace
      ensures ChainView() == Next(old(ChainView()), Work(id))
    {
      trace := trace + [id];
    }

    method Complete(id: nat)
      requires id < |ops| && ops[id].stage == Running
      modifies this`ops
      ensures ChainView() == Next(old(ChainView()), Finish(id))
    {
      Set(id, Settled);
    }

    /** What the settled revert does with its own lock. */
    method ForgetLock(id: nat)
      requires id < |ops| && ops[id].stage == Settled
      modifies this`locks
      ensures ChainView() == (if ops[id].thread in old(locks) && old(locks)[ops[id].thread] == id
                              then Next(old(ChainView()), DropLock(ops[id].thread)) else old(ChainView()))
    {
      var thread := ops[id].thread;
      if thread in locks && locks[thread] == id {
        locks := locks - {thread};
      }
    }

    method DisposeSupervisor()
      modifies this`closing, this`snapshot
      ensures ChainView() == Next(old(ChainView()), Dispose)
    {
      if closing { return; }
      closing := true;
      snapshot := locks.Values;
    }

    method SupervisorDisposed()
      modifies this`clientJoined
      ensures ChainView() == Next(old(ChainView()), ClientJoined)
    {
      if closing { clientJoined := true; }
    }

    /** Every promise of the snapshot has settled. */
    method ContinuationsSettled()
      requires forall id :: id in snapshot ==> Is(ChainView(), id, Settled)
      modifies this`joined
      ensures ChainView() == Next(old(ChainView()), Join)
    {
      if closing && clientJoined { joined := true; }
    }
  }

  lemma ClosingSteps(c: Custody, refused: bool, joined: bool)
    requires Nested(c) && (c.stage == Built || c.stage == Retained || c.stage.Over? || c.stage == Unwinding)
    ensures Steps(c, Closing(refused), joined) ==
            if c.stage.Over? || (c.stage == Built && !joined) then c
            else if c.handle && refused then c.(stage := if c.stage == Built then Built else Retained)
            else Custody(Over(if c.stage == Built then Closed else Failed), c.path, false, false, false)
  {
    var c1 := Step(c, CloseHandle(refused), joined);
    var c2 := Step(c1, LowerFlag, joined);
    assert Closing(refused)[1..] == [LowerFlag, ReleaseFence] && [LowerFlag, ReleaseFence][1..] == [ReleaseFence];
    assert Steps(c2, [ReleaseFence], joined) == Step(c2, ReleaseFence, joined) by { assert [ReleaseFence][1..] == []; }
    assert Steps(c1, [LowerFlag, ReleaseFence], joined) == Steps(c2, [ReleaseFence], joined);
  }

  lemma {:induction false} StepsConcat(c: Custody, a: seq<Move>, b: seq<Move>, joined: bool)
    ensures Steps(c, a + b, joined) == Steps(Steps(c, a, joined), b, joined)
    decreases |a|
  {
    hide Step;
    if a == [] {
      assert a + b == b;
    } else {
      StepsConcat(Step(c, a[0], joined), a[1..], b, joined);
      assert (a + b)[0] == a[0] && (a + b)[1..] == a[1..] + b;
    }
  }

  lemma BuildSteps(c: Custody, granted: bool, opens: bool, builds: bool)
    requires c == Fresh(c.path)
    ensures Steps(c, [Acquire(granted), RaiseFlag, OpenHandle(opens), FinishBuild(builds)], false) ==
            if c.path && !granted then Custody(Over(Failed), true, false, false, false)
            else Custody(if opens && builds then Built else Unwinding, c.path, c.path, true, opens)
  {
    FourSteps(c, Acquire(granted), RaiseFlag, OpenHandle(opens), FinishBuild(builds), false);
  }

  /** Where a fresh host stands after its constructor. */
  lemma ConstructionSteps(c: Custody, granted: bool, opens: bool, builds: bool, refused: bool)
    requires c == Fresh(c.path)
    ensures Steps(c, Construction(granted, opens, builds, refused), false) ==
            if c.path && !granted then Custody(Over(Failed), true, false, false, false)
            else if opens && builds then Custody(Built, c.path, c.path, true, true)
            else if opens && refused then Custody(Retained, c.path, c.path, true, true)
            else Custody(Over(Failed), c.path, false, false, false)
  {
    hide Step;
    var build := [Acquire(granted), RaiseFlag, OpenHandle(opens), FinishBuild(builds)];
    StepsConcat(c, build, Closing(refused), false);
    BuildSteps(c, granted, opens, builds);
    hide Steps;
    ClosingSteps(Steps(c, build, false), refused, false);
  }

  lemma FourSteps(c: Custody, a: Move, b: Move, d: Move, e: Move, joined: bool)
    ensures Steps(c, [a, b, d, e], joined) == Step(Step(Step(Step(c, a, joined), b, joined), d, joined), e, joined)
  {
    hide Step;
    assert [a, b, d, e][1..] == [b, d, e] && [b, d, e][1..] == [d, e] && [d, e][1..] == [e] && [e][1..] == [];
    var c1 := Step(c, a, joined);
    var c2 := Step(c1, b, joined);
    var c3 := Step(c2, d, joined);
    assert Steps(c3, [e], joined) == Step(c3, e, joined);
    assert Steps(c2, [d, e], joined) == Steps(c3, [e], joined);
    assert Steps(c1, [b, d, e], joined) == Steps(c2, [d, e], joined);
  }
}
