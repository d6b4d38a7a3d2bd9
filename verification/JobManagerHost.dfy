/** One managed helper as the manager updates it in place, with the framing loop of its output. */
module JobManagerHost {
  import opened Wrappers
  import opened JobText
  import Spec = JobManager
  import opened JobManager

  class ManagedHelper {
    const nonce: string
    const pid: nat
    var carry: string
    var phase: Phase
    var assignmentRequested: bool
    var outcome: Option<Outcome>
    /** Still in the manager's set. */
    var member: bool
    var exited: bool
    var killed: bool
    /** Disposed of, with the forced close still to come. */
    var grace: bool
    var forced: bool
    var pipeBroken: bool
    var written: seq<Command>
    ghost var settles: nat

    ghost function Self(): Helper
      reads this
    {
      Helper(pid, phase, assignmentRequested, outcome, member, exited, killed, grace, forced, pipeBroken, written, settles)
    }

    ghost function View(): Reader
      reads this
    {
      Reader(Self(), nonce, carry)
    }

    constructor (nonce: string, pid: nat)
      ensures View() == Reader(Spawned(pid), nonce, "")
    {
      this.nonce, this.pid := nonce, pid;
      carry, phase, assignmentRequested, outcome := "", AwaitReady, false, None;
      member, exited, killed, grace, forced, pipeBroken, written, settles := true, false, false, false, false, false, [], 0;
    }

    method Settle(o: Outcome)
      modifies this`outcome, this`settles
      ensures Self() == Spec.Settle(old(Self()), o)
    {
      if outcome.None? {
        outcome, settles := Some(o), settles + 1;
      }
    }

    method Fail(reason: string)
      modifies this`outcome, this`settles, this`member, this`killed
      ensures Self() == Spec.Fail(old(Self()), reason)
    {
      if assignmentRequested {
        Settle(Rejected(reason));
        return;
      }
      if !member {
        return;
      }
      member := false;
      Settle(Rejected(reason));
      if !exited {
        killed := true;
      }
    }

    method Write(c: Command)
      modifies this`outcome, this`settles, this`member, this`killed, this`written
      ensures Self() == Spec.Write(old(Self()), c)
    {
      if pipeBroken {
        Fail("control write failed");
      } else {
        written := written + [c];
      }
    }

    method Reply(line: string)
      modifies this`outcome, this`settles, this`member, this`killed, this`written, this`phase, this`assignmentRequested
      ensures Self() == OnReply(old(Self()), ParseReply(line, nonce))
    {
      hide Spec.Fail, Spec.Write, Spec.Settle, ParseReply;
      if outcome.Some? {
        return;
      }
      var parsed := ParseReply(line, nonce);
      if parsed.None? {
        Fail("control identity or protocol differs");
        return;
      }
      var reply := parsed.value;
      match phase {
        case AwaitReady =>
          if reply.Ready? {
            phase := AwaitBound;
            Write(Bind);
            return;
          }
        case AwaitBound =>
          if reply.Bound? {
            phase := AwaitPrepared;
            Write(Prepare(1, pid));
            return;
          }
        case AwaitPrepared =>
          if reply.Prepared? && reply.id == 1 && reply.pid == pid {
            phase, assignmentRequested := AwaitAssigned, true;
            Write(Assign(1));
            return;
          }
        case AwaitAssigned =>
          if reply.Assigned? && reply.id == 1 && reply.pid == pid {
            Settle(Resolved);
            return;
          }
      }
      if reply.Error? {
        Fail("helper refused");
        return;
      }
      Fail("unexpected control reply");
    }

    /** The incremental framer: handles every line the chunk completes, and fails on a frame over the limit. */
    method Read(chunk: string)
      modifies this
      ensures View() == Spec.Read(old(View()), chunk)
    {
      carry := carry + chunk;
      ghost var start := View();
      var newline := Newline(carry);
      while newline != |carry|
        invariant newline == Newline(carry) && Lines(View()) == Lines(start)
        decreases |carry|
      {
        if newline >= CONTROL_MAX {
          carry := "";
          Fail("control frame exceeds its limit");
          return;
        }
        var line := carry[..newline];
        ghost var before := View();
        carry := carry[newline + 1..];
        Reply(line);
        assert View() == TakeLine(before);
        if !member {
          return;
        }
        newline := Newline(carry);
      }
      if |carry| >= CONTROL_MAX {
        carry := "";
        Fail("control frame exceeds its limit");
      }
    }

    method Exited()
      modifies this`exited, this`outcome, this`settles, this`member, this`killed
      ensures Self() == OnExit(old(Self()))
    {
      exited := true;
      if !member {
        return;
      }
      if outcome.None? {
        Fail("helper exited before assignment");
        return;
      }
      member := false;
    }

    method Dispose()
      modifies this`outcome, this`settles, this`member, this`grace, this`written
      ensures Self() == OnDispose(old(Self()))
    {
      if !member {
        return;
      }
      Settle(Rejected("disposed"));
      if !pipeBroken {
        written := written + [Close];
      }
      grace := true;
      member := false;
    }

    /** The timer that disposal started. */
    method GraceOver()
      modifies this`grace, this`forced
      ensures Self() == OnGraceOver(old(Self()))
    {
      if grace && !exited && !killed {
        forced := true;
      }
      grace := false;
    }
  }
}
