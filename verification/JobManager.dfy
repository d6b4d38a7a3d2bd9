/** Main's side of one job helper: its phases, its promise, and the incremental line framer in front of them. */
module JobManager {
  import opened Wrappers
  import opened JobText

  const CONTROL_MAX := 256

  datatype Phase = AwaitReady | AwaitBound | AwaitPrepared | AwaitAssigned

  datatype Outcome = Resolved | Rejected(reason: string)

  /**
   * `outcome` is the settled promise: `settle` is null in the code exactly when it is there.
   * `member`: still in the manager's set. `killed`: by a failure; `forced`: after the grace
   * that disposal gives, which `grace` says is running. `pipeBroken`: writing to the helper
   * throws. `written` and `settles` are history.
   */
  datatype Helper = Helper(pid: nat, phase: Phase, assignmentRequested: bool, outcome: Option<Outcome>, member: bool,
                           exited: bool, killed: bool, grace: bool, forced: bool, pipeBroken: bool,
                           written: seq<Command>, settles: nat)

  function Spawned(pid: nat): Helper {
    Helper(pid, AwaitReady, false, None, true, false, false, false, false, false, [], 0)
  }

  function Settle(h: Helper, o: Outcome): Helper {
    if h.outcome.Some? then h else h.(outcome := Some(o), settles := h.settles + 1)
  }

  function Fail(h: Helper, reason: string): Helper {
    if h.assignmentRequested then Settle(h, Rejected(reason))
    else if !h.member then h
    else Settle(h, Rejected(reason)).(member := false, killed := h.killed || !h.exited)
  }

  function Write(h: Helper, c: Command): Helper {
    if h.pipeBroken then Fail(h, "control write failed") else h.(written := h.written + [c])
  }

  function OnReply(h: Helper, reply: Option<Reply>): Helper {
    if h.outcome.Some? then h
    else if reply.None? then Fail(h, "control identity or protocol differs")
    else
      var r := reply.value;
      if h.phase.AwaitReady? && r.Ready? then Write(h.(phase := AwaitBound), Bind)
      else if h.phase.AwaitBound? && r.Bound? then Write(h.(phase := AwaitPrepared), Prepare(1, h.pid))
      else if h.phase.AwaitPrepared? && r.Prepared? && r.id == 1 && r.pid == h.pid then
        Write(h.(phase := AwaitAssigned, assignmentRequested := true), Assign(1))
      else if h.phase.AwaitAssigned? && r.Assigned? && r.id == 1 && r.pid == h.pid then Settle(h, Resolved)
      else if r.Error? then Fail(h, "helper refused")
      else Fail(h, "unexpected control reply")
  }

  function OnExit(h: Helper): Helper {
    var h1 := h.(exited := true);
    if !h.member then h1
    else if h.outcome.None? then Fail(h1, "helper exited before assignment")
    else h1.(member := false)
  }

  /** Disposal rejects what is pending, asks the helper to close and gives it a grace to do so. */
  function OnDispose(h: Helper): Helper {
    if !h.member then h
    else
      var h1 := Settle(h, Rejected("disposed")).(member := false, grace := true);
      if h.pipeBroken then h1 else h1.(written := h1.written + [Close])
  }

  /** The grace has run out: a helper that is still there is killed, whatever its job holds. */
  function OnGraceOver(h: Helper): Helper {
    if h.grace && !h.exited && !h.killed then h.(grace := false, forced := true) else h.(grace := false)
  }

  // --- framing --------------------------------------------------------------

  datatype Reader = Reader(helper: Helper, nonce: string, carry: string)

  /** The first newline, or the length of the text. */
  function Newline(s: string): (n: nat)
    ensures n <= |s| && (n < |s| ==> s[n] == '\n') && '\n' !in s[..n]
  {
    if s == "" then 0 else if s[0] == '\n' then 0 else 1 + Newline(s[1..])
  }

  function Overlong(r: Reader): Reader {
    r.(carry := "", helper := Fail(r.helper, "control frame exceeds its limit"))
  }

  function TakeLine(r: Reader): Reader
    requires Newline(r.carry) < |r.carry|
  {
    var n := Newline(r.carry);
    r.(carry := r.carry[n + 1..], helper := OnReply(r.helper, ParseReply(r.carry[..n], r.nonce)))
  }

  /** Handles every complete line of the carry; a helper no longer in the set stops the loop. */
  function Lines(r: Reader): Reader
    decreases |r.carry|
  {
    var n := Newline(r.carry);
    if n == |r.carry| then (if n >= CONTROL_MAX then Overlong(r) else r)
    else if n >= CONTROL_MAX then Overlong(r)
    else if TakeLine(r).helper.member then Lines(TakeLine(r)) else TakeLine(r)
  }

  function Read(r: Reader, chunk: string): Reader {
    Lines(r.(carry := r.carry + chunk))
  }

  function ReadAll(r: Reader, chunks: seq<string>): Reader
    decreases |chunks|
  {
    if chunks == [] then r else ReadAll(Read(r, chunks[0]), chunks[1..])
  }

  function Concat(chunks: seq<string>): string {
    if chunks == [] then "" else chunks[0] + Concat(chunks[1..])
  }

  // --- framing does not depend on the chunks --------------------------------

  /** A settled promise belongs to a helper being assigned or out of the set, a pending one to a member. */
  predicate Sound(h: Helper) {
    && (h.outcome.Some? ==> h.assignmentRequested || !h.member)
    && (h.outcome.None? ==> h.member)
    && (h.phase.AwaitAssigned? <==> h.assignmentRequested)
  }

  /** The same to everyone watching: the carry counts only while the promise is pending. */
  predicate Alike(a: Reader, b: Reader) {
    a.helper == b.helper && a.nonce == b.nonce && (a.helper.outcome.None? ==> a.carry == b.carry)
  }

  /** Once its promise is settled, nothing a helper still says has any effect. */
  lemma {:induction false} SettledIsDeaf(r: Reader)
    requires Sound(r.helper) && r.helper.outcome.Some?
    ensures Lines(r).helper == r.helper && Lines(r).nonce == r.nonce
    decreases |r.carry|
  {
    var n := Newline(r.carry);
    if n < |r.carry| && n < CONTROL_MAX && r.helper.member {
      SettledIsDeaf(TakeLine(r));
    }
  }

  lemma FailKeepsSound(h: Helper, reason: string)
    requires Sound(h)
    ensures Sound(Fail(h, reason))
  {
  }

  lemma FailSettles(h: Helper, reason: string)
    requires Sound(h)
    ensures Fail(h, reason).outcome.Some?
  {
  }

  lemma WriteKeepsSound(h: Helper, phase: Phase, c: Command)
    requires Sound(h) && h.outcome.None?
    ensures Sound(Write(h.(phase := phase, assignmentRequested := phase.AwaitAssigned?), c))
  {
    FailKeepsSound(h.(phase := phase, assignmentRequested := phase.AwaitAssigned?), "control write failed");
  }

  lemma LinesKeepsSound(h: Helper, reply: Option<Reply>)
    requires Sound(h)
    ensures Sound(OnReply(h, reply))
  {
    hide Fail, Write;
    FailKeepsSound(h, "control identity or protocol differs");
    FailKeepsSound(h, "helper refused");
    FailKeepsSound(h, "unexpected control reply");
    if h.outcome.None? {
      WriteKeepsSound(h, AwaitBound, Bind);
      WriteKeepsSound(h, AwaitPrepared, Prepare(1, h.pid));
      WriteKeepsSound(h, AwaitAssigned, Assign(1));
    }
  }

  /** The first newline of a longer text. */
  lemma {:induction false} NewlineOfMore(a: string, b: string)
    ensures Newline(a) < |a| ==> Newline(a + b) == Newline(a)
    ensures Newline(a) == |a| ==> Newline(a + b) == |a| + Newline(b)
    decreases |a|
  {
    if a == "" {
      assert a + b == b;
    } else {
      assert (a + b)[1..] == a[1..] + b;
      NewlineOfMore(a[1..], b);
    }
  }

  lemma OverlongThenMore(r: Reader, more: string)
    requires Sound(r.helper) && r.helper.outcome.None? && Newline(r.carry) >= CONTROL_MAX
    ensures Alike(Read(Lines(r), more), Lines(r.(carry := r.carry + more))) && Sound(Lines(r).helper)
  {
    hide Fail;
    NewlineOfMore(r.carry, more);
    FailKeepsSound(r.helper, "control frame exceeds its limit");
    FailSettles(r.helper, "control frame exceeds its limit");
    SettledIsDeaf(Overlong(r).(carry := "" + more));
  }

  /** A complete line is the same line, and leaves the same rest, when more text follows. */
  lemma LineOfMore(r: Reader, more: string)
    requires Newline(r.carry) < |r.carry|
    ensures
      var whole := r.(carry := r.carry + more);
      && Newline(whole.carry) == Newline(r.carry)
      && TakeLine(whole) == TakeLine(r).(carry := TakeLine(r).carry + more)
  {
    NewlineOfMore(r.carry, more);
    var n := Newline(r.carry);
    assert (r.carry + more)[..n] == r.carry[..n] && (r.carry + more)[n + 1..] == r.carry[n + 1..] + more;
  }

  /** Reading `more` after the lines at hand is reading them all together. */
  lemma {:induction false} LinesThenMore(r: Reader, more: string)
    requires Sound(r.helper)
    ensures Alike(Read(Lines(r), more), Lines(r.(carry := r.carry + more))) && Sound(Lines(r).helper)
    decreases |r.carry|
  {
    var n := Newline(r.carry);
    if r.helper.outcome.Some? {
      SettledIsDeaf(r);
      SettledIsDeaf(r.(carry := r.carry + more));
      SettledIsDeaf(Lines(r).(carry := Lines(r).carry + more));
    } else if n >= CONTROL_MAX {
      OverlongThenMore(r, more);
    } else if n < |r.carry| {
      LineOfMore(r, more);
      LinesKeepsSound(r.helper, ParseReply(r.carry[..n], r.nonce));
      if TakeLine(r).helper.member {
        LinesThenMore(TakeLine(r), more);
      } else {
        SettledIsDeaf(TakeLine(r).(carry := TakeLine(r).carry + more));
      }
    }
  }

  /**
   * However the helper's output is cut into chunks, the phases reached, the commands
   * written, the settlement, the membership and the kill are those of the whole text.
   */
  lemma {:induction false} FramingIgnoresChunks(r: Reader, chunks: seq<string>)
    requires Sound(r.helper) && Lines(r) == r
    ensures Alike(ReadAll(r, chunks), Read(r, Concat(chunks)))
    decreases |chunks|
  {
    if chunks == [] {
      assert r.carry + "" == r.carry;
    } else {
      var first := r.(carry := r.carry + chunks[0]);
      var after := Read(r, chunks[0]);
      LinesThenMore(first, Concat(chunks[1..]));
      assert first.carry + Concat(chunks[1..]) == r.carry + Concat(chunks);
      LinesThenMore(first, "");
      if after.helper.outcome.None? {
        LinesStop(first);
        FramingIgnoresChunks(after, chunks[1..]);
      } else {
        DeafThroughout(after, chunks[1..]);
        SettledIsDeaf(after.(carry := after.carry + Concat(chunks[1..])));
      }
    }
  }

  lemma {:induction false} DeafThroughout(r: Reader, chunks: seq<string>)
    requires Sound(r.helper) && r.helper.outcome.Some?
    ensures ReadAll(r, chunks).helper == r.helper && ReadAll(r, chunks).nonce == r.nonce
    decreases |chunks|
  {
    if chunks != [] {
      SettledIsDeaf(r.(carry := r.carry + chunks[0]));
      DeafThroughout(Read(r, chunks[0]), chunks[1..]);
    }
  }

  /** While the promise is pending, a read leaves no complete line and no over-long one behind. */
  lemma {:induction false} LinesStop(r: Reader)
    requires Sound(r.helper) && Lines(r).helper.outcome.None?
    ensures Lines(Lines(r)) == Lines(r)
    decreases |r.carry|
  {
    var n := Newline(r.carry);
    if n < |r.carry| && n < CONTROL_MAX {
      LinesKeepsSound(r.helper, ParseReply(r.carry[..n], r.nonce));
      if TakeLine(r).helper.member {
        LinesStop(TakeLine(r));
      }
    }
  }
}
