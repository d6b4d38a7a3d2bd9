/**
 * Manager and native helper over their two FIFO pipes. What the manager writes and what
 * the helper emits are kept as histories; each side reads the other's at its own pace.
 */
module JobLockstep {
  import opened Wrappers
  import opened JobText
  import opened JobManager

  datatype Prep = Prep(id: nat, pid: nat, inJob: bool)

  datatype Stage = Starting | Unbound | Serving | Retiring(ok: bool) | Gone

  /** Why the helper refused or answered with a protocol error: its first line, a number, or a request it cannot place. */
  datatype Violation = FirstLine | BadPid | BadRequest

  /** `job`: every process ever assigned to the kill-on-close job; `active`: those now running in it, descendants included. */
  datatype Native = Native(stage: Stage, read: nat, prepared: Option<Prep>, job: set<nat>, active: set<nat>,
                           emitted: seq<Reply>, violation: Option<Violation>)

  /** What the operating system answers during one request. */
  datatype Kernel = Kernel(parentAlive: bool, opens: bool, birthKnown: bool, created: nat, running: bool, assigns: bool)

  datatype Sys = Sys(manager: Helper, got: nat, native: Native)

  function Start(pid: nat): Sys {
    Sys(Spawned(pid), 0, Native(Starting, 0, None, {}, {}, [], None))
  }

  function Emit(n: Native, r: Reply): Native {
    n.(emitted := n.emitted + [r])
  }

  /** The helper's first line must be the bind, from a parent still alive. */
  function OnFirstLine(n: Native, c: Command, k: Kernel): Native {
    if c == Bind && k.parentAlive then Emit(n.(stage := Serving), Bound)
    else n.(stage := Gone, violation := if c == Bind then n.violation else Some(FirstLine))
  }

  function OnPrepare(n: Native, c: Command, k: Kernel): Native
    requires c.Prepare?
  {
    if n.prepared.Some? then Emit(n, Error(Protocol)).(violation := Some(BadRequest))
    else if !NumbersFit(c) then n.(stage := Retiring(false), violation := Some(BadPid))
    else if !k.opens then Emit(n, Error(Unavailable))
    else if !k.birthKnown then n.(stage := Retiring(false))
    else Emit(n.(prepared := Some(Prep(c.id, c.pid, false))), Prepared(c.id, c.pid, k.created))
  }

  function OnAssign(n: Native, c: Command, k: Kernel): Native
    requires c.Assign?
  {
    if !NumbersFit(c) then n.(stage := Retiring(false), violation := Some(BadPid))
    else if n.prepared.None? || n.prepared.value.id != c.id then Emit(n, Error(Unknown))
    else
      var p := n.prepared.value;
      if p.inJob then Emit(n, Assigned(p.id, p.pid))
      else if !k.running then Emit(n, Error(Exited))
      else if !k.assigns then n.(stage := Retiring(false))
      else Emit(n.(prepared := Some(p.(inJob := true)), job := n.job + {p.pid}, active := n.active + {p.pid}),
                Assigned(p.id, p.pid))
  }

  function OnRequest(n: Native, c: Command, k: Kernel): Native {
    match c
    case Prepare(_, _) => OnPrepare(n, c, k)
    case Assign(_) => OnAssign(n, c, k)
    case Close => n.(stage := Retiring(true))
    case Bind => Emit(n, Error(Protocol)).(violation := Some(BadRequest))
  }

  /** The helper reads its next line, if the manager has written one. */
  function Reads(s: Sys, k: Kernel): Sys {
    if s.native.read >= |s.manager.written| then s
    else
      var c := s.manager.written[s.native.read];
      var n := s.native.(read := s.native.read + 1);
      match s.native.stage
      case Unbound => s.(native := OnFirstLine(n, c, k))
      case Serving => s.(native := OnRequest(n, c, k))
      case _ => s
  }

  /** The manager's end of the pipe is closed and everything written was read. */
  function EndOfInput(s: Sys): Sys {
    if s.native.read < |s.manager.written| then s
    else
      match s.native.stage
      case Unbound => s.(native := s.native.(stage := Gone))
      case Serving => s.(native := s.native.(stage := Retiring(true)))
      case _ => s
  }

  /** The helper polls its terminated job and leaves only once it is empty; a clean close is acknowledged. */
  function Retire(s: Sys): Sys {
    if s.native.stage.Retiring? && s.native.active == {} then
      s.(native := (if s.native.stage.ok then Emit(s.native, Retired) else s.native).(stage := Gone))
    else s
  }

  /** A process in the job starts another, which the job holds too. */
  function Spawn(n: Native, pid: nat): Native {
    if n.active == {} then n else n.(active := n.active + {pid})
  }

  datatype Event =
    | HelperStarts
    | HelperReads(kernel: Kernel)
    | HelperSeesEnd
    | HelperRetires
    | HelperDies
    | ProcessExits(pid: nat)
    | ProcessSpawns(pid: nat)
    | ManagerHears
    | ManagerFails(reason: string)
    | ManagerSeesExit
    | ManagerDisposes
    | GraceOver
    | PipeBreaks

  function Next(s: Sys, e: Event): Sys {
    match e
    case HelperStarts => if s.native.stage.Starting? then s.(native := Emit(s.native, Ready).(stage := Unbound)) else s
    case HelperReads(k) => Reads(s, k)
    case HelperSeesEnd => EndOfInput(s)
    case HelperRetires => Retire(s)
    case HelperDies => s.(native := s.native.(stage := Gone, active := {}))
    case ProcessExits(pid) => s.(native := s.native.(active := s.native.active - {pid}))
    case ProcessSpawns(pid) => s.(native := Spawn(s.native, pid))
    case ManagerHears =>
      if s.got < |s.native.emitted| then
        s.(manager := OnReply(s.manager, Admitted(s.native.emitted[s.got])), got := s.got + 1)
      else s
    case ManagerFails(reason) => s.(manager := Fail(s.manager, reason))
    case ManagerSeesExit => if s.native.stage.Gone? then s.(manager := OnExit(s.manager)) else s
    case ManagerDisposes => s.(manager := OnDispose(s.manager))
    case GraceOver => s.(manager := OnGraceOver(s.manager))
    case PipeBreaks => s.(manager := s.manager.(pipeBroken := true))
  }

  function Run(s: Sys, es: seq<Event>): Sys
    decreases |es|
  {
    if es == [] then s else Run(Next(s, es[0]), es[1..])
  }

  // --- the invariant --------------------------------------------------------

  function Script(pid: nat): seq<Command> {
    [Bind, Prepare(1, pid), Assign(1)]
  }

  /** The manager follows its script in order; a close, if any, comes last. */
  ghost predicate FollowsScript(w: seq<Command>, pid: nat) {
    forall i :: 0 <= i < |w| ==> (w[i] == Close && i == |w| - 1) || (i < 3 && w[i] == Script(pid)[i])
  }

  predicate Open(w: seq<Command>) {
    w == [] || w[|w| - 1] != Close
  }

  function Rank(p: Phase): nat {
    match p
    case AwaitReady => 0
    case AwaitBound => 1
    case AwaitPrepared => 2
    case AwaitAssigned => 3
  }

  ghost predicate ManagerOk(m: Helper) {
    && Sound(m) && FollowsScript(m.written, m.pid)
    && (m.outcome.None? ==> |m.written| == Rank(m.phase) && Open(m.written))
    && (m.member ==> Open(m.written) && |m.written| <= 3)
    && (forall i :: 0 <= i < |m.written| && m.written[i].Assign? ==> m.assignmentRequested)
    && (m.killed ==> !m.assignmentRequested && m.outcome.Some?)
    && (m.grace || m.forced ==> !m.member && m.outcome.Some? && (Close in m.written || m.pipeBroken))
    && m.settles == (if m.outcome.Some? then 1 else 0)
  }

  ghost predicate EmittedOk(n: Native, pid: nat) {
    forall i :: 0 <= i < |n.emitted| ==>
      && n.emitted[i] != Error(Protocol)
      && (n.emitted[i].Assigned? ==> n.job == {pid})
      && (n.emitted[i].Retired? ==> n.stage.Gone? && n.active == {})
  }

  ghost predicate NativeOk(n: Native, w: seq<Command>, pid: nat) {
    && n.read <= |w|
    && (n.stage.Starting? || n.stage.Unbound? ==> n.read == 0)
    && (n.stage.Serving? ==> n.read >= 1 && w[0] == Bind)
    && (n.prepared.Some? ==> n.read >= 2 && n.prepared.value.id == 1 && n.prepared.value.pid == pid)
    && n.job == (if n.prepared.Some? && n.prepared.value.inJob then {pid} else {})
    && (n.active != {} ==> n.job == {pid})
    && (n.violation.Some? ==> n.violation == Some(FirstLine) || n.violation == Some(BadPid))
    && (n.violation == Some(FirstLine) ==> w == [Close])
    && (n.violation == Some(BadPid) ==> pid == 0 || pid > MAX_U32)
  }

  ghost predicate Inv(s: Sys) {
    && ManagerOk(s.manager) && NativeOk(s.native, s.manager.written, s.manager.pid) && EmittedOk(s.native, s.manager.pid)
    && s.got <= |s.native.emitted|
    && (s.manager.outcome == Some(Resolved) ==> s.native.job == {s.manager.pid})
  }

  lemma WritingKeepsScript(w: seq<Command>, pid: nat, c: Command)
    requires FollowsScript(w, pid) && Open(w) && (c == Close || (|w| < 3 && c == Script(pid)[|w|]))
    ensures FollowsScript(w + [c], pid)
  {
    forall i | 0 <= i < |w + [c]| ensures ((w + [c])[i] == Close && i == |w + [c]| - 1) || (i < 3 && (w + [c])[i] == Script(pid)[i])
    {
      if i < |w| {
        assert (w + [c])[i] == w[i];
      }
    }
  }

  lemma FailKeepsManager(m: Helper, reason: string)
    requires ManagerOk(m)
    ensures ManagerOk(Fail(m, reason))
  {
    hide FollowsScript;
  }

  /** A reply in turn moves the phase on and writes the next command of the script, or fails if it cannot be written. */
  lemma AdvanceKeepsManager(m: Helper, phase: Phase)
    requires ManagerOk(m) && m.outcome.None? && Rank(phase) == Rank(m.phase) + 1
    ensures
      var m' := Write(m.(phase := phase, assignmentRequested := phase.AwaitAssigned?), Script(m.pid)[Rank(m.phase)]);
      ManagerOk(m')
  {
    WritingKeepsScript(m.written, m.pid, Script(m.pid)[Rank(m.phase)]);
    hide FollowsScript;
  }

  lemma ReplyKeepsManager(m: Helper, r: Option<Reply>)
    requires ManagerOk(m)
    ensures ManagerOk(OnReply(m, r))
  {
    hide FollowsScript, Fail, Write;
    FailKeepsManager(m, "control identity or protocol differs");
    FailKeepsManager(m, "helper refused");
    FailKeepsManager(m, "unexpected control reply");
    if m.outcome.None? {
      match m.phase
      case AwaitReady => AdvanceKeepsManager(m, AwaitBound);
      case AwaitBound => AdvanceKeepsManager(m, AwaitPrepared);
      case AwaitPrepared => AdvanceKeepsManager(m, AwaitAssigned);
      case AwaitAssigned =>
    }
  }

  predicate Extends(m: Helper, m': Helper) {
    m'.pid == m.pid && m.written <= m'.written
  }

  /** A failure writes nothing and resolves nothing. */
  lemma FailFrame(m: Helper, reason: string)
    ensures Extends(m, Fail(m, reason)) && (m.outcome.None? ==> Fail(m, reason).outcome != Some(Resolved))
  {
  }

  lemma WriteFrame(m: Helper, phase: Phase, requested: bool, c: Command)
    requires m.outcome.None?
    ensures
      var m' := Write(m.(phase := phase, assignmentRequested := requested), c);
      Extends(m, m') && m'.outcome != Some(Resolved)
  {
    hide Fail;
    FailFrame(m.(phase := phase, assignmentRequested := requested), "control write failed");
  }

  /** A reply appends to what was written at most, and only an assignment reply resolves. */
  lemma ReplyFrame(m: Helper, r: Option<Reply>)
    ensures Extends(m, OnReply(m, r))
    ensures OnReply(m, r).outcome == Some(Resolved) && m.outcome.None? ==> r.Some? && r.value.Assigned?
    ensures m.outcome.Some? ==> OnReply(m, r) == m
  {
    hide Fail, Write;
    FailFrame(m, "control identity or protocol differs");
    FailFrame(m, "helper refused");
    FailFrame(m, "unexpected control reply");
    if m.outcome.None? {
      WriteFrame(m, AwaitBound, m.assignmentRequested, Bind);
      WriteFrame(m, AwaitPrepared, m.assignmentRequested, Prepare(1, m.pid));
      WriteFrame(m, AwaitAssigned, true, Assign(1));
    }
  }

  lemma DisposeKeepsManager(m: Helper)
    requires ManagerOk(m)
    ensures ManagerOk(OnDispose(m)) && Extends(m, OnDispose(m)) && (m.outcome.None? ==> OnDispose(m).outcome != Some(Resolved))
  {
    if m.member {
      WritingKeepsScript(m.written, m.pid, Close);
      assert Close in m.written + [Close];
    }
    hide FollowsScript;
  }

  lemma OtherManagerSteps(m: Helper, reason: string)
    requires ManagerOk(m)
    ensures ManagerOk(OnExit(m)) && ManagerOk(OnGraceOver(m)) && ManagerOk(m.(pipeBroken := true))
  {
    hide FollowsScript;
  }

  /** What a step of the manager alone may do. */
  predicate ManagerStep(m: Helper, m': Helper) {
    Extends(m, m') && (m.outcome.None? ==> m'.outcome != Some(Resolved)) && (m.outcome.Some? ==> m'.outcome == m.outcome)
  }

  lemma FailIsManagerStep(m: Helper, reason: string)
    ensures ManagerStep(m, Fail(m, reason))
  {
  }

  lemma ExitIsManagerStep(m: Helper)
    ensures ManagerStep(m, OnExit(m))
  {
    hide Fail;
    FailIsManagerStep(m.(exited := true), "helper exited before assignment");
  }

  lemma DisposeIsManagerStep(m: Helper)
    ensures ManagerStep(m, OnDispose(m)) && ManagerStep(m, OnGraceOver(m)) && ManagerStep(m, m.(pipeBroken := true))
  {
  }

  /** What reading one line may do to the helper's side. */
  ghost predicate ReadingOk(n: Native, n': Native, w: seq<Command>, pid: nat) {
    NativeOk(n', w, pid) && EmittedOk(n', pid) && n.job <= n'.job && n.emitted <= n'.emitted
  }

  lemma FirstLineKeepsNative(n: Native, w: seq<Command>, pid: nat, k: Kernel)
    requires NativeOk(n, w, pid) && EmittedOk(n, pid) && FollowsScript(w, pid)
    requires n.stage.Unbound? && n.read < |w|
    ensures ReadingOk(n, OnFirstLine(n.(read := n.read + 1), w[n.read], k), w, pid)
  {
    assert w[0] == Close || w[0] == Script(pid)[0];
  }

  lemma PrepareKeepsNative(n: Native, w: seq<Command>, pid: nat, k: Kernel)
    requires NativeOk(n, w, pid) && EmittedOk(n, pid) && FollowsScript(w, pid)
    requires n.stage.Serving? && n.read < |w| && w[n.read].Prepare?
    ensures ReadingOk(n, OnPrepare(n.(read := n.read + 1), w[n.read], k), w, pid)
  {
    assert w[n.read] == Script(pid)[n.read];
  }

  lemma AssignKeepsNative(n: Native, w: seq<Command>, pid: nat, k: Kernel)
    requires NativeOk(n, w, pid) && EmittedOk(n, pid) && FollowsScript(w, pid)
    requires n.stage.Serving? && n.read < |w| && w[n.read].Assign?
    ensures ReadingOk(n, OnAssign(n.(read := n.read + 1), w[n.read], k), w, pid)
  {
    assert w[n.read] == Script(pid)[n.read];
  }

  lemma RequestKeepsNative(n: Native, w: seq<Command>, pid: nat, k: Kernel)
    requires NativeOk(n, w, pid) && EmittedOk(n, pid) && FollowsScript(w, pid)
    requires n.stage.Serving? && n.read < |w|
    ensures ReadingOk(n, OnRequest(n.(read := n.read + 1), w[n.read], k), w, pid)
  {
    hide OnPrepare, OnAssign;
    assert w[n.read] == Close || w[n.read] == Script(pid)[n.read];
    match w[n.read]
    case Prepare(_, _) => PrepareKeepsNative(n, w, pid, k);
    case Assign(_) => AssignKeepsNative(n, w, pid, k);
    case _ =>
  }

  lemma ReadsKeepInv(s: Sys, k: Kernel)
    requires Inv(s)
    ensures Inv(Next(s, HelperReads(k)))
  {
    hide OnFirstLine, OnRequest, ManagerOk;
    var n, w, pid := s.native, s.manager.written, s.manager.pid;
    ManagerScript(s.manager);
    if n.read < |w| && n.stage.Unbound? {
      FirstLineKeepsNative(n, w, pid, k);
    } else if n.read < |w| && n.stage.Serving? {
      RequestKeepsNative(n, w, pid, k);
    }
  }

  lemma ManagerScript(m: Helper)
    requires ManagerOk(m)
    ensures FollowsScript(m.written, m.pid)
  {
  }

  lemma ReadsKeepManager(s: Sys, k: Kernel)
    ensures Reads(s, k).manager == s.manager && Reads(s, k).got == s.got
  {
  }

  lemma HelperStepsKeepInv(s: Sys, e: Event)
    requires Inv(s) && (e.HelperStarts? || e.HelperSeesEnd? || e.HelperRetires? || e.HelperDies? || e.ProcessExits? || e.ProcessSpawns?)
    ensures Inv(Next(s, e))
  {
  }

  /** The helper's side is untouched by what more the manager writes behind what was read. */
  lemma NativeFrame(n: Native, w: seq<Command>, w': seq<Command>, pid: nat)
    requires NativeOk(n, w, pid) && w <= w' && (n.violation == Some(FirstLine) ==> w' == w)
    ensures NativeOk(n, w', pid)
  {
  }

  /** Once it has written its close the manager is out of the set, and writes no more. */
  lemma NothingAfterClose(m: Helper, m': Helper)
    requires ManagerOk(m) && ManagerOk(m') && m.written == [Close] && m.written <= m'.written && m'.pid == m.pid
    ensures m'.written == m.written
  {
    assert m'.written[0] == Close;
    assert m'.written[0] != Script(m.pid)[0];
  }

  lemma ManagerStepKeepsInv(s: Sys, m: Helper)
    requires Inv(s) && ManagerOk(m) && ManagerStep(s.manager, m)
    ensures Inv(s.(manager := m))
  {
    if s.manager.written == [Close] {
      NothingAfterClose(s.manager, m);
    }
    NativeFrame(s.native, s.manager.written, m.written, m.pid);
    hide NativeOk, ManagerOk, EmittedOk;
  }

  lemma HearingKeepsInv(s: Sys)
    requires Inv(s) && s.got < |s.native.emitted|
    ensures Inv(Next(s, ManagerHears))
  {
    var r := Admitted(s.native.emitted[s.got]);
    var m := OnReply(s.manager, r);
    ReplyKeepsManager(s.manager, r);
    ReplyFrame(s.manager, r);
    if s.manager.written == [Close] {
      NothingAfterClose(s.manager, m);
    }
    NativeFrame(s.native, s.manager.written, m.written, m.pid);
    hide NativeOk, ManagerOk, OnReply;
  }

  lemma NextKeepsInv(s: Sys, e: Event)
    requires Inv(s)
    ensures Inv(Next(s, e))
  {
    hide NativeOk, ManagerOk, EmittedOk, Reads, Fail, OnExit, OnDispose, OnGraceOver, OnReply;
    match e
    case HelperReads(k) => ReadsKeepInv(s, k);
    case ManagerHears =>
      if s.got < |s.native.emitted| {
        HearingKeepsInv(s);
      }
    case ManagerFails(reason) =>
      FailKeepsManager(s.manager, reason);
      FailIsManagerStep(s.manager, reason);
      ManagerStepKeepsInv(s, Fail(s.manager, reason));
    case ManagerDisposes =>
      DisposeKeepsManager(s.manager);
      DisposeIsManagerStep(s.manager);
      ManagerStepKeepsInv(s, OnDispose(s.manager));
    case ManagerSeesExit =>
      OtherManagerSteps(s.manager, "");
      ExitIsManagerStep(s.manager);
      ManagerStepKeepsInv(s, OnExit(s.manager));
    case GraceOver =>
      OtherManagerSteps(s.manager, "");
      DisposeIsManagerStep(s.manager);
      ManagerStepKeepsInv(s, OnGraceOver(s.manager));
    case PipeBreaks =>
      OtherManagerSteps(s.manager, "");
      DisposeIsManagerStep(s.manager);
      ManagerStepKeepsInv(s, s.manager.(pipeBroken := true));
    case _ => HelperStepsKeepInv(s, e);
  }

  lemma {:induction false} RunKeepsInv(s: Sys, es: seq<Event>)
    requires Inv(s)
    ensures Inv(Run(s, es))
    decreases |es|
  {
    if es != [] {
      NextKeepsInv(s, es[0]);
      RunKeepsInv(Next(s, es[0]), es[1..]);
    }
  }

  lemma StartInv(pid: nat)
    ensures Inv(Start(pid))
  {
  }

  // --- theorems -------------------------------------------------------------

  /**
   * Whatever fails, dies or is disposed of in between, the helper never answers this
   * manager with a protocol error; and if it refuses a line, that line was the close of a
   * disposal before the bind, or a process id that does not fit 32 bits.
   */
  lemma HelperSeesNoProtocolError(pid: nat, es: seq<Event>)
    ensures
      var s := Run(Start(pid), es);
      && Error(Protocol) !in s.native.emitted
      && (s.native.violation.Some? ==>
            (s.native.violation == Some(FirstLine) && s.manager.written == [Close])
            || (s.native.violation == Some(BadPid) && (pid == 0 || pid > MAX_U32)))
  {
    StartInv(pid);
    RunKeepsInv(Start(pid), es);
    PidStays(Start(pid), es);
  }

  /** What every event leaves of the manager: who it is, what it wrote, how its promise was settled. */
  lemma NextFrame(s: Sys, e: Event)
    ensures Extends(s.manager, Next(s, e).manager)
    ensures s.manager.outcome.Some? ==> Next(s, e).manager.outcome == s.manager.outcome
  {
    hide Fail, OnExit, OnDispose, OnGraceOver, OnReply, Reads;
    match e
    case HelperReads(k) => ReadsKeepManager(s, k);
    case ManagerHears =>
      if s.got < |s.native.emitted| {
        ReplyFrame(s.manager, Admitted(s.native.emitted[s.got]));
      }
    case ManagerFails(reason) => FailIsManagerStep(s.manager, reason);
    case ManagerSeesExit => ExitIsManagerStep(s.manager);
    case ManagerDisposes => DisposeIsManagerStep(s.manager);
    case GraceOver => DisposeIsManagerStep(s.manager);
    case PipeBreaks => DisposeIsManagerStep(s.manager);
    case _ =>
  }

  lemma {:induction false} PidStays(s: Sys, es: seq<Event>)
    ensures Run(s, es).manager.pid == s.manager.pid
    decreases |es|
  {
    hide Next;
    if es != [] {
      NextFrame(s, es[0]);
      PidStays(Next(s, es[0]), es[1..]);
    }
  }

  /** Of the next line, the helper refuses exactly a close in place of the bind and a prepare whose process id does not fit. */
  lemma HelperRefusesExactlyWhen(s: Sys, k: Kernel)
    requires Inv(s) && s.native.violation.None? && s.native.read < |s.manager.written|
    requires s.native.stage.Unbound? || s.native.stage.Serving?
    ensures
      var c := s.manager.written[s.native.read];
      Next(s, HelperReads(k)).native.violation.Some?
      <==> (s.native.stage.Unbound? && c == Close)
           || (s.native.stage.Serving? && c == Prepare(1, s.manager.pid) && (s.manager.pid == 0 || s.manager.pid > MAX_U32))
  {
    var c := s.manager.written[s.native.read];
    assert c == Close || c == Script(s.manager.pid)[s.native.read];
  }

  /** The promise resolves only when the helper's job got this process and no other. */
  lemma ResolvesOnlyWhenTheJobHoldsIt(pid: nat, es: seq<Event>)
    requires Run(Start(pid), es).manager.outcome == Some(Resolved)
    ensures Run(Start(pid), es).native.job == {pid}
  {
    StartInv(pid);
    RunKeepsInv(Start(pid), es);
    PidStays(Start(pid), es);
  }

  /** A settled promise stays settled the same way, and was settled once. */
  lemma {:induction false} SettlesOnce(s: Sys, es: seq<Event>)
    requires Inv(s)
    ensures s.manager.outcome.Some? ==> Run(s, es).manager.outcome == s.manager.outcome
    ensures Run(s, es).manager.settles <= 1
    decreases |es|
  {
    hide Next;
    if es != [] {
      NextKeepsInv(s, es[0]);
      NextFrame(s, es[0]);
      SettlesOnce(Next(s, es[0]), es[1..]);
    }
  }

  /**
   * A failure kills only a helper that was never sent `assign-v1`; the one other kill comes
   * after the grace of a disposal that had tried to close it, its promise settled by then.
   */
  lemma NoKillOnceAssignIsWritten(pid: nat, es: seq<Event>)
    ensures
      var m := Run(Start(pid), es).manager;
      && (m.killed ==> Assign(1) !in m.written)
      && (m.forced ==> !m.member && m.outcome.Some? && (Close in m.written || m.pipeBroken))
  {
    StartInv(pid);
    RunKeepsInv(Start(pid), es);
  }

  /** The retirement acknowledgment means a job with nobody left in it, descendants included, then and ever after. */
  lemma RetiredMeansEmpty(pid: nat, es: seq<Event>)
    requires Retired in Run(Start(pid), es).native.emitted
    ensures Run(Start(pid), es).native.active == {} && Run(Start(pid), es).native.stage == Gone
  {
    StartInv(pid);
    RunKeepsInv(Start(pid), es);
  }

  /** The state once the helper is bound and the prepare is on its way. */
  function BoundAt(pid: nat): Sys {
    Sys(Spawned(pid).(phase := AwaitPrepared, written := [Bind, Prepare(1, pid)]), 2,
        Native(Serving, 1, None, {}, {}, [Ready, Bound], None))
  }

  lemma HandshakeBinds(pid: nat, k: Kernel)
    requires k.parentAlive
    ensures Next(Next(Next(Next(Start(pid), HelperStarts), ManagerHears), HelperReads(k)), ManagerHears) == BoundAt(pid)
  {
    var s := Next(Next(Start(pid), HelperStarts), ManagerHears);
    assert s.manager.written == [Bind] && s.native.emitted == [Ready];
    assert Next(Next(s, HelperReads(k)), ManagerHears).manager.written == [Bind, Prepare(1, pid)];
  }

  lemma HandshakeAssigns(pid: nat, k: Kernel)
    requires 0 < pid <= MAX_U32 && k.created > 0 && k.opens && k.birthKnown && k.running && k.assigns
    ensures
      var s := Next(Next(Next(Next(BoundAt(pid), HelperReads(k)), ManagerHears), HelperReads(k)), ManagerHears);
      s.manager.outcome == Some(Resolved) && s.native.active == {pid}
  {
    var s := Next(Next(BoundAt(pid), HelperReads(k)), ManagerHears);
    assert s.native.prepared == Some(Prep(1, pid, false)) && s.native.emitted == [Ready, Bound, Prepared(1, pid, k.created)];
    assert s.manager.written == [Bind, Prepare(1, pid), Assign(1)];
  }

  /** With an operating system that cooperates, the handshake resolves with the process in the job. */
  lemma CooperativeHandshakeResolves(pid: nat, k: Kernel)
    requires 0 < pid <= MAX_U32 && k.parentAlive && k.opens && k.birthKnown && k.created > 0 && k.running && k.assigns
    ensures
      var s := Run(Start(pid), [HelperStarts, ManagerHears, HelperReads(k), ManagerHears, HelperReads(k), ManagerHears,
                                HelperReads(k), ManagerHears]);
      s.manager.outcome == Some(Resolved) && s.native.active == {pid}
  {
    HandshakeBinds(pid, k);
    HandshakeAssigns(pid, k);
    var es := [HelperStarts, ManagerHears, HelperReads(k), ManagerHears, HelperReads(k), ManagerHears, HelperReads(k), ManagerHears];
    var half := [HelperReads(k), ManagerHears, HelperReads(k), ManagerHears];
    assert es[4..] == half;
    FourSteps(Start(pid), es);
    FourSteps(BoundAt(pid), half);
    assert half[4..] == [];
  }

  lemma FourSteps(s: Sys, es: seq<Event>)
    requires |es| >= 4
    ensures Run(s, es) == Run(Next(Next(Next(Next(s, es[0]), es[1]), es[2]), es[3]), es[4..])
  {
    TwoSteps(s, es);
    TwoSteps(Next(Next(s, es[0]), es[1]), es[2..]);
    assert es[2..][2..] == es[4..];
  }

  lemma TwoSteps(s: Sys, es: seq<Event>)
    requires |es| >= 2
    ensures Run(s, es) == Run(Next(Next(s, es[0]), es[1]), es[2..])
  {
    assert es[1..][1..] == es[2..];
  }
}
