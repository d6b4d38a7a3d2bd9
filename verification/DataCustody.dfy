/**
 * How one host takes, keeps and gives up the database under the data fence, one statement
 * at a time: a failure or the death of the process can fall between any two.
 */
module DataCustody {

  /** How a host ends: its constructor failed, or it served and was closed. */
  datatype End = Failed | Closed

  /**
   * What has just been done. `Unwinding` is the constructor's catch block, `Retained` a
   * failed constructor whose close was refused, `Lowering` and `Releasing` what remains
   * after the handle is closed.
   */
  datatype Stage =
    | Starting | Fenced | Flagged | Building | Built
    | Unwinding | Retained
    | Lowering(end: End) | Releasing(end: End) | Over(end: End)
    | Dead

  /** `fence`: this process holds the fence; `handle`: its SQLite handle is open; `flag`: its `databaseOpen`. */
  datatype Custody = Custody(stage: Stage, path: bool, fence: bool, flag: bool, handle: bool)

  function Fresh(path: bool): Custody {
    Custody(Starting, path, false, false, false)
  }

  datatype Move =
    | Acquire(granted: bool)
    | RaiseFlag
    | OpenHandle(ok: bool)
    | FinishBuild(ok: bool)
    | CloseHandle(refused: bool)
    | LowerFlag
    | ReleaseFence
    | Die

  /** Closes the handle, unless a drain hook refuses, which it can only while one is open. */
  function HandleClosed(c: Custody, refused: bool, end: End, kept: Stage): Custody {
    if c.handle && refused then c.(stage := kept) else c.(stage := Lowering(end), handle := false)
  }

  /** `joined`: the supervisor and every accepted revert have finished. */
  function Step(c: Custody, m: Move, joined: bool): Custody {
    match m
    case Acquire(granted) =>
      if !c.stage.Starting? then c
      else if !c.path then c.(stage := Fenced)
      else if granted then c.(stage := Fenced, fence := true)
      else c.(stage := Over(Failed))
    case RaiseFlag => if c.stage.Fenced? then c.(stage := Flagged, flag := true) else c
    case OpenHandle(ok) =>
      if !c.stage.Flagged? then c else if ok then c.(stage := Building, handle := true) else c.(stage := Unwinding)
    case FinishBuild(ok) => if c.stage.Building? then c.(stage := if ok then Built else Unwinding) else c
    case CloseHandle(refused) =>
      if c.stage.Unwinding? || c.stage.Retained? then HandleClosed(c, refused, Failed, Retained)
      else if c.stage.Built? && joined then HandleClosed(c, refused, Closed, Built)
      else c
    case LowerFlag => if c.stage.Lowering? then c.(stage := Releasing(c.stage.end), flag := false) else c
    case ReleaseFence => if c.stage.Releasing? then c.(stage := Over(c.stage.end), fence := false) else c
    case Die => Custody(Dead, c.path, false, false, false)
  }

  /** Between taking the fence and letting it go. */
  predicate Holding(s: Stage) {
    !s.Starting? && !s.Over? && !s.Dead?
  }

  /** What a host holds at each stage: the handle within the flag, the flag within the fence. */
  predicate Nested(c: Custody) {
    && (c.fence <==> c.path && Holding(c.stage))
    && (c.flag <==> Holding(c.stage) && !c.stage.Fenced? && !c.stage.Releasing?)
    && (c.stage.Building? || c.stage.Built? || c.stage.Retained? ==> c.handle)
    && (c.handle ==> c.stage.Building? || c.stage.Built? || c.stage.Unwinding? || c.stage.Retained?)
  }

  lemma StepKeepsNested(c: Custody, m: Move, joined: bool)
    requires Nested(c)
    ensures Nested(Step(c, m, joined))
  {
  }

  /** Several statements in a row, by a host that has joined or not. */
  function Steps(c: Custody, ms: seq<Move>, joined: bool): Custody
    decreases |ms|
  {
    if ms == [] then c else Steps(Step(c, ms[0], joined), ms[1..], joined)
  }

  /** Constructed, and perhaps closed since. */
  predicate Serving(s: Stage) {
    s.Built? || (s.Lowering? && s.end.Closed?) || (s.Releasing? && s.end.Closed?) || (s.Over? && s.end.Closed?)
  }
}
