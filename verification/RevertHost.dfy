/** The host object that runs checkpoint reverts, written as its source runs: field by field, phase by phase. */
module RevertHost {
  import opened Wrappers
  import opened RevertJournal

  class Host {
    var journal: Journal
    var attempts: map<string, Attempt>
    var log: seq<Entry>
    var transcripts: map<string, seq<Item>>

    ghost function View(): World
      reads this
    {
      World(journal, attempts, log, transcripts)
    }

    constructor (items: map<string, seq<Item>>)
      ensures Initial(View()) && transcripts == items
    {
      journal, attempts, log, transcripts := map[], map[], [], items;
    }

    /** Records one issued side effect. */
    method Issue(key: string, action: Action)
      modifies this`log
      ensures log == old(log) + [Entry(key, Lookup(journal, key), action)]
    {
      log := log + [Entry(key, Lookup(journal, key), action)];
    }

    /**
     * One phase write: the durable row first, then the caller's copy. A refused write
     * changes neither, and reports whether the error reads as a timeout.
     */
    method BumpPhase(key: string, current: Row, u: Update, write: WriteResult) returns (ok: bool, row: Row, timedOut: bool)
      modifies this`journal
      ensures ok <==> write.Accepted? && Writable(old(journal), key)
      ensures ok ==> key in old(journal) && row == Merge(current, u)
                     && journal == old(journal)[key := Merge(old(journal)[key], u)]
      ensures !ok ==> row == current && journal == old(journal) && timedOut == (write.WriteError? && write.timedOut)
    {
      ok, row, timedOut := false, current, false;
      match write
      case WriteError(t) => timedOut := t;
      case Accepted =>
        if key in journal && !Settled(journal[key].outcome) {
          journal := journal[key := Merge(journal[key], u)];
          ok, row := true, Merge(current, u);
        }
    }

    /** Entry guards, the missing-checkpoint settle and the claim. */
    method BeginRevert(input: Input, e: Entrance) returns (reply: Reply)
      modifies this
      ensures (View(), reply) == Begin(old(View()), input, e)
    {
      var t, k := input.threadId, input.key;
      var items := if t in transcripts then transcripts[t] else [];
      if t in attempts { return Waiting; }
      if e.refused { return Refused; }
      if !HasItem(items, input.itemId) {
        if k !in journal { return Noop; }
        if !TargetMatches(journal[k], input) { return Conflict; }
        if Settled(journal[k].outcome) { return Replayed(journal[k]); }
        var ok, _, _ := BumpPhase(k, journal[k], SETTLED_NOOP, e.write);
        return if ok then Noop else Threw;
      }
      if k in journal {
        if !TargetMatches(journal[k], input) { return Conflict; }
        if Settled(journal[k].outcome) { return Replayed(journal[k]); }
      } else {
        if e.write.WriteError? { return Threw; }
        var location := if input.explicitLocation.Some? then input.explicitLocation else e.resolvedLocation;
        journal := journal[k := Row(t, input.itemId, CountTurns(items, input.itemId), location, e.config, None,
                                    ProviderPending, FilesPending, TruncatePending, [], Running)];
      }
      attempts := attempts[t := Attempt(k, journal[k], ProviderEntry(journal[k]))];
      return Started;
    }

    method Goto(t: string, key: string, row: Row, pc: Pc)
      modifies this`attempts
      ensures attempts == old(attempts)[t := Attempt(key, row, pc)]
    {
      attempts := attempts[t := Attempt(key, row, pc)];
    }

    /** The attempt returns or throws to its caller. */
    method Leave(t: string)
      modifies this`attempts
      ensures attempts == old(attempts) - {t}
    {
      attempts := attempts - {t};
    }

    /** A journal write outside any try block: a refusal ends the attempt. */
    method WriteThen(t: string, u: Update, write: WriteResult, next: Option<Pc>)
      requires t in attempts
      modifies this`attempts, this`journal
      ensures
        var a := old(attempts[t]);
        if write.Accepted? && Writable(old(journal), a.key)
        then && a.key in old(journal) && journal == old(journal)[a.key := Merge(old(journal)[a.key], u)]
             && attempts == (if next.Some? then old(attempts)[t := Attempt(a.key, Merge(a.row, u), next.value)]
                             else old(attempts) - {t})
        else journal == old(journal) && attempts == old(attempts) - {t}
    {
      var a := attempts[t];
      var ok, row, _ := BumpPhase(a.key, a.row, u, write);
      if ok && next.Some? { Goto(t, a.key, row, next.value); } else { Leave(t); }
    }

    /** Journals a planned anchor; a refused write goes on in the catch block, anchor in hand. */
    method WriteAnchor(t: string, anchor: string, env: Env)
      requires t in attempts && attempts[t].pc == PlanWrite(anchor)
      modifies this`attempts, this`journal, this`log
      ensures View() == Advance(old(View()), t, env)
    {
      var a := attempts[t];
      var refused := Entry(a.key, Lookup(journal, a.key), AnchorWriteRefused);
      var ok, row, timedOut := BumpPhase(a.key, a.row, NO_UPDATE.(anchor := Some(anchor)), env.write);
      if ok {
        Goto(t, a.key, row, RestoreCall(anchor));
      } else {
        log := log + [refused];
        Goto(t, a.key, a.row, ProviderRefused(timedOut, Some(anchor)));
      }
    }

    /** Journals the provider call that succeeded; a refused write goes on in the catch block. */
    method ConfirmProvider(t: string, env: Env)
      requires t in attempts && attempts[t].pc.ProviderWrite?
      modifies this`attempts, this`journal
      ensures View() == Advance(old(View()), t, env)
    {
      var a := attempts[t];
      var ok, row, timedOut := BumpPhase(a.key, a.row, NO_UPDATE.(provider := Some(ProviderCompleted)), env.write);
      if ok {
        Goto(t, a.key, row, FilesEntry(row));
      } else {
        Goto(t, a.key, a.row, ProviderRefused(timedOut, None));
      }
    }

    /** The provider steps of the attempt on `t`. */
    method StepProvider(t: string, env: Env)
      requires t in attempts && Phase(attempts[t].pc) == 0
      modifies this
      ensures View() == Advance(old(View()), t, env)
    {
      hide Merge, FilesEntry, Tail, HasItem;
      var a := attempts[t];
      var key, row := a.key, a.row;
      match a.pc
      case SkipNoTurns =>
        var u := NO_UPDATE.(provider := Some(ProviderSkippedNoTurns));
        WriteThen(t, u, env.write, Some(FilesEntry(Merge(row, u))));
      case PlanCall =>
        Issue(key, Plan(row.numTurns));
        Goto(t, key, row, PlanWait);
      case PlanWait =>
        match env.plan {
          case Planned(anchor) => Goto(t, key, row, PlanWrite(anchor));
          case Unsupported => Goto(t, key, row, RelativeMark);
          case PlanError(timedOut) => Goto(t, key, row, ProviderRefused(timedOut, None));
        }
      case PlanWrite(anchor) =>
        WriteAnchor(t, anchor, env);
      case ProviderRefused(timedOut, unwritten) =>
        var u := NO_UPDATE.(provider := Some(ErrorPhase(timedOut)));
        var next := if unwritten.Some? && !timedOut then RestoreCall(unwritten.value) else FilesEntry(Merge(row, u));
        WriteThen(t, u, env.write, Some(next));
      case RestoreCall(anchor) =>
        Issue(key, Restore(anchor));
        Goto(t, key, row, RestoreWait);
      case RelativeMark =>
        WriteThen(t, NO_UPDATE.(provider := Some(ProviderAmbiguous)), env.write, Some(RelativeCall));
      case RelativeCall =>
        Issue(key, Rollback(row.numTurns));
        Goto(t, key, row, RelativeWait);
      case RestoreWait =>
        Goto(t, key, row, if env.call.Succeeded? then ProviderWrite else ProviderRefused(env.call.timedOut, None));
      case RelativeWait =>
        Goto(t, key, row, if env.call.Succeeded? then ProviderWrite else ProviderRefused(env.call.timedOut, None));
      case ProviderWrite =>
        ConfirmProvider(t, env);
    }

    /** The file-restore steps of the attempt on `t`. */
    method StepFiles(t: string, env: Env)
      requires t in attempts && Phase(attempts[t].pc) == 1
      modifies this
      ensures View() == Advance(old(View()), t, env)
    {
      var a := attempts[t];
      var key, row := a.key, a.row;
      match a.pc
      case FilesDecide =>
        if row.location.None? || !env.intact {
          var u := NO_UPDATE.(files := Some(FilesSkippedNoLocation));
          WriteThen(t, u, env.write, Some(TruncateEntry(Merge(row, u))));
        } else {
          Issue(key, RestoreFiles(row.location.value));
          Goto(t, key, row, FilesWait);
        }
      case FilesWait =>
        Goto(t, key, row, if env.call.Succeeded? then FilesWrite else FilesRefused);
      case FilesWrite =>
        var ok, row2, _ := BumpPhase(key, row, NO_UPDATE.(files := Some(FilesCompleted)), env.write);
        if ok {
          Goto(t, key, row2, TruncateEntry(row2));
        } else {
          Goto(t, key, row, FilesRefused);
        }
      case FilesRefused =>
        WriteThen(t, NO_UPDATE.(files := Some(FilesFailed), outcome := Some(Failed)), env.write, None);
    }

    /** The truncation and settle steps of the attempt on `t`. */
    method StepTruncate(t: string, env: Env)
      requires t in attempts && Phase(attempts[t].pc) == 2
      modifies this
      ensures View() == Advance(old(View()), t, env)
    {
      var a := attempts[t];
      var key, row := a.key, a.row;
      match a.pc
      case Cut =>
        if env.cutThrows {
          Leave(t);
        } else {
          var thread := row.threadId;
          var items := if thread in transcripts then transcripts[thread] else [];
          var tail := Tail(items, row.itemId);
          Issue(key, Truncate(tail != []));
          if HasItem(items, row.itemId) {
            transcripts := transcripts[thread := Upto(items, row.itemId)];
          }
          Goto(t, key, row, CutWrite(tail != [], EndsTurnIds(tail)));
        }
      case CutWrite(truncated, anchors) =>
        WriteThen(t, NO_UPDATE.(truncate := Some(if truncated then TruncateCompleted else TruncateNoop),
                  removed := Some(anchors)), env.write, Some(Finish));
      case Finish =>
        WriteThen(t, NO_UPDATE.(outcome := Some(OutcomeOf(row.provider))), env.write, None);
    }

    method Step(t: string, env: Env)
      requires t in attempts
      modifies this
      ensures View() == Next(old(View()), DoAdvance(t, env))
    {
      if Phase(attempts[t].pc) == 0 {
        StepProvider(t, env);
      } else if Phase(attempts[t].pc) == 1 {
        StepFiles(t, env);
      } else {
        StepTruncate(t, env);
      }
    }

    method AbortAttempt(t: string)
      modifies this`attempts
      ensures View() == Next(old(View()), Abort(t))
    {
      Leave(t);
    }

    /** Process death: every in-memory row is lost, the journal and the transcripts stay. */
    method Die()
      modifies this`attempts
      ensures View() == Next(old(View()), Crash)
    {
      attempts := map[];
    }

    /** The database opens in a new process; retention deletes one row, unless it is running. */
    method ReopenExpiring(k: string)
      modifies this
      ensures View() == Next(old(View()), Expire(k))
    {
      Die();
      if k in journal && journal[k].outcome != Running {
        Issue(k, Purged);
        journal := journal - {k};
      }
    }
  }

  /** Which phase a step belongs to. */
  function Phase(pc: Pc): nat {
    match pc
    case FilesDecide => 1
    case FilesWait => 1
    case FilesWrite => 1
    case FilesRefused => 1
    case Cut => 2
    case CutWrite(_, _) => 2
    case Finish => 2
    case _ => 0
  }
}
