/**
 * Two places where the revert does less than its comment promises ("every phase
 * write precedes its side effect"), each with a run that shows it and the exact
 * condition under which the promise holds.
 */
module RevertGaps {
  import opened Wrappers
  import opened RevertJournal
  import opened RevertSafety

  // --- 1. a restore whose anchor never reached the journal ------------------

  /** Whether the anchor write of the key's latest plan was refused. */
  function RefusedSincePlan(log: seq<Entry>, key: string): bool {
    if log == [] then false
    else
      var e := log[|log| - 1];
      if e.key == key && e.action.Plan? then false
      else if e.key == key && e.action.AnchorWriteRefused? then true
      else RefusedSincePlan(log[..|log| - 1], key)
  }

  function AfterAction(refused: bool, a: Action): bool {
    if a.Plan? then false else if a.AnchorWriteRefused? then true else refused
  }

  lemma RefusedAppend(log: seq<Entry>, e: Entry, key: string)
    ensures RefusedSincePlan(log + [e], key) ==
            if e.key == key then AfterAction(RefusedSincePlan(log, key), e.action) else RefusedSincePlan(log, key)
  {
    assert (log + [e])[..|log|] == log;
  }

  predicate PcRefusal(row: Row, pc: Pc, refused: bool) {
    && (row.anchor.Some? ==> !refused)
    && (pc.PlanWait? || pc.PlanWrite? ==> !refused)
    && (pc.ProviderRefused? && pc.unwritten.Some? ==> refused)
    && (pc.RestoreCall? && row.anchor.None? ==> refused)
  }

  predicate RestoreMarked(log: seq<Entry>, i: int)
    requires 0 <= i < |log|
  {
    log[i].action.Restore? ==>
      && log[i].journaled.Some?
      && (log[i].journaled.value.anchor == Some(log[i].action.anchor) <==> !RefusedSincePlan(log[..i], log[i].key))
  }

  ghost predicate RefusalInv(w: World) {
    && (forall k :: k in w.journal && w.journal[k].anchor.Some? ==> !RefusedSincePlan(w.log, k))
    && (forall t :: t in w.attempts ==>
          PcRefusal(w.attempts[t].row, w.attempts[t].pc, RefusedSincePlan(w.log, w.attempts[t].key)))
    && (forall i :: 0 <= i < |w.log| ==> RestoreMarked(w.log, i))
  }

  /** What a move means for the refusal marks of its own key. */
  predicate KeepsRefusal(row: Row, move: Move, refused: bool) {
    var row2 := if move.update.Some? then Merge(row, move.update.value) else row;
    var refused2 := if move.action.Some? then AfterAction(refused, move.action.value) else refused;
    && (row2.anchor.Some? ==> !refused2)
    && (move.next.Some? ==> PcRefusal(row2, move.next.value, refused2))
    && (move.action.Some? && move.action.value.Restore? ==> (row.anchor == Some(move.action.value.anchor) <==> !refused))
  }

  lemma MoveKeepsRefusal(row: Row, pc: Pc, env: Env, cut: (bool, seq<string>), m: Mode, refused: bool)
    requires RowMode(row, m) && PcInv(row, pc, m) && PcRefusal(row, pc, refused)
    ensures KeepsRefusal(row, Decide(row, pc, env, cut), refused)
  {
  }

  lemma AdvanceKeepsRefusal(w: World, t: string, env: Env)
    requires Inv(w) && RefusalInv(w) && t in w.attempts
    ensures RefusalInv(Advance(w, t, env))
  {
    assert AttemptInv(w, t);
    var a := w.attempts[t];
    assert KeyInv(w, a.key);
    AdvanceShape(w, t, env);
    var cut := CutResult(w, a);
    MoveKeepsRefusal(a.row, a.pc, env, cut, ModeOf(w.log, a.key), RefusedSincePlan(w.log, a.key));
    RefusalFrame(w, t, Decide(a.row, a.pc, env, cut), Advance(w, t, env));
  }

  lemma MovedRefusal(w: World, t: string, m: Move, w': World, key: string)
    requires t in w.attempts && Moved(w, t, m, w')
    ensures RefusedSincePlan(w'.log, key) ==
            if key == w.attempts[t].key && m.action.Some? then AfterAction(RefusedSincePlan(w.log, key), m.action.value)
            else RefusedSincePlan(w.log, key)
  {
    var a := w.attempts[t];
    if m.action.Some? {
      RefusedAppend(w.log, Entry(a.key, Some(a.row), m.action.value), key);
    }
  }

  lemma GrowingKeepsMarks(log: seq<Entry>, e: Entry)
    requires forall i :: 0 <= i < |log| ==> RestoreMarked(log, i)
    requires e.action.Restore? ==>
               e.journaled.Some? && (e.journaled.value.anchor == Some(e.action.anchor) <==> !RefusedSincePlan(log, e.key))
    ensures forall i :: 0 <= i < |log + [e]| ==> RestoreMarked(log + [e], i)
  {
    forall i | 0 <= i < |log + [e]| ensures RestoreMarked(log + [e], i)
    {
      if i < |log| {
        assert RestoreMarked(log, i);
        assert (log + [e])[..i] == log[..i];
      } else {
        assert (log + [e])[..i] == log;
      }
    }
  }

  lemma RefusalFrame(w: World, t: string, m: Move, w': World)
    requires Inv(w) && RefusalInv(w) && t in w.attempts && Moved(w, t, m, w')
    requires KeepsRefusal(w.attempts[t].row, m, RefusedSincePlan(w.log, w.attempts[t].key))
    ensures RefusalInv(w')
  {
    hide PcRefusal, RestoreMarked, PcInv;
    var a := w.attempts[t];
    assert AttemptInv(w, t);
    if m.action.Some? {
      GrowingKeepsMarks(w.log, Entry(a.key, Some(a.row), m.action.value));
    }
    forall k | k in w'.journal && w'.journal[k].anchor.Some? ensures !RefusedSincePlan(w'.log, k)
    {
      MovedRefusal(w, t, m, w', k);
    }
    forall t' | t' in w'.attempts
      ensures PcRefusal(w'.attempts[t'].row, w'.attempts[t'].pc, RefusedSincePlan(w'.log, w'.attempts[t'].key))
    {
      MovedRefusal(w, t, m, w', w'.attempts[t'].key);
      if t' != t {
        assert AttemptInv(w, t');
      }
    }
  }

  lemma ExpiredKeepsRefusal(w: World, k: string)
    requires RefusalInv(w)
    ensures RefusalInv(Expired(w, k))
  {
    var w' := Expired(w, k);
    if k in w.journal && w.journal[k].outcome != Running {
      var e := Entry(k, Some(w.journal[k]), Purged);
      GrowingKeepsMarks(w.log, e);
      forall key | key in w'.journal && w'.journal[key].anchor.Some? ensures !RefusedSincePlan(w'.log, key)
      {
        RefusedAppend(w.log, e, key);
      }
    }
  }

  lemma NextKeepsRefusal(w: World, e: Event)
    requires Inv(w) && RefusalInv(w)
    ensures RefusalInv(Next(w, e))
  {
    if e.DoAdvance? && e.threadId in w.attempts {
      AdvanceKeepsRefusal(w, e.threadId, e.env);
    } else if e.DoBegin? {
      BeginKeepsRefusal(w, e.input, e.entrance);
    } else if e.Expire? {
      ExpiredKeepsRefusal(w, e.key);
    }
  }

  lemma BeginKeepsRefusal(w: World, input: Input, e: Entrance)
    requires RefusalInv(w)
    ensures RefusalInv(Begin(w, input, e).0)
  {
    BeginShape(w, input, e);
    if Begin(w, input, e).0 != w {
      EnteredKeepsRefusal(w, input.threadId, input.key, Begin(w, input, e).0);
    }
  }

  lemma EntryRefusal(row: Row, refused: bool)
    requires row.anchor.Some? ==> !refused
    ensures PcRefusal(row, ProviderEntry(row), refused)
  {
  }

  lemma EnteredKeepsRefusal(w: World, t: string, k: string, w': World)
    requires RefusalInv(w) && Entered(w, t, k, w')
    ensures RefusalInv(w')
  {
    hide PcRefusal, ProviderEntry, RestoreMarked;
    EntryRefusal(w'.journal[k], RefusedSincePlan(w.log, k));
  }

  lemma {:induction false} RunKeepsRefusal(w: World, es: seq<Event>)
    requires Inv(w) && RefusalInv(w)
    ensures RefusalInv(Run(w, es))
    decreases |es|
  {
    if es != [] {
      NextKeepsInv(w, es[0]);
      NextKeepsRefusal(w, es[0]);
      RunKeepsRefusal(Next(w, es[0]), es[1..]);
    }
  }

  /**
   * Exactly when an absolute restore carries the anchor already in the journal: if and
   * only if the anchor write of the plan it follows was not refused.
   */
  lemma RestoreIsJournaledFirstExactlyWhen(w: World, es: seq<Event>, i: nat)
    requires Initial(w) && i < |Run(w, es).log| && Run(w, es).log[i].action.Restore?
    ensures
      var log := Run(w, es).log;
      && log[i].journaled.Some?
      && (log[i].journaled.value.anchor == Some(log[i].action.anchor) <==> !RefusedSincePlan(log[..i], log[i].key))
  {
    InitialInv(w);
    RunKeepsRefusal(w, es);
    assert RestoreMarked(Run(w, es).log, i);
  }

  // A concrete run: the anchor write is refused, the failure write is not.

  const CHECKPOINT := Item("cp", false, false)
  const TURN := Item("turn", true, true)
  const INPUT := Input("key", "thread", "cp", None)
  const START := World(map[], map[], [], map["thread" := [CHECKPOINT, TURN]])
  const ENTRANCE := Entrance(false, None, None, Accepted)
  const GOOD := Env(Planned("anchor"), Succeeded, Accepted, true, false)
  const REFUSED_WRITE := GOOD.(write := WriteError(false))
  const REFUSED_RUN := [DoBegin(INPUT, ENTRANCE), DoAdvance("thread", GOOD), DoAdvance("thread", GOOD),
                        DoAdvance("thread", REFUSED_WRITE), DoAdvance("thread", GOOD), DoAdvance("thread", GOOD)]

  function Claimed(location: Option<string>): Row {
    Row("thread", "cp", 1, location, None, None, ProviderPending, FilesPending, TruncatePending, [], Running)
  }

  lemma BeginClaims(w: World, location: Option<string>)
    requires "key" !in w.journal && "thread" !in w.attempts && w.transcripts == START.transcripts
    ensures Next(w, DoBegin(INPUT.(explicitLocation := location), ENTRANCE)) ==
            w.(journal := w.journal["key" := Claimed(location)],
               attempts := w.attempts["thread" := Attempt("key", Claimed(location), PlanCall)])
  {
    var items := [CHECKPOINT, TURN];
    assert items[0].id == "cp" && HasItem(items, "cp");
    assert items[1..] == [TURN] && Tail(items, "cp") == [TURN];
    assert [TURN][1..] == [] && EndsTurnIds([TURN]) == ["turn"];
    assert EndsTurnIds(items) == ["turn"];
    assert CountTurns(items, "cp") == 1;
  }

  lemma AnchorWriteIsRefused(w: World)
    requires Inv(w) && "thread" in w.attempts && w.attempts["thread"] == Attempt("key", Claimed(None), PlanCall)
    ensures
      var w' := Run(w, [DoAdvance("thread", GOOD), DoAdvance("thread", GOOD), DoAdvance("thread", REFUSED_WRITE)]);
      && Inv(w') && |w'.log| == |w.log| + 2 && "thread" in w'.attempts
      && w'.attempts["thread"] == Attempt("key", Claimed(None), ProviderRefused(false, Some("anchor")))
  {
    hide Next, Inv;
    var e, f := DoAdvance("thread", GOOD), DoAdvance("thread", REFUSED_WRITE);
    OneStep(w, "thread", GOOD, Move(None, Some(Plan(1)), Some(PlanWait)));
    OneStep(Next(w, e), "thread", GOOD, Move(None, None, Some(PlanWrite("anchor"))));
    OneStep(Next(Next(w, e), e), "thread", REFUSED_WRITE,
            Move(None, Some(AnchorWriteRefused), Some(ProviderRefused(false, Some("anchor")))));
    RunThree(w, e, e, f);
  }

  lemma RestoredAnyway(w: World)
    requires Inv(w) && "thread" in w.attempts
    requires w.attempts["thread"] == Attempt("key", Claimed(None), ProviderRefused(false, Some("anchor")))
    ensures
      var w' := Run(w, [DoAdvance("thread", GOOD), DoAdvance("thread", GOOD)]);
      w'.log == w.log + [Entry("key", Some(Claimed(None).(provider := ProviderFailed)), Restore("anchor"))]
  {
    hide Next, Inv;
    var e := DoAdvance("thread", GOOD);
    OneStep(w, "thread", GOOD, Move(Some(NO_UPDATE.(provider := Some(ProviderFailed))), None, Some(RestoreCall("anchor"))));
    OneStep(Next(w, e), "thread", GOOD, Move(None, Some(Restore("anchor")), Some(RestoreWait)));
    RunConcat(w, [e], [e]);
    RunOne(w, e);
    RunOne(Next(w, e), e);
  }

  lemma RunThree(w: World, e0: Event, e1: Event, e2: Event)
    ensures Run(w, [e0, e1, e2]) == Next(Next(Next(w, e0), e1), e2)
  {
    hide Next;
    assert [e0, e1, e2] == [e0] + ([e1] + [e2]);
    RunConcat(w, [e0], [e1] + [e2]);
    RunOne(w, e0);
    RunConcat(Next(w, e0), [e1], [e2]);
    RunOne(Next(w, e0), e1);
    RunOne(Next(Next(w, e0), e1), e2);
  }

  /** The counterexample: the run ends with a restore issued while the journal holds no anchor at all. */
  lemma UnjournaledRestoreHappens()
    ensures
      var log := Run(START, REFUSED_RUN).log;
      && Initial(START) && |log| == 3
      && log[2].action == Restore("anchor") && log[2].journaled.Some? && log[2].journaled.value.anchor == None
  {
    hide Next, Inv;
    var begin, e, f := DoBegin(INPUT, ENTRANCE), DoAdvance("thread", GOOD), DoAdvance("thread", REFUSED_WRITE);
    assert REFUSED_RUN == [begin] + ([e, e, f] + [e, e]);
    InitialInv(START);
    BeginClaims(START, None);
    NextKeepsInv(START, begin);
    var w1 := Next(START, begin);
    RunConcat(START, [begin], [e, e, f] + [e, e]);
    RunOne(START, begin);
    RunConcat(w1, [e, e, f], [e, e]);
    AnchorWriteIsRefused(w1);
    RestoredAnyway(Run(w1, [e, e, f]));
  }

  // --- 2. a resumed cut -----------------------------------------------------

  /** The cut an attempt at its truncation step performs: exactly the items now standing after the checkpoint. */
  lemma CutRemovesExactlyTheCurrentTail(w: World, t: string, env: Env)
    requires Inv(w) && t in w.attempts && w.attempts[t].pc.Cut? && !env.cutThrows
    ensures
      var a := w.attempts[t];
      var items, items' := Transcript(w, t), Transcript(Advance(w, t, env), t);
      && a.row.truncate == TruncatePending
      && items' == (if HasItem(items, a.row.itemId) then Upto(items, a.row.itemId) else items)
  {
    assert AttemptInv(w, t);
  }

  /**
   * The effect precedes its write: an attempt that dies right after the cut leaves the
   * journal saying the cut is still to be done, so the retry cuts again and removes
   * whatever the thread produced in between. It is harmless exactly when nothing did.
   */
  lemma InterruptedCutRunsAgain(w: World, t: string, env: Env, later: seq<Item>, input: Input, e: Entrance)
    requires Inv(w) && t in w.attempts && w.attempts[t].pc.Cut? && !env.cutThrows
    requires input.threadId == t && input.key == w.attempts[t].key && !e.refused
    requires TargetMatches(w.journal[input.key], input) && HasItem(later, input.itemId)
    ensures
      var died := Next(Next(Advance(w, t, env), Abort(t)), Edit(t, later));
      var resumed := Begin(died, input, e).0;
      && died.journal == w.journal
      && t in resumed.attempts && resumed.attempts[t].row == w.journal[input.key]
      && (resumed.attempts[t].pc.Cut? <==>
            !(w.journal[input.key].provider == ProviderFailed && w.journal[input.key].anchor.Some?))
      && (resumed.attempts[t].pc.Cut? ==>
            (Transcript(Advance(resumed, t, env), t) == later <==> Tail(later, input.itemId) == []))
  {
    hide Begin, Next, Advance, ProviderEntry, Inv;
    CutWritesNothing(w, t, env);
    var row := w.attempts[t].row;
    ResumedEntry(row, ModeOf(w.log, input.key));
    var w1 := Advance(w, t, env);
    ResumeAfterDeath(w1, t, later, input, e);
    var resumed := Begin(Next(Next(w1, Abort(t)), Edit(t, later)), input, e).0;
    if resumed.attempts[t].pc.Cut? {
      CutLeaves(resumed, t, env);
    }
  }

  /** The cut itself leaves the journal as it is, and its row says so. */
  lemma CutWritesNothing(w: World, t: string, env: Env)
    requires Inv(w) && t in w.attempts && w.attempts[t].pc.Cut? && !env.cutThrows
    ensures
      var a := w.attempts[t];
      && Advance(w, t, env).journal == w.journal
      && a.key in w.journal && w.journal[a.key] == a.row && a.row.threadId == t && !Settled(a.row.outcome)
      && PcInv(a.row, Cut, ModeOf(w.log, a.key))
  {
    assert AttemptInv(w, t);
    AdvanceShape(w, t, env);
  }

  lemma ResumedEntry(row: Row, m: Mode)
    requires PcInv(row, Cut, m)
    ensures ProviderEntry(row).Cut? <==> !(row.provider == ProviderFailed && row.anchor.Some?)
  {
  }

  /** A cut leaves the transcript up to its item, which is all of it exactly when nothing follows. */
  lemma CutLeaves(w: World, t: string, env: Env)
    requires t in w.attempts && w.attempts[t].pc.Cut? && !env.cutThrows && w.attempts[t].row.threadId == t
    requires HasItem(Transcript(w, t), w.attempts[t].row.itemId)
    ensures
      var id := w.attempts[t].row.itemId;
      && Transcript(Advance(w, t, env), t) == Upto(Transcript(w, t), id)
      && (Transcript(Advance(w, t, env), t) == Transcript(w, t) <==> Tail(Transcript(w, t), id) == [])
  {
    var items, id := Transcript(w, t), w.attempts[t].row.itemId;
    UptoPlusTail(items, id);
    assert |items| == |Upto(items, id)| + |Tail(items, id)|;
    assert Tail(items, id) == [] ==> Upto(items, id) + [] == Upto(items, id);
  }

  lemma ResumeAfterDeath(w: World, t: string, later: seq<Item>, input: Input, e: Entrance)
    requires input.threadId == t && input.key in w.journal && !e.refused
    requires TargetMatches(w.journal[input.key], input) && !Settled(w.journal[input.key].outcome)
    requires HasItem(later, input.itemId)
    ensures
      var row := w.journal[input.key];
      var resumed := Begin(Next(Next(w, Abort(t)), Edit(t, later)), input, e).0;
      && Next(Next(w, Abort(t)), Edit(t, later)).journal == w.journal
      && resumed.journal == w.journal && resumed.transcripts == w.transcripts[t := later]
      && t in resumed.attempts && resumed.attempts[t] == Attempt(input.key, row, ProviderEntry(row))
  {
  }
}
