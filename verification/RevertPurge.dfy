/**
 * Retention deletes settled and failed rows when the database opens, so a key can be
 * claimed afresh after its provider was already taken back. "At most once per key" holds
 * over the whole history exactly as long as that does not happen.
 */
module RevertPurge {
  import opened Wrappers
  import opened RevertJournal
  import opened RevertSafety
  import opened RevertGaps

  /** The event claims `key` afresh, with turns to take back, although its provider was called under an earlier claim. */
  predicate Reclaims(w: World, e: Event, key: string) {
    && key !in w.journal && key in Next(w, e).journal
    && Next(w, e).journal[key].numTurns > 0 && !HistoryOf(w.log, key).Untouched?
  }

  predicate NeverReclaims(w: World, es: seq<Event>, key: string)
    decreases |es|
  {
    es == [] || (!Reclaims(w, es[0], key) && NeverReclaims(Next(w, es[0]), es[1..], key))
  }

  /** The present claim is the only one that called the provider, or it has no turns to take back. */
  ghost predicate OneClaimCalls(w: World, key: string) {
    && !HistoryOf(w.log, key).Broken?
    && (ModeOf(w.log, key) == HistoryOf(w.log, key)
        || (ModeOf(w.log, key).Untouched? && (key in w.journal ==> w.journal[key].numTurns == 0)))
  }

  /** A provider call takes turns back, so its claim counted some. */
  lemma CallsCountTurns(row: Row, pc: Pc, env: Env, cut: (bool, seq<string>), m: Mode)
    requires RowMode(row, m) && PcInv(row, pc, m)
    ensures
      var move := Decide(row, pc, env, cut);
      move.action.Some? && (move.action.value.Restore? || move.action.value.Rollback?) ==> row.numTurns > 0
  {
  }

  lemma MovedKeepsOneClaim(w: World, w': World, t: string, m: Move, key: string)
    requires Inv(w) && Inv(w') && t in w.attempts && AttemptInv(w, t) && Moved(w, t, m, w') && OneClaimCalls(w, key)
    requires KeepsEntry(w.attempts[t].key, w.attempts[t].row, m)
    requires SameClaim(w.attempts[t].row, if m.update.Some? then Merge(w.attempts[t].row, m.update.value) else w.attempts[t].row)
    requires m.action.Some? && (m.action.value.Restore? || m.action.value.Rollback?) ==> w.attempts[t].row.numTurns > 0
    ensures OneClaimCalls(w', key)
  {
    hide PcInv, EntryInv;
    var a := w.attempts[t];
    if m.action.Some? {
      ModeOfAppend(w.log, Entry(a.key, Some(a.row), m.action.value), key);
    }
    if key in w'.journal {
      assert KeyInv(w', key);
    }
  }

  lemma AdvanceKeepsOneClaim(w: World, t: string, env: Env, key: string)
    requires Inv(w) && t in w.attempts && OneClaimCalls(w, key)
    ensures OneClaimCalls(Advance(w, t, env), key)
  {
    assert AttemptInv(w, t);
    var a := w.attempts[t];
    assert KeyInv(w, a.key);
    var cut, m := CutResult(w, a), ModeOf(w.log, a.key);
    AdvanceShape(w, t, env);
    AdvanceKeepsInv(w, t, env);
    MoveKeepsEntry(a.key, a.row, a.pc, env, cut, m);
    MoveKeepsDiscipline(a.row, a.pc, env, cut, m);
    CallsCountTurns(a.row, a.pc, env, cut, m);
    MovedKeepsOneClaim(w, Advance(w, t, env), t, Decide(a.row, a.pc, env, cut), key);
  }

  lemma ExpiredKeepsOneClaim(w: World, k: string, key: string)
    requires OneClaimCalls(w, key)
    ensures OneClaimCalls(Expired(w, k), key)
  {
    if k in w.journal && w.journal[k].outcome != Running {
      ModeOfAppend(w.log, Entry(k, Some(w.journal[k]), Purged), key);
    }
  }

  lemma NextKeepsOneClaim(w: World, e: Event, key: string)
    requires Inv(w) && OneClaimCalls(w, key) && !Reclaims(w, e, key)
    ensures OneClaimCalls(Next(w, e), key)
  {
    match e
    case DoBegin(input, entrance) =>
      BeginShape(w, input, entrance);
    case DoAdvance(t, env) =>
      if t in w.attempts {
        AdvanceKeepsOneClaim(w, t, env, key);
      }
    case Expire(k) =>
      ExpiredKeepsOneClaim(w, k, key);
    case _ =>
  }

  lemma {:induction false} RunKeepsOneClaim(w: World, es: seq<Event>, key: string)
    requires Inv(w) && OneClaimCalls(w, key) && NeverReclaims(w, es, key)
    ensures OneClaimCalls(Run(w, es), key)
    decreases |es|
  {
    if es != [] {
      NextKeepsInv(w, es[0]);
      NextKeepsOneClaim(w, es[0], key);
      RunKeepsOneClaim(Next(w, es[0]), es[1..], key);
    }
  }

  /** A history in which the key is never claimed afresh after its provider was called keeps "at most once" as a whole. */
  lemma AtMostOnceWhileNotReclaimed(w: World, es: seq<Event>, key: string)
    requires Initial(w) && NeverReclaims(w, es, key)
    ensures AtMostOnce(Run(w, es).log, key)
  {
    InitialInv(w);
    RunKeepsOneClaim(w, es, key);
    ModeMeaning(Run(w, es).log, key);
  }

  // --- a reclaimed key can always be called again ---------------------------

  const UNSUPPORTED := Env(Unsupported, Succeeded, Accepted, true, false)

  function Steps(t: string): seq<Event> {
    var e := DoAdvance(t, UNSUPPORTED);
    [e, e, e, e]
  }

  lemma RunFour(w: World, e: Event)
    ensures Run(w, [e, e, e, e]) == Next(Next(Next(Next(w, e), e), e), e)
  {
    hide Next;
    var es := [e, e, e, e];
    assert es[1..] == [e, e, e] && es[1..][1..] == [e, e] && es[1..][1..][1..] == [e];
    var w1 := Next(w, e);
    var w2 := Next(w1, e);
    var w3 := Next(w2, e);
    assert Run(w3, [e]) == Next(w3, e) by { assert [e][1..] == []; }
    assert Run(w2, [e, e]) == Run(w3, [e]) by { assert [e, e][1..] == [e]; }
    assert Run(w1, [e, e, e]) == Run(w2, [e, e]) by { assert [e, e, e][1..] == [e, e]; }
  }

  /** Before its relative rollback an attempt marks the provider phase ambiguous. */
  function Marked(row: Row): Row {
    Merge(row, NO_UPDATE.(provider := Some(ProviderAmbiguous)))
  }

  lemma PlanIsUnsupported(w: World, t: string)
    requires Inv(w) && t in w.attempts && w.attempts[t].pc.PlanCall?
    ensures
      var a, e := w.attempts[t], DoAdvance(t, UNSUPPORTED);
      var w' := Next(Next(w, e), e);
      && Inv(w') && t in w'.attempts && w'.attempts[t] == Attempt(a.key, a.row, RelativeMark) && w'.transcripts == w.transcripts
      && w'.log == w.log + [Entry(a.key, Some(a.row), Plan(a.row.numTurns))]
  {
    hide Next, Inv;
    var a, e := w.attempts[t], DoAdvance(t, UNSUPPORTED);
    OneStep(w, t, UNSUPPORTED, Move(None, Some(Plan(a.row.numTurns)), Some(PlanWait)));
    OneStep(Next(w, e), t, UNSUPPORTED, Move(None, None, Some(RelativeMark)));
  }

  lemma MarkedThenRolledBack(w: World, t: string)
    requires Inv(w) && t in w.attempts && w.attempts[t].pc.RelativeMark?
    ensures
      var a, e := w.attempts[t], DoAdvance(t, UNSUPPORTED);
      var w' := Next(Next(w, e), e);
      && Inv(w') && t in w'.attempts && w'.attempts[t] == Attempt(a.key, Marked(a.row), RelativeWait)
      && w'.transcripts == w.transcripts
      && w'.log == w.log + [Entry(a.key, Some(Marked(a.row)), Rollback(a.row.numTurns))]
  {
    hide Next, Inv;
    var a, e := w.attempts[t], DoAdvance(t, UNSUPPORTED);
    OneStep(w, t, UNSUPPORTED, Move(Some(NO_UPDATE.(provider := Some(ProviderAmbiguous))), None, Some(RelativeCall)));
    OneStep(Next(w, e), t, UNSUPPORTED, Move(None, Some(Rollback(a.row.numTurns)), Some(RelativeWait)));
  }

  /** Planned without anchor support, an attempt reaches its relative rollback in four steps. */
  lemma FreshAttemptRollsBack(w: World, t: string)
    requires Inv(w) && t in w.attempts && w.attempts[t].pc.PlanCall?
    ensures
      var a := w.attempts[t];
      var w' := Run(w, Steps(t));
      && Inv(w')
      && w'.log == w.log + [Entry(a.key, Some(a.row), Plan(a.row.numTurns)),
                            Entry(a.key, Some(Marked(a.row)), Rollback(a.row.numTurns))]
      && t in w'.attempts && w'.attempts[t] == Attempt(a.key, Marked(a.row), RelativeWait)
      && w'.transcripts == w.transcripts
  {
    hide Next, Inv;
    var e := DoAdvance(t, UNSUPPORTED);
    PlanIsUnsupported(w, t);
    MarkedThenRolledBack(Next(Next(w, e), e), t);
    RunFour(w, e);
  }

  lemma SecondCallBreaks(log: seq<Entry>, key: string, plan: Entry, rollback: Entry)
    requires plan.key == key && plan.action.Plan? && rollback.key == key && rollback.action.Rollback?
    requires !HistoryOf(log, key).Untouched?
    ensures !AtMostOnce(log + [plan, rollback], key)
  {
    ModeOfAppend(log, plan, key);
    ModeOfAppend(log + [plan], rollback, key);
    assert log + [plan, rollback] == log + [plan] + [rollback];
    ModeMeaning(log + [plan, rollback], key);
  }

  /** The claim of a reclaiming event starts an attempt that is about to ask for a plan. */
  lemma ReclaimStartsPlanning(w: World, e: Event, key: string)
    requires Inv(w) && Reclaims(w, e, key)
    ensures
      && e.DoBegin? && e.input.key == key && Next(w, e).log == w.log
      && e.input.threadId in Next(w, e).attempts
      && Next(w, e).attempts[e.input.threadId] == Attempt(key, Next(w, e).journal[key], PlanCall)
  {
  }

  lemma ReclaimedKeyIsCalledAgain(w: World, e: Event, key: string)
    requires Inv(w) && Reclaims(w, e, key)
    ensures e.DoBegin? && !AtMostOnce(Run(Next(w, e), Steps(e.input.threadId)).log, key)
  {
    ReclaimStartsPlanning(w, e, key);
    NextKeepsInv(w, e);
    var w1, t := Next(w, e), e.input.threadId;
    FreshAttemptRollsBack(w1, t);
    var row := w1.attempts[t].row;
    SecondCallBreaks(w.log, key, Entry(key, Some(row), Plan(row.numTurns)),
                     Entry(key, Some(Marked(row)), Rollback(row.numTurns)));
  }

  lemma {:induction false} StepsNeverReclaim(w: World, t: string, n: nat, key: string)
    requires n <= 4 && Inv(w)
    ensures NeverReclaims(w, Steps(t)[..n], key)
    decreases n
  {
    if n > 0 {
      var e := DoAdvance(t, UNSUPPORTED);
      var es := Steps(t)[..n];
      assert es[0] == e && es[1..] == Steps(t)[..n - 1];
      if t in w.attempts {
        assert AttemptInv(w, t);
        AdvanceShape(w, t, UNSUPPORTED);
      }
      NextKeepsInv(w, e);
      StepsNeverReclaim(Next(w, e), t, n - 1, key);
    }
  }

  /**
   * At any point of a history without a reclaim, the next event endangers "at most once per
   * key" exactly when it reclaims: a fresh claim, with turns to take back, of a key whose
   * provider was called under a claim that retention has since deleted. Whatever follows any
   * other event keeps it, until a reclaim; after a reclaim some continuation breaks it.
   */
  lemma AtMostOncePerKeyExactlyWhen(start: World, es: seq<Event>, e: Event, key: string)
    requires Initial(start) && NeverReclaims(start, es, key)
    ensures
      var w := Run(start, es);
      (forall more :: NeverReclaims(Next(w, e), more, key) ==> AtMostOnce(Run(Next(w, e), more).log, key))
      <==> !Reclaims(w, e, key)
  {
    InitialInv(start);
    RunKeepsInv(start, es);
    RunKeepsOneClaim(start, es, key);
    var w := Run(start, es);
    NextKeepsInv(w, e);
    if Reclaims(w, e, key) {
      ReclaimedKeyIsCalledAgain(w, e, key);
      StepsNeverReclaim(Next(w, e), e.input.threadId, 4, key);
      assert Steps(e.input.threadId)[..4] == Steps(e.input.threadId);
    } else {
      NextKeepsOneClaim(w, e, key);
      forall more | NeverReclaims(Next(w, e), more, key) ensures AtMostOnce(Run(Next(w, e), more).log, key)
      {
        RunKeepsOneClaim(Next(w, e), more, key);
        ModeMeaning(Run(Next(w, e), more).log, key);
      }
    }
  }

  // --- a run in which it happens --------------------------------------------

  const TARGET := INPUT.(explicitLocation := Some("project"))
  const BEGIN := DoBegin(TARGET, ENTRANCE)
  const FILES_FAIL := UNSUPPORTED.(call := CallError(false))

  /** The last step of a failing attempt: the row is left failed, the thread is free. */
  lemma RefusedFilesEnd(w: World, t: string)
    requires Inv(w) && t in w.attempts && w.attempts[t].pc.FilesRefused?
    ensures
      var a := w.attempts[t];
      var w' := Next(w, DoAdvance(t, UNSUPPORTED));
      && Inv(w') && t !in w'.attempts && w'.log == w.log && w'.transcripts == w.transcripts
      && a.key in w'.journal && w'.journal[a.key].outcome == Failed
  {
    hide Inv;
    AdvanceShape(w, t, UNSUPPORTED);
    AdvanceKeepsInv(w, t, UNSUPPORTED);
  }

  /** The rollback succeeds and is journaled. */
  lemma RollbackSucceeds(w: World, t: string)
    requires Inv(w) && t in w.attempts && w.attempts[t].pc.RelativeWait? && w.attempts[t].row.files.FilesPending?
    ensures
      var a, e := w.attempts[t], DoAdvance(t, UNSUPPORTED);
      var w' := Next(Next(w, e), e);
      && Inv(w') && t in w'.attempts && w'.log == w.log && w'.transcripts == w.transcripts
      && w'.attempts[t] == Attempt(a.key, a.row.(provider := ProviderCompleted), FilesDecide)
  {
    hide Next, Inv;
    var a, e := w.attempts[t], DoAdvance(t, UNSUPPORTED);
    OneStep(w, t, UNSUPPORTED, Move(None, None, Some(ProviderWrite)));
    OneStep(Next(w, e), t, UNSUPPORTED, Move(Some(NO_UPDATE.(provider := Some(ProviderCompleted))), None, Some(FilesDecide)));
  }

  /** The file restore is issued and fails, which leaves the row failed. */
  lemma FilesFail(w: World, t: string)
    requires Inv(w) && t in w.attempts && w.attempts[t].pc.FilesDecide? && w.attempts[t].row.location.Some?
    ensures
      var a, ok, no := w.attempts[t], DoAdvance(t, UNSUPPORTED), DoAdvance(t, FILES_FAIL);
      var w' := Next(Next(Next(w, ok), no), ok);
      && Inv(w') && t !in w'.attempts && w'.transcripts == w.transcripts
      && w'.log == w.log + [Entry(a.key, Some(a.row), RestoreFiles(a.row.location.value))]
      && a.key in w'.journal && w'.journal[a.key].outcome == Failed
  {
    hide Next, Inv;
    var a, ok, no := w.attempts[t], DoAdvance(t, UNSUPPORTED), DoAdvance(t, FILES_FAIL);
    OneStep(w, t, UNSUPPORTED, Move(None, Some(RestoreFiles(a.row.location.value)), Some(FilesWait)));
    OneStep(Next(w, ok), t, FILES_FAIL, Move(None, None, Some(FilesRefused)));
    RefusedFilesEnd(Next(Next(w, ok), no), t);
  }

  /** The rollback succeeds, the file restore does not: five steps to a failed row. */
  function Failing(t: string): seq<Event> {
    var ok, no := DoAdvance(t, UNSUPPORTED), DoAdvance(t, FILES_FAIL);
    [ok, ok, ok, no, ok]
  }

  lemma RunFive(w: World, e0: Event, e1: Event, e2: Event, e3: Event, e4: Event)
    ensures Run(w, [e0, e1, e2, e3, e4]) == Next(Next(Next(Next(Next(w, e0), e1), e2), e3), e4)
  {
    hide Next;
    assert [e0, e1, e2, e3, e4] == [e0] + ([e1] + ([e2] + ([e3] + [e4])));
    RunConcat(w, [e0], [e1] + ([e2] + ([e3] + [e4])));
    RunOne(w, e0);
    var w1 := Next(w, e0);
    RunConcat(w1, [e1], [e2] + ([e3] + [e4]));
    RunOne(w1, e1);
    var w2 := Next(w1, e1);
    RunConcat(w2, [e2], [e3] + [e4]);
    RunOne(w2, e2);
    var w3 := Next(w2, e2);
    RunConcat(w3, [e3], [e4]);
    RunOne(w3, e3);
    RunOne(Next(w3, e3), e4);
  }

  lemma RolledBackThenFailed(w: World, t: string)
    requires Inv(w) && t in w.attempts && w.attempts[t].pc.RelativeWait?
    requires w.attempts[t].row.files.FilesPending? && w.attempts[t].row.location.Some?
    ensures
      var a := w.attempts[t];
      var w' := Run(w, Failing(t));
      && Inv(w') && t !in w'.attempts && w'.transcripts == w.transcripts
      && w'.log == w.log + [Entry(a.key, Some(a.row.(provider := ProviderCompleted)), RestoreFiles(a.row.location.value))]
      && a.key in w'.journal && w'.journal[a.key].outcome == Failed
  {
    hide Next, Inv;
    var ok, no := DoAdvance(t, UNSUPPORTED), DoAdvance(t, FILES_FAIL);
    RollbackSucceeds(w, t);
    FilesFail(Next(Next(w, ok), ok), t);
    RunFive(w, ok, ok, ok, no, ok);
  }

  /** Retention deletes a failed row; the key may be claimed again. */
  lemma ExpiredFailedRow(w: World, k: string)
    requires Inv(w) && k in w.journal && w.journal[k].outcome == Failed
    ensures
      var w' := Next(w, Expire(k));
      && Inv(w') && k !in w'.journal && w'.attempts == map[] && w'.transcripts == w.transcripts
      && w'.log == w.log + [Entry(k, Some(w.journal[k]), Purged)]
  {
    hide Inv;
    ExpiredKeepsInv(w, k);
  }

  function TwoClaims(): seq<Event> {
    [BEGIN] + Steps("thread") + Failing("thread") + [Expire("key")] + [BEGIN] + Steps("thread")
  }

  lemma FirstClaimFails()
    ensures
      var w := Run(START, [BEGIN] + Steps("thread") + Failing("thread"));
      && Inv(w) && "thread" !in w.attempts && w.transcripts == START.transcripts
      && "key" in w.journal && w.journal["key"].outcome == Failed
      && |w.log| == 3 && w.log[1].key == "key" && w.log[1].action == Rollback(1)
  {
    hide Next, Inv, Failing, Steps, CountTurns;
    InitialInv(START);
    BeginClaims(START, Some("project"));
    NextKeepsInv(START, BEGIN);
    RunOne(START, BEGIN);
    var w1 := Next(START, BEGIN);
    RunConcat(START, [BEGIN], Steps("thread"));
    FreshAttemptRollsBack(w1, "thread");
    RunConcat(START, [BEGIN] + Steps("thread"), Failing("thread"));
    RolledBackThenFailed(Run(w1, Steps("thread")), "thread");
  }

  lemma SecondClaimRollsBack(w: World)
    requires Inv(w) && "key" in w.journal && w.journal["key"].outcome == Failed && w.transcripts == START.transcripts
    ensures
      var w' := Run(w, [Expire("key")] + [BEGIN] + Steps("thread"));
      |w'.log| == |w.log| + 3 && w'.log[..|w.log|] == w.log
      && w'.log[|w.log| + 2].key == "key" && w'.log[|w.log| + 2].action == Rollback(1)
  {
    hide Next, Inv, Steps, CountTurns;
    ExpiredFailedRow(w, "key");
    RunOne(w, Expire("key"));
    var w1 := Next(w, Expire("key"));
    RunConcat(w, [Expire("key")], [BEGIN]);
    BeginClaims(w1, Some("project"));
    NextKeepsInv(w1, BEGIN);
    RunOne(w1, BEGIN);
    RunConcat(w, [Expire("key")] + [BEGIN], Steps("thread"));
    FreshAttemptRollsBack(Next(w1, BEGIN), "thread");
  }

  lemma {:induction false} RollbacksCount(log: seq<Entry>, key: string, i: nat, j: nat)
    requires i < j < |log| && log[i].key == key == log[j].key && log[i].action.Rollback? && log[j].action.Rollback?
    ensures RollbackCount(log, key) >= 2
  {
    var rest := log[..|log| - 1];
    if j < |rest| {
      RollbacksCount(rest, key, i, j);
    } else {
      RollbackCounts(rest, key, i);
    }
  }

  lemma {:induction false} RollbackCounts(log: seq<Entry>, key: string, i: nat)
    requires i < |log| && log[i].key == key && log[i].action.Rollback?
    ensures RollbackCount(log, key) >= 1
  {
    if i < |log| - 1 {
      RollbackCounts(log[..|log| - 1], key, i);
    }
  }

  /**
   * The counterexample to "at most once per key": the rollback succeeds, the file restore
   * fails, retention deletes the failed row, and the retry of the same key, finding the
   * transcript as it was, rolls the provider back by the same turn again.
   */
  lemma PurgedKeyRollsBackTwice()
    ensures Initial(START) && RollbackCount(Run(START, TwoClaims()).log, "key") >= 2
  {
    hide Next, Inv, Failing, Steps, CountTurns;
    var first := [BEGIN] + Steps("thread") + Failing("thread");
    var second := [Expire("key")] + [BEGIN] + Steps("thread");
    FirstClaimFails();
    SecondClaimRollsBack(Run(START, first));
    RunConcat(START, first, second);
    assert TwoClaims() == first + second;
    var log := Run(START, TwoClaims()).log;
    assert log[1] == log[..3][1];
    RollbacksCount(log, "key", 1, 5);
  }
}
