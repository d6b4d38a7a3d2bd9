/** What the journaled revert guarantees its callers, and where it falls short of its own comment. */
module RevertTheorems {
  import opened Wrappers
  import opened RevertJournal
  import opened RevertSafety

  // --- what one event adds --------------------------------------------------

  /** One event adds at most one log entry, which saw the journal as it stood. */
  lemma NextLog(w: World, e: Event)
    ensures
      var w' := Next(w, e);
      || w'.log == w.log
      || (|w'.log| == |w.log| + 1 && w'.log[..|w.log|] == w.log
          && w'.log[|w.log|].journaled == Lookup(w.journal, w'.log[|w.log|].key))
  {
  }

  /** Two effects under one claim saw the same frozen plan. */
  ghost predicate ClaimsAgree(log: seq<Entry>) {
    forall i, j :: 0 <= i < j < |log| && log[i].key == log[j].key && StillClaimed(log, i, j) ==>
      log[i].journaled.Some? && log[j].journaled.Some? && SameClaim(log[i].journaled.value, log[j].journaled.value)
  }

  /** No claim of any key, past ones included, ever broke the provider discipline. */
  ghost predicate ClaimsUnbroken(log: seq<Entry>) {
    forall n, key :: 0 <= n <= |log| ==> !ModeOf(log[..n], key).Broken?
  }

  lemma GrowingKeepsAgreement(w: World, log: seq<Entry>)
    requires Inv(w) && ClaimsAgree(w.log)
    requires |log| == |w.log| + 1 && log[..|w.log|] == w.log
    requires log[|w.log|].journaled == Lookup(w.journal, log[|w.log|].key)
    ensures ClaimsAgree(log)
  {
    var n := |w.log|;
    forall i, j | 0 <= i < j < |log| && log[i].key == log[j].key && StillClaimed(log, i, j)
      ensures log[i].journaled.Some? && log[j].journaled.Some? && SameClaim(log[i].journaled.value, log[j].journaled.value)
    {
      assert log[i] == log[..n][i];
      StillClaimedEarlier(w.log, log, i, if j < n then j else n);
      if j < n {
        assert log[j] == log[..n][j];
      } else {
        assert ServesClaim(w.journal, w.log[i]);
      }
    }
  }

  lemma GrowingKeepsUnbroken(w: World, log: seq<Entry>)
    requires Inv(w) && ClaimsUnbroken(log)
    requires w.log == log || (|w.log| == |log| + 1 && w.log[..|log|] == log)
    ensures ClaimsUnbroken(w.log)
  {
    forall n, key | 0 <= n <= |w.log| ensures !ModeOf(w.log[..n], key).Broken?
    {
      if n <= |log| {
        assert w.log[..n] == log[..n];
      } else {
        assert w.log[..n] == w.log;
        assert key in w.journal ==> KeyInv(w, key);
      }
    }
  }

  lemma {:induction false} RunKeepsClaims(w: World, es: seq<Event>)
    requires Inv(w) && ClaimsAgree(w.log) && ClaimsUnbroken(w.log)
    ensures ClaimsAgree(Run(w, es).log) && ClaimsUnbroken(Run(w, es).log)
    decreases |es|
  {
    if es != [] {
      var w' := Next(w, es[0]);
      NextKeepsInv(w, es[0]);
      NextLog(w, es[0]);
      if w'.log != w.log {
        GrowingKeepsAgreement(w, w'.log);
      }
      GrowingKeepsUnbroken(w', w.log);
      RunKeepsClaims(w', es[1..]);
    }
  }

  // --- the provider is rolled back at most once -----------------------------

  /**
   * For every claim of one key, those whose row retention has deleted since included: at
   * most one relative rollback, one common anchor, never both modes. (`n` picks a moment of
   * the history, `Current` the claim then standing.)
   */
  lemma ProviderRestoredAtMostOnce(w: World, es: seq<Event>, key: string, n: nat)
    requires Initial(w) && n <= |Run(w, es).log|
    ensures AtMostOnce(Current(Run(w, es).log[..n], key), key)
  {
    InitialInv(w);
    RunKeepsClaims(w, es);
    var log := Run(w, es).log[..n];
    CurrentHistory(log, key);
    ModeMeaning(Current(log, key), key);
  }

  function ActionsOf(log: seq<Entry>, key: string): seq<Action> {
    if log == [] then []
    else
      var e := log[|log| - 1];
      ActionsOf(log[..|log| - 1], key) + (if e.key == key then [e.action] else [])
  }

  /**
   * The provider position after the calls of one claim: `grown` is how far the provider
   * went on by itself before each call, `applied` which calls took effect (a timed-out or
   * interrupted call may or may not have), and `target` decodes an anchor into the
   * absolute position it restores.
   */
  function Replay(actions: seq<Action>, grown: seq<nat>, applied: seq<bool>, target: string -> int, start: int): int
    requires |applied| == |actions| == |grown|
  {
    if actions == [] then start
    else
      var n := |actions| - 1;
      var before := Replay(actions[..n], grown[..n], applied[..n], target, start) + grown[n];
      if applied[n] then TakenBack(actions[n], target, before) else before
  }

  function TakenBack(a: Action, target: string -> int, before: int): int {
    match a
    case Rollback(turns) => before - turns
    case Restore(x) => if target(x) < before then target(x) else before
    case _ => before
  }

  function Sum(grown: seq<nat>): nat {
    if grown == [] then 0 else Sum(grown[..|grown| - 1]) + grown[|grown| - 1]
  }

  function Floor(m: Mode, target: string -> int, start: int): int {
    match m
    case Relative(turns) => start - turns
    case Absolute(a) => if target(a) < start then target(a) else start
    case _ => start
  }

  predicate Above(m: Mode, target: string -> int, start: int, position: int, top: int) {
    Floor(m, target, start) <= position <= top && (m.Untouched? ==> position == top)
  }

  lemma StepAboveFloor(m: Mode, a: Action, target: string -> int, start: int, before: int, top: int)
    requires !Extend(m, a).Broken? && Above(m, target, start, before, top) && start <= top
    ensures Above(Extend(m, a), target, start, before, top)
    ensures Above(Extend(m, a), target, start, TakenBack(a, target, before), top)
  {
  }

  lemma {:induction false} ReplayAboveFloor(log: seq<Entry>, key: string, grown: seq<nat>, applied: seq<bool>,
                                            target: string -> int, start: int)
    requires |applied| == |ActionsOf(log, key)| == |grown| && !HistoryOf(log, key).Broken?
    ensures Above(HistoryOf(log, key), target, start, Replay(ActionsOf(log, key), grown, applied, target, start),
                  start + Sum(grown))
  {
    if log != [] {
      var rest, e := log[..|log| - 1], log[|log| - 1];
      if e.key != key {
        assert ActionsOf(log, key) == ActionsOf(rest, key);
        ReplayAboveFloor(rest, key, grown, applied, target, start);
      } else {
        var actions, n := ActionsOf(rest, key), |ActionsOf(rest, key)|;
        ReplayAboveFloor(rest, key, grown[..n], applied[..n], target, start);
        var before := Replay(actions, grown[..n], applied[..n], target, start) + grown[n];
        StepAboveFloor(HistoryOf(rest, key), e.action, target, start, before, start + Sum(grown));
        assert ActionsOf(log, key) == actions + [e.action] && ActionsOf(log, key)[..n] == actions;
      }
    }
  }

  /** `end` lies between the target of the key's claim and `top`, where it would be had nothing been called. */
  predicate WithinTarget(w: World, key: string, end: int, target: string -> int, start: int, top: int) {
    end <= top
    && match ModeOf(w.log, key)
       case Untouched => end == top
       case Relative(turns) => key in w.journal && turns == w.journal[key].numTurns && start - turns <= end
       case Absolute(a) =>
         && key in w.journal && (w.journal[key].anchor.Some? ==> w.journal[key].anchor == Some(a))
         && (if target(a) < start then target(a) else start) <= end
       case Broken => false
  }

  /**
   * Under one claim, whatever subset of the issued calls took effect and however far the
   * provider went on in between, it is never taken back past the target frozen for it: its
   * journaled turn count, or its journaled anchor once the journal holds one.
   */
  lemma ProviderNeverPastFrozenTarget(w: World, es: seq<Event>, key: string, grown: seq<nat>, applied: seq<bool>,
                                      target: string -> int, start: int)
    requires Initial(w)
    requires |applied| == |ActionsOf(Current(Run(w, es).log, key), key)| == |grown|
    ensures WithinTarget(Run(w, es), key, Replay(ActionsOf(Current(Run(w, es).log, key), key), grown, applied, target, start),
                         target, start, start + Sum(grown))
  {
    InitialInv(w);
    RunKeepsInv(w, es);
    var w' := Run(w, es);
    if key in w'.journal {
      assert KeyInv(w', key);
    }
    CurrentHistory(w'.log, key);
    ReplayAboveFloor(Current(w'.log, key), key, grown, applied, target, start);
  }

  // --- the journal ----------------------------------------------------------

  /** Some step of the run is a reopening at which retention deletes the row of `k`; a running row never is. */
  predicate Deleted(w: World, es: seq<Event>, k: string)
    decreases |es|
  {
    es != [] && ((es[0] == Expire(k) && k in w.journal && w.journal[k].outcome != Running)
                 || Deleted(Next(w, es[0]), es[1..], k))
  }

  /** The row keeps what its claim froze, and once settled it never changes. */
  predicate Kept(j: Journal, j': Journal, k: string)
    requires k in j
  {
    k in j' && SameClaim(j[k], j'[k]) && (Settled(j[k].outcome) ==> j'[k] == j[k])
  }

  lemma MovedKeepsRow(w: World, t: string, m: Move, w': World, k: string)
    requires t in w.attempts && AttemptInv(w, t) && Moved(w, t, m, w') && k in w.journal
    ensures Kept(w.journal, w'.journal, k)
  {
    hide PcInv;
  }

  lemma NextKeepsRow(w: World, e: Event, k: string)
    requires Inv(w) && k in w.journal && !(e == Expire(k) && w.journal[k].outcome != Running)
    ensures Kept(w.journal, Next(w, e).journal, k)
  {
    hide Begin, Decide, Advance, PcInv;
    if e.DoBegin? {
      BeginKeepsRow(w, e.input, e.entrance, k);
    } else if e.DoAdvance? && e.threadId in w.attempts {
      var a := w.attempts[e.threadId];
      assert AttemptInv(w, e.threadId);
      AdvanceShape(w, e.threadId, e.env);
      MovedKeepsRow(w, e.threadId, Decide(a.row, a.pc, e.env, CutResult(w, a)), Next(w, e), k);
    }
  }

  lemma BeginKeepsRow(w: World, input: Input, e: Entrance, k: string)
    requires k in w.journal
    ensures Kept(w.journal, Begin(w, input, e).0.journal, k)
  {
  }

  /** Unless retention deletes it, a row stays, keeps its claim, and is final once settled. */
  lemma {:induction false} ClaimsAreFrozenAndSettledRowsFinal(w: World, es: seq<Event>, k: string)
    requires Inv(w) && k in w.journal && !Deleted(w, es, k)
    ensures Kept(w.journal, Run(w, es).journal, k)
    decreases |es|
  {
    if es != [] {
      NextKeepsInv(w, es[0]);
      NextKeepsRow(w, es[0], k);
      ClaimsAreFrozenAndSettledRowsFinal(Next(w, es[0]), es[1..], k);
    }
  }

  lemma SettledAnswers(w: World, input: Input, e: Entrance)
    requires input.key in w.journal && Settled(w.journal[input.key].outcome)
    ensures
      var (w', reply) := Begin(w, input, e);
      && w' == w
      && (reply.Replayed? <==> input.threadId !in w.attempts && !e.refused && TargetMatches(w.journal[input.key], input))
      && (reply.Replayed? ==> reply.row == w.journal[input.key])
  {
  }

  /**
   * Once a key has settled and until retention deletes its row, every later admitted retry
   * for the same target answers with that very row, whatever happened since, and no retry
   * changes anything.
   */
  lemma SettledKeyReplays(w: World, es: seq<Event>, input: Input, e: Entrance)
    requires Inv(w) && input.key in w.journal && Settled(w.journal[input.key].outcome) && !Deleted(w, es, input.key)
    ensures
      var now := Run(w, es);
      var (w', reply) := Begin(now, input, e);
      && w' == now
      && (reply == Replayed(w.journal[input.key]) <==>
            input.threadId !in now.attempts && !e.refused && TargetMatches(w.journal[input.key], input))
  {
    ClaimsAreFrozenAndSettledRowsFinal(w, es, input.key);
    SettledAnswers(Run(w, es), input, e);
  }

  /** Reusing a key for another target answers before anything changes. */
  lemma ForeignTargetConflicts(w: World, input: Input, e: Entrance)
    requires input.key in w.journal && input.threadId !in w.attempts && !e.refused
    ensures Begin(w, input, e).1 == Conflict <==> !TargetMatches(w.journal[input.key], input)
    ensures !TargetMatches(w.journal[input.key], input) ==> Begin(w, input, e).0 == w
  {
  }

  /** Every live attempt's in-memory row is the journal row, it is unsettled, and no other attempt shares its key. */
  lemma MemoryIsJournal(w: World, es: seq<Event>, t: string)
    requires Initial(w) && t in Run(w, es).attempts
    ensures
      var w' := Run(w, es);
      var a := w'.attempts[t];
      && a.key in w'.journal && w'.journal[a.key] == a.row && a.row.threadId == t && !Settled(a.row.outcome)
      && (forall t' :: t' in w'.attempts && t' != t ==> w'.attempts[t'].key != a.key)
  {
    InitialInv(w);
    RunKeepsInv(w, es);
    var w' := Run(w, es);
    assert AttemptInv(w', t);
    forall t' | t' in w'.attempts && t' != t ensures w'.attempts[t'].key != w'.attempts[t].key {
      assert AttemptInv(w', t');
    }
  }

  /**
   * Every effect ever issued saw an unsettled row and carried that row's frozen inputs, the
   * transcript was cut only with the provider decided and the files restored or skipped, and
   * two effects with no deletion of the row between them served the same claim.
   */
  lemma EffectsFollowTheClaim(w: World, es: seq<Event>, i: nat)
    requires Initial(w) && i < |Run(w, es).log| && !Run(w, es).log[i].action.Purged?
    ensures
      var log := Run(w, es).log;
      && log[i].journaled.Some?
      && var row, action := log[i].journaled.value, log[i].action;
         && !Settled(row.outcome)
         && (action.Plan? || action.Rollback? ==> action.turns == row.numTurns)
         && (action.RestoreFiles? ==> row.location == Some(action.location))
         && (action.Truncate? ==> row.provider != ProviderPending && FilesSettled(row))
         && (StillClaimed(log, i, |log|) ==> log[i].key in Run(w, es).journal && SameClaim(row, Run(w, es).journal[log[i].key]))
         && (forall j :: i < j < |log| && log[j].key == log[i].key && StillClaimed(log, i, j) ==>
               log[j].journaled.Some? && SameClaim(row, log[j].journaled.value))
  {
    InitialInv(w);
    RunKeepsInv(w, es);
    RunKeepsClaims(w, es);
    assert EntryInv(Run(w, es).log[i]);
  }

  // --- progress -------------------------------------------------------------

  function Rank(pc: Pc): nat {
    match pc
    case PlanCall => 15
    case PlanWait => 14
    case PlanWrite(_) => 13
    case ProviderRefused(_, unwritten) => if unwritten.Some? then 12 else 8
    case RestoreCall(_) => 11
    case RestoreWait => 10
    case RelativeMark => 12
    case RelativeCall => 11
    case RelativeWait => 10
    case ProviderWrite => 9
    case SkipNoTurns => 9
    case FilesDecide => 7
    case FilesWait => 6
    case FilesWrite => 5
    case FilesRefused => 4
    case Cut => 3
    case CutWrite(_, _) => 2
    case Finish => 1
  }

  /** Whatever fails, each step brings an attempt nearer its end. */
  lemma MoveDescends(row: Row, pc: Pc, env: Env, cut: (bool, seq<string>))
    ensures
      var m := Decide(row, pc, env, cut);
      m.next.Some? ==> 0 < Rank(m.next.value) < Rank(pc)
  {
  }

  lemma RankIsPositive(pc: Pc)
    ensures Rank(pc) > 0
  {
  }

  function Drive(w: World, t: string, envs: seq<Env>): World
    decreases |envs|
  {
    if envs == [] || t !in w.attempts then w else Drive(Advance(w, t, envs[0]), t, envs[1..])
  }

  predicate FaultFree(env: Env) {
    !env.plan.PlanError? && env.call.Succeeded? && env.write.Accepted? && !env.cutThrows
  }

  /** The outcome an attempt at `pc` settles with when nothing fails from here on. */
  function Destiny(row: Row, pc: Pc): Outcome {
    match pc
    case ProviderRefused(t, unwritten) => if unwritten.Some? && !t then Completed else OutcomeOf(ErrorPhase(t))
    case FilesDecide => OutcomeOf(row.provider)
    case FilesWait => OutcomeOf(row.provider)
    case FilesWrite => OutcomeOf(row.provider)
    case FilesRefused => Failed
    case Cut => OutcomeOf(row.provider)
    case CutWrite(_, _) => OutcomeOf(row.provider)
    case Finish => OutcomeOf(row.provider)
    case _ => Completed
  }

  lemma FaultFreeMove(row: Row, pc: Pc, env: Env, cut: (bool, seq<string>))
    requires FaultFree(env)
    ensures
      var m := Decide(row, pc, env, cut);
      var row2 := if m.update.Some? then Merge(row, m.update.value) else row;
      && (m.next.Some? ==> Destiny(row2, m.next.value) == Destiny(row, pc))
      && (m.next.None? ==> row2.outcome == Destiny(row, pc))
  {
  }

  /** The thread is free again and the key's row holds the outcome. */
  predicate Ended(w: World, t: string, key: string, outcome: Outcome) {
    t !in w.attempts && key in w.journal && w.journal[key].outcome == outcome
  }

  lemma {:induction false} FaultFreeDriveSettles(w: World, t: string, envs: seq<Env>)
    requires Inv(w) && t in w.attempts
    requires |envs| >= Rank(w.attempts[t].pc) && forall i :: 0 <= i < |envs| ==> FaultFree(envs[i])
    ensures Ended(Drive(w, t, envs), t, w.attempts[t].key, Destiny(w.attempts[t].row, w.attempts[t].pc))
    decreases |envs|
  {
    hide Decide, Advance, PcInv, Destiny, Rank;
    var a := w.attempts[t];
    RankIsPositive(a.pc);
    assert AttemptInv(w, t);
    AdvanceShape(w, t, envs[0]);
    AdvanceKeepsInv(w, t, envs[0]);
    MoveDescends(a.row, a.pc, envs[0], CutResult(w, a));
    FaultFreeMove(a.row, a.pc, envs[0], CutResult(w, a));
    var w1 := Advance(w, t, envs[0]);
    if t in w1.attempts {
      assert AttemptInv(w1, t);
      FaultFreeDriveSettles(w1, t, envs[1..]);
    }
  }

  /** What a fault-free retry of a row found in the journal settles with. */
  function RetryOutcome(row: Row): Outcome {
    if row.provider == ProviderPending || (row.provider == ProviderFailed && row.anchor.Some?) then Completed
    else OutcomeOf(row.provider)
  }

  lemma RetryBegins(w: World, input: Input, e: Entrance)
    requires input.threadId !in w.attempts && input.key in w.journal
    requires TargetMatches(w.journal[input.key], input) && !Settled(w.journal[input.key].outcome)
    requires !e.refused && e.write.Accepted?
    ensures
      var row := w.journal[input.key];
      Begin(w, input, e).0 ==
        if HasItem(Transcript(w, input.threadId), input.itemId)
        then w.(attempts := w.attempts[input.threadId := Attempt(input.key, row, ProviderEntry(row))])
        else w.(journal := w.journal[input.key := Merge(row, SETTLED_NOOP)])
  {
  }

  lemma RetryStart(row: Row)
    ensures Rank(ProviderEntry(row)) <= 15
    ensures Destiny(row, ProviderEntry(row)) == RetryOutcome(row)
  {
  }

  /** From any reachable world, one fault-free retry settles the row, with the outcome its provider phase dictates. */
  lemma FaultFreeRetrySettles(w: World, input: Input, e: Entrance, envs: seq<Env>)
    requires Inv(w) && input.threadId !in w.attempts && input.key in w.journal
    requires TargetMatches(w.journal[input.key], input) && !Settled(w.journal[input.key].outcome)
    requires !e.refused && e.write.Accepted?
    requires |envs| >= 15 && forall i :: 0 <= i < |envs| ==> FaultFree(envs[i])
    ensures Ended(Drive(Begin(w, input, e).0, input.threadId, envs), input.threadId, input.key,
                  if HasItem(Transcript(w, input.threadId), input.itemId) then RetryOutcome(w.journal[input.key]) else Completed)
  {
    var row := w.journal[input.key];
    RetryBegins(w, input, e);
    BeginKeepsInv(w, input, e);
    var w1 := Begin(w, input, e).0;
    if HasItem(Transcript(w, input.threadId), input.itemId) {
      RetryStart(row);
      FaultFreeDriveSettles(w1, input.threadId, envs);
    } else {
      assert Drive(w1, input.threadId, envs) == w1;
    }
  }

  /** Attempts end: after as many steps as the longest program, faults or not, the thread is free again. */
  lemma {:induction false} EveryAttemptEnds(w: World, t: string, envs: seq<Env>)
    requires t in w.attempts && |envs| >= Rank(w.attempts[t].pc)
    ensures t !in Drive(w, t, envs).attempts
    decreases |envs|
  {
    var a := w.attempts[t];
    assert Rank(a.pc) > 0;
    MoveDescends(a.row, a.pc, envs[0].(write := EffectiveWrite(w, a.key, envs[0].write)), CutResult(w, a));
    var w1 := Advance(w, t, envs[0]);
    if t in w1.attempts {
      EveryAttemptEnds(w1, t, envs[1..]);
    }
  }

  // --- transcript and provider agree ----------------------------------------

  lemma {:induction false} EndsTurnIdsOfConcat(a: seq<Item>, b: seq<Item>)
    ensures EndsTurnIds(a + b) == EndsTurnIds(a) + EndsTurnIds(b)
  {
    if a == [] {
      assert a + b == b;
    } else {
      var first := if a[0].endsTurn then [a[0].id] else [];
      var x, y := EndsTurnIds(a[1..]), EndsTurnIds(b);
      EndsTurnIdsOfConcat(a[1..], b);
      assert (a + b)[0] == a[0] && (a + b)[1..] == a[1..] + b;
      assert first + (x + y) == (first + x) + y;
    }
  }

  lemma {:induction false} TailOfMore(items: seq<Item>, more: seq<Item>, id: string)
    requires HasItem(items, id)
    ensures Tail(items + more, id) == Tail(items, id) + more
  {
    if items[0].id == id {
      assert (items + more)[1..] == items[1..] + more;
    } else {
      assert HasItem(items[1..], id) by {
        var i :| 0 <= i < |items| && items[i].id == id;
        assert items[1..][i - 1].id == id;
      }
      TailOfMore(items[1..], more, id);
      assert (items + more)[1..] == items[1..] + more;
    }
  }

  /** A fresh claim of this input was taken in `w`. */
  predicate ClaimsFresh(w: World, input: Input, e: Entrance) {
    input.key !in w.journal && input.key in Begin(w, input, e).0.journal
  }

  lemma FreshClaim(w: World, input: Input, e: Entrance)
    requires ClaimsFresh(w, input, e)
    ensures Begin(w, input, e).0.journal[input.key] == FreshRow(w, input, e)
    ensures HasItem(Transcript(w, input.threadId), input.itemId)
  {
  }

  /**
   * From a fresh claim to the cut made under it, whatever ran in between: the provider was
   * asked for the count of turns as the transcript stood at the claim, while the cut removes
   * the turns standing behind the checkpoint at the cut. When the transcript only grew by
   * `more`, the two differ by exactly the turns that `more` completed; where no completed
   * turn was recorded the count is of assistant messages and the cut names only `more`'s.
   */
  lemma FrozenCountIsWhatTheCutRemoves(w: World, input: Input, e: Entrance, es: seq<Event>, more: seq<Item>)
    requires Inv(w) && ClaimsFresh(w, input, e)
    requires !Deleted(Begin(w, input, e).0, es, input.key)
    requires
      var w' := Run(Begin(w, input, e).0, es);
      && input.threadId in w'.attempts && w'.attempts[input.threadId].key == input.key
      && w'.attempts[input.threadId].pc.Cut?
    ensures
      var w' := Run(Begin(w, input, e).0, es);
      var a := w'.attempts[input.threadId];
      var before, now := Transcript(w, input.threadId), Transcript(w', input.threadId);
      var removed := CutResult(w', a).1;
      && a.row.numTurns == CountTurns(before, input.itemId)
      && removed == EndsTurnIds(Tail(now, input.itemId))
      && (now == before + more ==>
            if EndsTurnIds(before) != [] then |removed| == a.row.numTurns + |EndsTurnIds(more)|
            else removed == EndsTurnIds(more) && a.row.numTurns == AssistantCount(Tail(before, input.itemId)))
  {
    var w1 := Begin(w, input, e).0;
    var t, items := input.threadId, Transcript(w, input.threadId);
    FreshClaim(w, input, e);
    BeginKeepsInv(w, input, e);
    RunKeepsInv(w1, es);
    ClaimsAreFrozenAndSettledRowsFinal(w1, es, input.key);
    assert AttemptInv(Run(w1, es), t);
    TailOfMore(items, more, input.itemId);
    EndsTurnIdsOfConcat(Tail(items, input.itemId), more);
    UptoPlusTail(items, input.itemId);
    EndsTurnIdsOfConcat(Upto(items, input.itemId), Tail(items, input.itemId));
  }
}
