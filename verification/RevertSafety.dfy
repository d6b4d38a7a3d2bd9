/**
 * Safety of the journaled revert over every run: any interleaving of attempts on
 * any number of threads, with aborts, crashes, reopened databases, refused journal
 * writes and foreign transcript edits anywhere.
 */
module RevertSafety {
  import opened Wrappers
  import opened RevertJournal

  // --- what the provider was asked to do for one key ------------------------

  /** What the provider was asked to do for one operation key. `Broken` is everything the design forbids. */
  datatype Mode = Untouched | Relative(turns: nat) | Absolute(anchor: string) | Broken

  function Extend(m: Mode, a: Action): Mode {
    match a
    case Rollback(n) => if m.Untouched? then Relative(n) else Broken
    case Restore(x) => if m.Untouched? || m == Absolute(x) then Absolute(x) else Broken
    case _ => m
  }

  /** Over every claim the key ever had. */
  function HistoryOf(log: seq<Entry>, key: string): Mode {
    if log == [] then Untouched
    else
      var m := HistoryOf(log[..|log| - 1], key);
      var e := log[|log| - 1];
      if e.key == key then Extend(m, e.action) else m
  }

  function InClaim(m: Mode, a: Action): Mode {
    if a.Purged? then Untouched else Extend(m, a)
  }

  /** Over the key's present claim: since its row was last deleted. */
  function ModeOf(log: seq<Entry>, key: string): Mode {
    if log == [] then Untouched
    else
      var m := ModeOf(log[..|log| - 1], key);
      var e := log[|log| - 1];
      if e.key == key then InClaim(m, e.action) else m
  }

  lemma ModeOfAppend(log: seq<Entry>, e: Entry, key: string)
    ensures ModeOf(log + [e], key) == if e.key == key then InClaim(ModeOf(log, key), e.action) else ModeOf(log, key)
    ensures HistoryOf(log + [e], key) == if e.key == key then Extend(HistoryOf(log, key), e.action) else HistoryOf(log, key)
  {
    assert (log + [e])[..|log|] == log;
  }

  /** The log of the key's present claim: what follows the last deletion of its row. */
  function Current(log: seq<Entry>, key: string): seq<Entry> {
    if log == [] then []
    else
      var e := log[|log| - 1];
      if e.key == key && e.action.Purged? then [] else Current(log[..|log| - 1], key) + [e]
  }

  lemma {:induction false} CurrentIsTheEnd(log: seq<Entry>, key: string)
    ensures |Current(log, key)| <= |log| && log[|log| - |Current(log, key)|..] == Current(log, key)
  {
    if log != [] {
      var rest, e := log[..|log| - 1], log[|log| - 1];
      CurrentIsTheEnd(rest, key);
      if !(e.key == key && e.action.Purged?) {
        assert log[|log| - 1 - |Current(rest, key)|..] == rest[|rest| - |Current(rest, key)|..] + [e];
      }
    }
  }

  lemma {:induction false} CurrentHistory(log: seq<Entry>, key: string)
    ensures ModeOf(log, key) == HistoryOf(Current(log, key), key)
  {
    if log != [] {
      var rest, e := log[..|log| - 1], log[|log| - 1];
      CurrentHistory(rest, key);
      assert (Current(rest, key) + [e])[..|Current(rest, key)|] == Current(rest, key);
    }
  }

  function RollbackCount(log: seq<Entry>, key: string): nat {
    if log == [] then 0
    else
      var e := log[|log| - 1];
      RollbackCount(log[..|log| - 1], key) + (if e.key == key && e.action.Rollback? then 1 else 0)
  }

  /** Every anchor the provider was restored to for a key. */
  function RestoredTo(log: seq<Entry>, key: string): set<string> {
    if log == [] then {}
    else
      var e := log[|log| - 1];
      RestoredTo(log[..|log| - 1], key) + if e.key == key && e.action.Restore? then {e.action.anchor} else {}
  }

  lemma {:induction false} RestoredMeans(log: seq<Entry>, key: string, anchor: string)
    ensures anchor in RestoredTo(log, key) <==> exists i :: 0 <= i < |log| && log[i].key == key && log[i].action == Restore(anchor)
  {
    if log != [] {
      var rest := log[..|log| - 1];
      RestoredMeans(rest, key, anchor);
      assert forall i :: 0 <= i < |rest| ==> log[i] == rest[i];
    }
  }

  /** The plain reading of `HistoryOf != Broken`: one rollback and no restore, or restores to one anchor only. */
  ghost predicate AtMostOnce(log: seq<Entry>, key: string) {
    && RollbackCount(log, key) <= 1
    && (forall a, b :: a in RestoredTo(log, key) && b in RestoredTo(log, key) ==> a == b)
    && (RollbackCount(log, key) == 1 ==> RestoredTo(log, key) == {})
  }

  lemma {:induction false} ModeMeaning(log: seq<Entry>, key: string)
    ensures HistoryOf(log, key).Untouched? <==> RollbackCount(log, key) == 0 && RestoredTo(log, key) == {}
    ensures HistoryOf(log, key).Relative? ==> RollbackCount(log, key) == 1 && RestoredTo(log, key) == {}
    ensures HistoryOf(log, key).Absolute? ==>
              RollbackCount(log, key) == 0 && RestoredTo(log, key) == {HistoryOf(log, key).anchor}
    ensures !HistoryOf(log, key).Broken? <==> AtMostOnce(log, key)
  {
    if log != [] {
      var rest, last := log[..|log| - 1], log[|log| - 1];
      ModeMeaning(rest, key);
      assert RestoredTo(rest, key) <= RestoredTo(log, key) && RollbackCount(rest, key) <= RollbackCount(log, key);
      if last.key == key && last.action.Restore? {
        assert last.action.anchor in RestoredTo(log, key);
      }
    }
  }

  // --- the invariant --------------------------------------------------------

  predicate RowMode(row: Row, m: Mode) {
    && !m.Broken?
    && (m.Relative? ==> m.turns == row.numTurns)
    && (row.anchor.Some? ==> m.Untouched? || m == Absolute(row.anchor.value))
    && (row.anchor.None? && row.provider == ProviderPending ==> m.Untouched?)
  }

  predicate FilesSettled(row: Row) {
    row.files == FilesCompleted || row.files == FilesSkippedNoLocation
  }

  predicate PcInv(row: Row, pc: Pc, m: Mode) {
    match pc
    case SkipNoTurns => row.numTurns == 0
    case PlanCall => row.provider == ProviderPending && row.anchor.None? && row.numTurns > 0
    case PlanWait => row.provider == ProviderPending && row.anchor.None? && row.numTurns > 0
    case PlanWrite(_) => row.provider == ProviderPending && row.anchor.None? && row.numTurns > 0
    case ProviderRefused(_, unwritten) =>
      && (unwritten.Some? ==> row.provider == ProviderPending && row.anchor.None?)
      && row.numTurns > 0
    case RestoreCall(a) =>
      && row.numTurns > 0
      && (((row.provider == ProviderPending || row.provider == ProviderFailed) && row.anchor == Some(a))
          || (row.provider == ProviderFailed && row.anchor.None? && m.Untouched?))
    case RestoreWait => row.numTurns > 0
    case RelativeMark => row.provider == ProviderPending && row.anchor.None? && row.numTurns > 0
    case RelativeCall => row.provider == ProviderAmbiguous && row.anchor.None? && m.Untouched? && row.numTurns > 0
    case RelativeWait => row.numTurns > 0
    case ProviderWrite => row.numTurns > 0
    case FilesDecide => row.provider != ProviderPending && !FilesSettled(row)
    case FilesWait => row.provider != ProviderPending && !FilesSettled(row) && row.location.Some?
    case FilesWrite => row.provider != ProviderPending && !FilesSettled(row) && row.location.Some?
    case FilesRefused => row.provider != ProviderPending && !FilesSettled(row)
    case Cut => row.provider != ProviderPending && FilesSettled(row) && row.truncate == TruncatePending
    case CutWrite(_, _) => row.provider != ProviderPending && FilesSettled(row) && row.truncate == TruncatePending
    case Finish => row.provider != ProviderPending && FilesSettled(row) && row.truncate != TruncatePending
  }

  /** What a log entry promises about the claim it served, as the journal held it at that moment. */
  predicate EntryInv(e: Entry) {
    && e.journaled.Some?
    && var row := e.journaled.value;
       && (if e.action.Purged? then row.outcome != Running else !Settled(row.outcome))
       && match e.action
          case Plan(n) => n == row.numTurns && n > 0
          case Rollback(n) => n == row.numTurns && n > 0
          case RestoreFiles(l) => row.location == Some(l) && row.provider != ProviderPending
          case Truncate(_) => row.provider != ProviderPending && FilesSettled(row) && row.truncate == TruncatePending
          case _ => true
  }

  /** The row that entry `i` saw is still there at the moment `n`: no entry before that deletes the row of its key. */
  ghost predicate StillClaimed(log: seq<Entry>, i: int, n: int)
    requires 0 <= i < |log| && n <= |log|
  {
    forall j :: i <= j < n && log[j].key == log[i].key ==> !log[j].action.Purged?
  }

  lemma StillClaimedEarlier(log: seq<Entry>, log': seq<Entry>, i: int, n: int)
    requires 0 <= i < |log| && n <= |log| <= |log'| && log'[..|log|] == log
    ensures StillClaimed(log', i, n) <==> StillClaimed(log, i, n)
    ensures StillClaimed(log', i, |log'|) ==> StillClaimed(log, i, |log|)
  {
    assert forall j :: 0 <= j < |log| ==> log'[j] == log'[..|log|][j];
  }

  /** The claim that the journal now holds for an entry's key is the one the entry served. */
  predicate ServesClaim(j: Journal, e: Entry) {
    e.key in j && e.journaled.Some? && SameClaim(e.journaled.value, j[e.key])
  }

  /** The in-memory row of a live attempt is the journal row, and the row is not settled. */
  ghost predicate AttemptInv(w: World, t: string)
    requires t in w.attempts
  {
    var a := w.attempts[t];
    && a.key in w.journal && w.journal[a.key] == a.row
    && a.row.threadId == t && !Settled(a.row.outcome)
    && PcInv(a.row, a.pc, ModeOf(w.log, a.key))
  }

  ghost predicate KeyInv(w: World, key: string)
    requires key in w.journal
  {
    RowMode(w.journal[key], ModeOf(w.log, key))
  }

  ghost predicate LogInv(w: World) {
    && (forall i :: 0 <= i < |w.log| ==> EntryInv(w.log[i]))
    && (forall i :: 0 <= i < |w.log| && StillClaimed(w.log, i, |w.log|) ==> ServesClaim(w.journal, w.log[i]))
  }

  ghost predicate Inv(w: World) {
    && (forall t :: t in w.attempts ==> AttemptInv(w, t))
    && (forall k :: k in w.journal ==> KeyInv(w, k))
    && (forall k :: k !in w.journal ==> ModeOf(w.log, k).Untouched?)
    && LogInv(w)
  }

  lemma InitialInv(w: World)
    requires Initial(w)
    ensures Inv(w)
  {
  }

  lemma EntryPcInv(row: Row, m: Mode)
    requires RowMode(row, m)
    ensures PcInv(row, ProviderEntry(row), m)
  {
  }

  /** What a move leaves behind for its own key: the claim, the row's mode, and the discipline of the next step. */
  predicate KeepsDiscipline(row: Row, move: Move, m: Mode) {
    var row2 := if move.update.Some? then Merge(row, move.update.value) else row;
    var m2 := if move.action.Some? then Extend(m, move.action.value) else m;
    && SameClaim(row, row2)
    && RowMode(row2, m2)
    && (move.next.Some? ==> PcInv(row2, move.next.value, m2))
  }

  predicate Planning(pc: Pc) {
    pc.SkipNoTurns? || pc.PlanCall? || pc.PlanWait? || pc.PlanWrite? || pc.ProviderRefused?
  }

  predicate Calling(pc: Pc) {
    pc.RestoreCall? || pc.RestoreWait? || pc.RelativeMark? || pc.RelativeCall? || pc.RelativeWait? || pc.ProviderWrite?
  }

  lemma PlanningKeepsDiscipline(row: Row, pc: Pc, env: Env, cut: (bool, seq<string>), m: Mode)
    requires RowMode(row, m) && PcInv(row, pc, m) && Planning(pc)
    ensures KeepsDiscipline(row, Decide(row, pc, env, cut), m)
  {
  }

  lemma CallingKeepsDiscipline(row: Row, pc: Pc, env: Env, cut: (bool, seq<string>), m: Mode)
    requires RowMode(row, m) && PcInv(row, pc, m) && Calling(pc)
    ensures KeepsDiscipline(row, Decide(row, pc, env, cut), m)
  {
  }

  lemma FinishingKeepsDiscipline(row: Row, pc: Pc, env: Env, cut: (bool, seq<string>), m: Mode)
    requires RowMode(row, m) && PcInv(row, pc, m) && !Planning(pc) && !Calling(pc)
    ensures KeepsDiscipline(row, Decide(row, pc, env, cut), m)
  {
  }

  /** One move keeps the row and program-counter discipline of its own key. */
  lemma MoveKeepsDiscipline(row: Row, pc: Pc, env: Env, cut: (bool, seq<string>), m: Mode)
    requires RowMode(row, m) && PcInv(row, pc, m)
    ensures KeepsDiscipline(row, Decide(row, pc, env, cut), m)
  {
    if Planning(pc) {
      PlanningKeepsDiscipline(row, pc, env, cut, m);
    } else if Calling(pc) {
      CallingKeepsDiscipline(row, pc, env, cut, m);
    } else {
      FinishingKeepsDiscipline(row, pc, env, cut, m);
    }
  }

  /** The log entry a move produces serves the claim it belongs to, and only a last write settles. */
  predicate KeepsEntry(key: string, row: Row, move: Move) {
    && (move.action.Some? ==> EntryInv(Entry(key, Some(row), move.action.value)) && !move.action.value.Purged?)
    && (move.next.Some? && move.update.Some? ==> move.update.value.outcome.None?)
  }

  lemma MoveKeepsEntry(key: string, row: Row, pc: Pc, env: Env, cut: (bool, seq<string>), m: Mode)
    requires RowMode(row, m) && PcInv(row, pc, m) && !Settled(row.outcome)
    ensures KeepsEntry(key, row, Decide(row, pc, env, cut))
  {
  }

  /** The world after one move of the attempt on `t`: its row in journal and memory, its place, the log. */
  predicate Moved(w: World, t: string, m: Move, w': World)
    requires t in w.attempts
  {
    var a := w.attempts[t];
    var row2 := if m.update.Some? then Merge(a.row, m.update.value) else a.row;
    && w'.journal == w.journal[a.key := row2]
    && w'.attempts == (if m.next.Some? then w.attempts[t := Attempt(a.key, row2, m.next.value)] else w.attempts - {t})
    && w'.log == (if m.action.Some? then w.log + [Entry(a.key, Some(a.row), m.action.value)] else w.log)
  }

  /** How one step of an attempt changes the world, given the invariant. */
  lemma AdvanceShape(w: World, t: string, env: Env)
    requires Inv(w) && t in w.attempts
    ensures
      var a := w.attempts[t];
      && a.key in w.journal && w.journal[a.key] == a.row
      && Moved(w, t, Decide(a.row, a.pc, env, CutResult(w, a)), Advance(w, t, env))
  {
    assert AttemptInv(w, t);
    var a := w.attempts[t];
    MoveOfIsDecide(w, a, env);
    assert w.journal[a.key := w.journal[a.key]] == w.journal;
  }

  lemma MoveOfIsDecide(w: World, a: Attempt, env: Env)
    requires Writable(w.journal, a.key)
    ensures MoveOf(w, a, env) == Decide(a.row, a.pc, env, CutResult(w, a))
  {
    assert env.(write := env.write) == env;
  }

  /** Only the row of `k`, the attempt on `k`'s thread and log entries of `k` change. */
  ghost predicate TouchesOnly(w: World, w': World, t: string, k: string) {
    && k in w'.journal && w'.journal[k].threadId == t
    && w'.journal.Keys == w.journal.Keys + {k}
    && (forall x :: x in w.journal && x != k ==> w'.journal[x] == w.journal[x])
    && (k in w.journal ==> SameClaim(w.journal[k], w'.journal[k]))
    && (forall x :: x in w'.attempts && x != t ==> x in w.attempts && w'.attempts[x] == w.attempts[x])
    && (w'.log == w.log
        || (|w'.log| == |w.log| + 1 && w'.log[..|w.log|] == w.log
            && w'.log[|w.log|].key == k && !w'.log[|w.log|].action.Purged?
            && EntryInv(w'.log[|w.log|]) && ServesClaim(w'.journal, w'.log[|w.log|])))
  }

  lemma TouchedModes(w: World, w': World, t: string, k: string, key: string)
    requires TouchesOnly(w, w', t, k) && key != k
    ensures ModeOf(w'.log, key) == ModeOf(w.log, key)
  {
    if w'.log != w.log {
      assert w'.log == w.log + [w'.log[|w.log|]];
      ModeOfAppend(w.log, w'.log[|w.log|], key);
    }
  }

  lemma TouchingOneKeyKeepsInv(w: World, w': World, t: string, k: string)
    requires Inv(w) && TouchesOnly(w, w', t, k) && KeyInv(w', k)
    requires t in w'.attempts ==> AttemptInv(w', t)
    ensures Inv(w')
  {
    forall t' | t' in w'.attempts ensures AttemptInv(w', t')
    {
      if t' != t {
        assert AttemptInv(w, t');
        TouchedModes(w, w', t, k, w.attempts[t'].key);
      }
    }
    forall key | key in w'.journal ensures KeyInv(w', key)
    {
      if key != k {
        assert KeyInv(w, key);
        TouchedModes(w, w', t, k, key);
      }
    }
    forall key | key !in w'.journal ensures ModeOf(w'.log, key).Untouched?
    {
      TouchedModes(w, w', t, k, key);
    }
    TouchingOneKeyKeepsLog(w, w', t, k);
  }

  lemma TouchingOneKeyKeepsLog(w: World, w': World, t: string, k: string)
    requires LogInv(w) && TouchesOnly(w, w', t, k)
    ensures LogInv(w')
  {
    var n, n' := |w.log|, |w'.log|;
    assert w'.log[..n] == w.log;
    forall i | 0 <= i < n' ensures EntryInv(w'.log[i]) && (StillClaimed(w'.log, i, n') ==> ServesClaim(w'.journal, w'.log[i]))
    {
      if i < n {
        assert w'.log[i] == w.log[i] && EntryInv(w.log[i]);
        StillClaimedEarlier(w.log, w'.log, i, n);
        assert StillClaimed(w'.log, i, n') ==> ServesClaim(w.journal, w.log[i]);
      }
    }
  }

  lemma AdvanceKeepsInv(w: World, t: string, env: Env)
    requires Inv(w) && t in w.attempts
    ensures Inv(Advance(w, t, env))
  {
    assert AttemptInv(w, t);
    AdvanceShape(w, t, env);
    var a := w.attempts[t];
    assert KeyInv(w, a.key);
    var cut := CutResult(w, a);
    MoveKeepsDiscipline(a.row, a.pc, env, cut, ModeOf(w.log, a.key));
    MoveKeepsEntry(a.key, a.row, a.pc, env, cut, ModeOf(w.log, a.key));
    MovedKeepsInv(w, t, Decide(a.row, a.pc, env, cut), Advance(w, t, env));
  }

  /** The bookkeeping of `AdvanceKeepsInv`. */
  lemma MovedKeepsInv(w: World, t: string, m: Move, w': World)
    requires Inv(w) && t in w.attempts && Moved(w, t, m, w')
    requires KeepsDiscipline(w.attempts[t].row, m, ModeOf(w.log, w.attempts[t].key))
    requires KeepsEntry(w.attempts[t].key, w.attempts[t].row, m)
    ensures Inv(w')
  {
    var a := w.attempts[t];
    assert AttemptInv(w, t);
    MovedTouches(w, t, m, w');
    if m.action.Some? {
      ModeOfAppend(w.log, Entry(a.key, Some(a.row), m.action.value), a.key);
    }
    TouchingOneKeyKeepsInv(w, w', t, a.key);
  }

  lemma MovedTouches(w: World, t: string, m: Move, w': World)
    requires t in w.attempts && AttemptInv(w, t) && Moved(w, t, m, w')
    requires KeepsDiscipline(w.attempts[t].row, m, ModeOf(w.log, w.attempts[t].key))
    requires KeepsEntry(w.attempts[t].key, w.attempts[t].row, m)
    ensures TouchesOnly(w, w', t, w.attempts[t].key)
  {
  }

  /** What entry can change: the key's own row, keeping claim and anchor, and a new attempt starting from that row. */
  ghost predicate Entered(w: World, t: string, k: string, w': World) {
    && w'.log == w.log
    && k in w'.journal && w'.journal.Keys == w.journal.Keys + {k}
    && (forall x :: x in w.journal && x != k ==> w'.journal[x] == w.journal[x])
    && (if k in w.journal then SameClaim(w.journal[k], w'.journal[k]) && w'.journal[k].anchor == w.journal[k].anchor
                               && w'.journal[k].provider == w.journal[k].provider
        else w'.journal[k].anchor == None && w'.journal[k].provider == ProviderPending)
    && w'.journal[k].threadId == t
    && (w'.attempts == w.attempts
        || (!Settled(w'.journal[k].outcome)
            && w'.attempts == w.attempts[t := Attempt(k, w'.journal[k], ProviderEntry(w'.journal[k]))]))
    && t !in w.attempts
  }

  lemma BeginShape(w: World, input: Input, e: Entrance)
    ensures
      var w' := Begin(w, input, e).0;
      w' == w || Entered(w, input.threadId, input.key, w')
  {
  }

  lemma BeginKeepsInv(w: World, input: Input, e: Entrance)
    requires Inv(w)
    ensures Inv(Begin(w, input, e).0)
  {
    BeginShape(w, input, e);
    if Begin(w, input, e).0 != w {
      EnteredKeepsInv(w, input.threadId, input.key, Begin(w, input, e).0);
    }
  }

  lemma EnteredKeepsInv(w: World, t: string, k: string, w': World)
    requires Inv(w) && Entered(w, t, k, w')
    ensures Inv(w')
  {
    if k in w.journal {
      assert KeyInv(w, k);
    }
    assert RowMode(w'.journal[k], ModeOf(w.log, k));
    EntryPcInv(w'.journal[k], ModeOf(w.log, k));
    TouchingOneKeyKeepsInv(w, w', t, k);
  }

  lemma LosingAttemptsKeepsInv(w: World, w': World)
    requires Inv(w) && w'.journal == w.journal && w'.log == w.log
    requires forall t :: t in w'.attempts ==> t in w.attempts && w'.attempts[t] == w.attempts[t]
    ensures Inv(w')
  {
    forall t | t in w'.attempts ensures AttemptInv(w', t) { assert AttemptInv(w, t); }
    forall k | k in w'.journal ensures KeyInv(w', k) { assert KeyInv(w, k); }
  }

  lemma ExpiredKeepsLog(w: World, k: string)
    requires LogInv(w)
    ensures LogInv(Expired(w, k))
  {
    if k in w.journal && w.journal[k].outcome != Running {
      PurgedKeepsLog(w, Expired(w, k), k);
    }
  }

  lemma PurgedKeepsLog(w: World, w': World, k: string)
    requires LogInv(w) && k in w.journal && w.journal[k].outcome != Running
    requires w'.journal == w.journal - {k} && w'.log == w.log + [Entry(k, Some(w.journal[k]), Purged)]
    ensures LogInv(w')
  {
    var n := |w.log|;
    assert w'.log[n].key == k && w'.log[n].action.Purged?;
    assert w'.log[..n] == w.log;
    forall i | 0 <= i < n + 1
      ensures EntryInv(w'.log[i]) && (StillClaimed(w'.log, i, n + 1) ==> ServesClaim(w'.journal, w'.log[i]))
    {
      if i < n {
        assert w'.log[i] == w.log[i] && EntryInv(w.log[i]);
        StillClaimedEarlier(w.log, w'.log, i, n);
        assert StillClaimed(w'.log, i, n + 1) ==> w.log[i].key != k && ServesClaim(w.journal, w.log[i]);
      }
    }
  }

  /** A deleted row leaves its key with a clean claim; no other key notices. */
  lemma ExpiredMode(w: World, k: string, key: string)
    ensures ModeOf(Expired(w, k).log, key) ==
            if key == k && k in w.journal && w.journal[k].outcome != Running then Untouched else ModeOf(w.log, key)
  {
    if k in w.journal && w.journal[k].outcome != Running {
      ModeOfAppend(w.log, Entry(k, Some(w.journal[k]), Purged), key);
    }
  }

  lemma ExpiredKeepsInv(w: World, k: string)
    requires Inv(w)
    ensures Inv(Expired(w, k))
  {
    var w' := Expired(w, k);
    ExpiredKeepsLog(w, k);
    forall key | key in w'.journal ensures KeyInv(w', key) {
      assert KeyInv(w, key);
      ExpiredMode(w, k, key);
    }
    forall key | key !in w'.journal ensures ModeOf(w'.log, key).Untouched? { ExpiredMode(w, k, key); }
  }

  lemma NextKeepsInv(w: World, e: Event)
    requires Inv(w)
    ensures Inv(Next(w, e))
  {
    match e
    case DoBegin(input, entrance) =>
      BeginKeepsInv(w, input, entrance);
    case DoAdvance(t, env) =>
      if t in w.attempts {
        AdvanceKeepsInv(w, t, env);
      }
    case Expire(k) =>
      ExpiredKeepsInv(w, k);
    case _ =>
      LosingAttemptsKeepsInv(w, Next(w, e));
  }

  lemma {:induction false} RunKeepsInv(w: World, es: seq<Event>)
    requires Inv(w)
    ensures Inv(Run(w, es))
    decreases |es|
  {
    if es != [] {
      NextKeepsInv(w, es[0]);
      RunKeepsInv(Next(w, es[0]), es[1..]);
    }
  }

  lemma StepKeepsTranscripts(w: World, t: string, env: Env)
    requires t in w.attempts && !w.attempts[t].pc.Cut?
    ensures Next(w, DoAdvance(t, env)).transcripts == w.transcripts
  {
  }

  /** One step of the attempt on `t` that the caller knows the move of: where it stands then, and what the log gained. */
  lemma OneStep(w: World, t: string, env: Env, m: Move)
    requires Inv(w) && t in w.attempts && m.next.Some?
    requires m == Decide(w.attempts[t].row, w.attempts[t].pc, env, CutResult(w, w.attempts[t]))
    ensures
      var a := w.attempts[t];
      var w' := Next(w, DoAdvance(t, env));
      && Inv(w') && t in w'.attempts
      && w'.attempts[t] == Attempt(a.key, if m.update.Some? then Merge(a.row, m.update.value) else a.row, m.next.value)
      && w'.log == w.log + (if m.action.Some? then [Entry(a.key, Some(a.row), m.action.value)] else [])
      && (!a.pc.Cut? ==> w'.transcripts == w.transcripts)
  {
    hide Inv, Decide, Advance;
    AdvanceShape(w, t, env);
    AdvanceKeepsInv(w, t, env);
    if !w.attempts[t].pc.Cut? {
      StepKeepsTranscripts(w, t, env);
    }
  }
}
