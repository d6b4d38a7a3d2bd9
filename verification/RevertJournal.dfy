/**
 * The journaled checkpoint revert as a state machine over values.
 *
 * One attempt is the source's single async function cut at every `await` and at
 * every journal write, so that an abort, a crash or a step of another thread can
 * fall between a journal write and the side effect next to it. An attempt keeps
 * its own in-memory row; the journal keeps the durable one.
 */
module RevertJournal {
  import opened Wrappers

  datatype ProviderPhase =
    | ProviderPending | ProviderCompleted | ProviderFailed | ProviderAmbiguous | ProviderSkippedNoTurns

  datatype FilesPhase = FilesPending | FilesCompleted | FilesFailed | FilesSkippedNoLocation

  datatype TruncatePhase = TruncatePending | TruncateCompleted | TruncateNoop

  datatype Outcome = Running | Completed | CompletedLocalOnly | Ambiguous | Failed

  datatype Row = Row(
    threadId: string, itemId: string, numTurns: nat,
    location: Option<string>, config: Option<string>, anchor: Option<string>,
    provider: ProviderPhase, files: FilesPhase, truncate: TruncatePhase,
    removed: seq<string>, outcome: Outcome)

  type Journal = map<string, Row>

  /** The optional columns of one phase write. */
  datatype Update = Update(
    provider: Option<ProviderPhase>, anchor: Option<string>, files: Option<FilesPhase>,
    truncate: Option<TruncatePhase>, removed: Option<seq<string>>, outcome: Option<Outcome>)

  const NO_UPDATE := Update(None, None, None, None, None, None)

  function Or<T>(o: Option<T>, current: T): T {
    if o.Some? then o.value else current
  }

  function Merge(row: Row, u: Update): Row {
    row.(provider := Or(u.provider, row.provider),
    anchor := if u.anchor.Some? then u.anchor else row.anchor,
    files := Or(u.files, row.files),
    truncate := Or(u.truncate, row.truncate),
    removed := Or(u.removed, row.removed),
    outcome := Or(u.outcome, row.outcome))
  }

  /** Outcomes that replay verbatim and that the update statement never touches. */
  predicate Settled(o: Outcome) {
    o == Completed || o == CompletedLocalOnly || o == Ambiguous
  }

  /** The row filter of the update statement: `outcome IN ('running', 'failed')`. */
  predicate Writable(j: Journal, key: string) {
    key in j && !Settled(j[key].outcome)
  }

  /** What a claim freezes: a later write may change only phases, anchor, anchors removed and outcome. */
  predicate SameClaim(r: Row, s: Row) {
    && r.threadId == s.threadId && r.itemId == s.itemId && r.numTurns == s.numTurns
    && r.location == s.location && r.config == s.config
  }

  // --- transcript -----------------------------------------------------------

  /** `endsTurn`: a completed turn is anchored on the item. */
  datatype Item = Item(id: string, endsTurn: bool, assistant: bool)

  predicate HasItem(items: seq<Item>, id: string) {
    exists i :: 0 <= i < |items| && items[i].id == id
  }

  /** Everything after the first item called `id`; empty when there is none. */
  function Tail(items: seq<Item>, id: string): seq<Item> {
    if items == [] then [] else if items[0].id == id then items[1..] else Tail(items[1..], id)
  }

  function Upto(items: seq<Item>, id: string): seq<Item> {
    if items == [] then []
    else if items[0].id == id then [items[0]]
    else [items[0]] + Upto(items[1..], id)
  }

  lemma {:induction false} UptoPlusTail(items: seq<Item>, id: string)
    ensures items == Upto(items, id) + Tail(items, id)
  {
    if items != [] && items[0].id != id {
      UptoPlusTail(items[1..], id);
    }
  }

  function EndsTurnIds(items: seq<Item>): seq<string> {
    if items == [] then []
    else (if items[0].endsTurn then [items[0].id] else []) + EndsTurnIds(items[1..])
  }

  function AssistantCount(items: seq<Item>): nat {
    if items == [] then 0 else (if items[0].assistant then 1 else 0) + AssistantCount(items[1..])
  }

  /** The server-side turn count frozen by a fresh claim. */
  function CountTurns(items: seq<Item>, id: string): nat {
    if EndsTurnIds(items) != [] then |EndsTurnIds(Tail(items, id))| else AssistantCount(Tail(items, id))
  }

  // --- one attempt ----------------------------------------------------------

  /** Where an attempt stands: before a call, awaiting it, or before a journal write. */
  datatype Pc =
    | SkipNoTurns
    | PlanCall | PlanWait | PlanWrite(planned: string)
    | ProviderRefused(timedOut: bool, unwritten: Option<string>)
    | RestoreCall(target: string) | RestoreWait
    | RelativeMark | RelativeCall | RelativeWait
    | ProviderWrite
    | FilesDecide | FilesWait | FilesWrite | FilesRefused
    | Cut | CutWrite(truncated: bool, anchors: seq<string>)
    | Finish

  /**
   * A call with an outside effect. The last two are none: they mark in the history
   * that an anchor write failed and that the key's row was deleted by retention.
   */
  datatype Action =
    | Plan(turns: nat)
    | Restore(anchor: string)
    | Rollback(turns: nat)
    | RestoreFiles(location: string)
    | Truncate(truncated: bool)
    | AnchorWriteRefused
    | Purged

  datatype PlanResult = Planned(anchor: string) | Unsupported | PlanError(timedOut: bool)
  datatype CallResult = Succeeded | CallError(timedOut: bool)
  datatype WriteResult = Accepted | WriteError(timedOut: bool)

  /** Everything one step cannot decide by itself. */
  datatype Env = Env(plan: PlanResult, call: CallResult, write: WriteResult, intact: bool, cutThrows: bool)

  /** `next == None`: the attempt is over (returned or threw). */
  datatype Move = Move(update: Option<Update>, action: Option<Action>, next: Option<Pc>)

  function ProviderEntry(row: Row): Pc {
    if row.provider == ProviderPending || (row.provider == ProviderFailed && row.anchor.Some?) then
      if row.numTurns == 0 then SkipNoTurns
      else if row.anchor.Some? then RestoreCall(row.anchor.value)
      else PlanCall
    else FilesEntry(row)
  }

  function FilesEntry(row: Row): Pc {
    if row.files == FilesPending || row.files == FilesFailed then FilesDecide else TruncateEntry(row)
  }

  function TruncateEntry(row: Row): Pc {
    if row.truncate == TruncatePending then Cut else Finish
  }

  function OutcomeOf(p: ProviderPhase): Outcome {
    if p == ProviderAmbiguous then Ambiguous
    else if p == ProviderFailed then CompletedLocalOnly
    else Completed
  }

  /** A write whose refusal leaves the attempt (outside any try block, or inside a catch block). */
  function WriteOrThrow(u: Update, write: WriteResult, next: Option<Pc>): Move {
    if write.Accepted? then Move(Some(u), None, next) else Move(None, None, None)
  }

  /** A write inside a try block: its refusal continues in the catch block. */
  function WriteOrCatch(u: Update, write: WriteResult, next: Pc, caught: Pc): Move {
    if write.Accepted? then Move(Some(u), None, Some(next)) else Move(None, None, Some(caught))
  }

  function ErrorPhase(timedOut: bool): ProviderPhase {
    if timedOut then ProviderAmbiguous else ProviderFailed
  }

  /** One step of an attempt, from its in-memory row alone. */
  function Decide(row: Row, pc: Pc, env: Env, cut: (bool, seq<string>)): Move {
    match pc
    case SkipNoTurns =>
      var u := NO_UPDATE.(provider := Some(ProviderSkippedNoTurns));
      WriteOrThrow(u, env.write, Some(FilesEntry(Merge(row, u))))
    case PlanCall =>
      Move(None, Some(Plan(row.numTurns)), Some(PlanWait))
    case PlanWait =>
      Move(None, None, Some(match env.plan
                            case Planned(a) => PlanWrite(a)
                            case Unsupported => RelativeMark
                            case PlanError(t) => ProviderRefused(t, None)))
    case PlanWrite(a) =>
      if env.write.Accepted? then Move(Some(NO_UPDATE.(anchor := Some(a))), None, Some(RestoreCall(a)))
      else Move(None, Some(AnchorWriteRefused), Some(ProviderRefused(env.write.timedOut, Some(a))))
    case ProviderRefused(t, unwritten) =>
      var u := NO_UPDATE.(provider := Some(ErrorPhase(t)));
      WriteOrThrow(u, env.write, Some(if unwritten.Some? && !t then RestoreCall(unwritten.value)
                                      else FilesEntry(Merge(row, u))))
    case RestoreCall(a) =>
      Move(None, Some(Restore(a)), Some(RestoreWait))
    case RestoreWait =>
      Move(None, None, Some(if env.call.Succeeded? then ProviderWrite else ProviderRefused(env.call.timedOut, None)))
    case RelativeMark =>
      WriteOrThrow(NO_UPDATE.(provider := Some(ProviderAmbiguous)), env.write, Some(RelativeCall))
    case RelativeCall =>
      Move(None, Some(Rollback(row.numTurns)), Some(RelativeWait))
    case RelativeWait =>
      Move(None, None, Some(if env.call.Succeeded? then ProviderWrite else ProviderRefused(env.call.timedOut, None)))
    case ProviderWrite =>
      var u := NO_UPDATE.(provider := Some(ProviderCompleted));
      WriteOrCatch(u, env.write, FilesEntry(Merge(row, u)),
                   ProviderRefused(env.write.WriteError? && env.write.timedOut, None))
    case FilesDecide =>
      if row.location.None? || !env.intact then
        var u := NO_UPDATE.(files := Some(FilesSkippedNoLocation));
        WriteOrThrow(u, env.write, Some(TruncateEntry(Merge(row, u))))
      else Move(None, Some(RestoreFiles(row.location.value)), Some(FilesWait))
    case FilesWait =>
      Move(None, None, Some(if env.call.Succeeded? then FilesWrite else FilesRefused))
    case FilesWrite =>
      var u := NO_UPDATE.(files := Some(FilesCompleted));
      WriteOrCatch(u, env.write, TruncateEntry(Merge(row, u)), FilesRefused)
    case FilesRefused =>
      WriteOrThrow(NO_UPDATE.(files := Some(FilesFailed), outcome := Some(Failed)), env.write, None)
    case Cut =>
      if env.cutThrows then Move(None, None, None)
      else Move(None, Some(Truncate(cut.0)), Some(CutWrite(cut.0, cut.1)))
    case CutWrite(truncated, anchors) =>
      WriteOrThrow(NO_UPDATE.(truncate := Some(if truncated then TruncateCompleted else TruncateNoop),
                   removed := Some(anchors)), env.write, Some(Finish))
    case Finish =>
      WriteOrThrow(NO_UPDATE.(outcome := Some(OutcomeOf(row.provider))), env.write, None)
  }

  // --- the whole host -------------------------------------------------------

  datatype Attempt = Attempt(key: string, row: Row, pc: Pc)

  /** One issued side effect together with the journal row on disk at that moment. */
  datatype Entry = Entry(key: string, journaled: Option<Row>, action: Action)

  datatype World = World(
    journal: Journal, attempts: map<string, Attempt>, log: seq<Entry>, transcripts: map<string, seq<Item>>)

  datatype Input = Input(key: string, threadId: string, itemId: string, explicitLocation: Option<string>)

  /** What the entry guards and the claim read outside the journal. */
  datatype Entrance = Entrance(refused: bool, resolvedLocation: Option<string>, config: Option<string>, write: WriteResult)

  datatype Reply = Waiting | Refused | Conflict | Noop | Replayed(row: Row) | Threw | Started

  predicate Initial(w: World) {
    w.journal == map[] && w.attempts == map[] && w.log == []
  }

  function Transcript(w: World, t: string): seq<Item> {
    if t in w.transcripts then w.transcripts[t] else []
  }

  predicate TargetMatches(row: Row, input: Input) {
    && row.threadId == input.threadId && row.itemId == input.itemId
    && (input.explicitLocation.Some? ==> input.explicitLocation == row.location)
  }

  function FreshRow(w: World, input: Input, e: Entrance): Row {
    Row(input.threadId, input.itemId, CountTurns(Transcript(w, input.threadId), input.itemId),
        if input.explicitLocation.Some? then input.explicitLocation else e.resolvedLocation,
        e.config, None, ProviderPending, FilesPending, TruncatePending, [], Running)
  }

  const SETTLED_NOOP := NO_UPDATE.(outcome := Some(Completed), truncate := Some(TruncateNoop), removed := Some([]))

  /** Entry guards, missing-checkpoint handling and claim: everything before the first step. */
  function Begin(w: World, input: Input, e: Entrance): (World, Reply) {
    var t, k := input.threadId, input.key;
    if t in w.attempts then (w, Waiting)
    else if e.refused then (w, Refused)
    else if !HasItem(Transcript(w, t), input.itemId) then
      if k !in w.journal then (w, Noop)
      else if !TargetMatches(w.journal[k], input) then (w, Conflict)
      else if Settled(w.journal[k].outcome) then (w, Replayed(w.journal[k]))
      else if e.write.WriteError? then (w, Threw)
      else (w.(journal := w.journal[k := Merge(w.journal[k], SETTLED_NOOP)]), Noop)
    else if k in w.journal then
      if !TargetMatches(w.journal[k], input) then (w, Conflict)
      else if Settled(w.journal[k].outcome) then (w, Replayed(w.journal[k]))
      else (w.(attempts := w.attempts[t := Attempt(k, w.journal[k], ProviderEntry(w.journal[k]))]), Started)
    else if e.write.WriteError? then (w, Threw)
    else
      var row := FreshRow(w, input, e);
      (w.(journal := w.journal[k := row], attempts := w.attempts[t := Attempt(k, row, ProviderEntry(row))]), Started)
  }

  /** The write result an attempt observes: the update also throws for a missing or settled row. */
  function EffectiveWrite(w: World, key: string, write: WriteResult): WriteResult {
    if write.Accepted? && !Writable(w.journal, key) then WriteError(false) else write
  }

  function CutResult(w: World, a: Attempt): (bool, seq<string>) {
    var tail := Tail(Transcript(w, a.row.threadId), a.row.itemId);
    (tail != [], EndsTurnIds(tail))
  }

  function MoveOf(w: World, a: Attempt, env: Env): Move {
    Decide(a.row, a.pc, env.(write := EffectiveWrite(w, a.key, env.write)), CutResult(w, a))
  }

  function Lookup(j: Journal, key: string): Option<Row> {
    if key in j then Some(j[key]) else None
  }

  /** Performs one move of the attempt on `t`: durable row, in-memory row, log and transcript. */
  function Advance(w: World, t: string, env: Env): World
    requires t in w.attempts
  {
    var a := w.attempts[t];
    var m := MoveOf(w, a, env);
    var log := if m.action.Some? then w.log + [Entry(a.key, Lookup(w.journal, a.key), m.action.value)] else w.log;
    var journal := if m.update.Some? && a.key in w.journal
                   then w.journal[a.key := Merge(w.journal[a.key], m.update.value)] else w.journal;
    var row := if m.update.Some? then Merge(a.row, m.update.value) else a.row;
    var attempts := if m.next.Some? then w.attempts[t := Attempt(a.key, row, m.next.value)] else w.attempts - {t};
    var transcripts := if a.pc.Cut? && !env.cutThrows && HasItem(Transcript(w, a.row.threadId), a.row.itemId)
                       then w.transcripts[a.row.threadId := Upto(Transcript(w, a.row.threadId), a.row.itemId)]
                       else w.transcripts;
    World(journal, attempts, log, transcripts)
  }

  /**
   * The database opens in a new process, with no attempt in flight, and its retention
   * statement deletes the row of `k` unless that row is running.
   */
  function Expired(w: World, k: string): World {
    if k in w.journal && w.journal[k].outcome != Running then
      World(w.journal - {k}, map[], w.log + [Entry(k, Some(w.journal[k]), Purged)], w.transcripts)
    else w.(attempts := map[])
  }

  /**
   * Interference: `Abort` ends one attempt wherever it stands, `Crash` ends all of
   * them, `Expire` reopens the database with one row past its retention (several rows
   * in one opening are several such events in a row), `Edit` lets the rest of the
   * program change a transcript arbitrarily.
   */
  datatype Event =
    | DoBegin(input: Input, entrance: Entrance)
    | DoAdvance(threadId: string, env: Env)
    | Abort(threadId: string)
    | Crash
    | Expire(key: string)
    | Edit(threadId: string, items: seq<Item>)

  function Next(w: World, e: Event): World {
    match e
    case DoBegin(input, entrance) => Begin(w, input, entrance).0
    case DoAdvance(t, env) => if t in w.attempts then Advance(w, t, env) else w
    case Abort(t) => w.(attempts := w.attempts - {t})
    case Crash => w.(attempts := map[])
    case Expire(k) => Expired(w, k)
    case Edit(t, items) => w.(transcripts := w.transcripts[t := items])
  }

  function Run(w: World, es: seq<Event>): World
    decreases |es|
  {
    if es == [] then w else Run(Next(w, es[0]), es[1..])
  }

  lemma {:induction false} RunConcat(w: World, a: seq<Event>, b: seq<Event>)
    ensures Run(w, a + b) == Run(Run(w, a), b)
    decreases |a|
  {
    if a == [] {
      assert a + b == b;
    } else {
      RunConcat(Next(w, a[0]), a[1..], b);
      assert (a + b)[0] == a[0] && (a + b)[1..] == a[1..] + b;
    }
  }

  lemma RunOne(w: World, e: Event)
    ensures Run(w, [e]) == Next(w, e)
  {
    assert [e][1..] == [];
  }
}
