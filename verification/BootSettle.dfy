/**
 * The boot pass over delegated-agent rows: candidates come from folding the uncommitted
 * events over the stored rows; each thread's gate commits its accepted prefix and then
 * settles the captured rows that are still orphaned. The writer that commits the prefix
 * is modelled beside the fold, because the two do not treat every event alike.
 */
module BootSettle {
  import opened Wrappers

  type Payload = map<string, string>

  datatype Key = Key(threadId: string, itemId: string)

  datatype Kind = ToolCall | Reasoning | OtherKind
  datatype ItemState = Started | Updated | Completed

  /** `payload` is absent for a stored null and for anything that is not an object. */
  datatype Row = Row(kind: Kind, state: ItemState, payload: Option<Payload>)

  type Table = map<Key, Row>

  /** `empty` on a completion: a reasoning item without text, which the writer deletes. */
  datatype Event =
    | ItemStarted(key: Key, kind: Kind, payload: Option<Payload>)
    | ItemUpdated(key: Key, payload: Option<Payload>)
    | ItemCompleted(key: Key, payload: Option<Payload>, empty: bool)

  // --- classification -------------------------------------------------------

  function Field(p: Payload, name: string): Option<string> {
    if name in p then Some(p[name]) else None
  }

  /** `delegated` stands for the shared tool classifier, which sees the payload only. */
  predicate IsOrphaned(payload: Option<Payload>, delegated: Payload -> bool) {
    payload.Some? && var p := payload.value;
    && delegated(p)
    && Field(p, "status") != Some("success")
    && Field(p, "status") != Some("error")
    && !(Field(p, "isCrossagent") == Some("true")
         && Field(p, "crossagentStatus").Some? && Field(p, "crossagentStatus") != Some("running"))
  }

  /** The rows the database lists as maybe still running; `legacy` adds completed rows whose payload says running. */
  predicate Listed(row: Row, legacy: bool) {
    row.kind == ToolCall
    && (row.state != Completed || (legacy && row.payload.Some? && Field(row.payload.value, "status") == Some("running")))
  }

  predicate Orphan(row: Row, legacy: bool, delegated: Payload -> bool) {
    Listed(row, legacy) && IsOrphaned(row.payload, delegated)
  }

  // --- the writer -----------------------------------------------------------

  function MergePayload(previous: Option<Payload>, next: Option<Payload>): Option<Payload> {
    if previous.None? || next.None? then next else Some(previous.value + next.value)
  }

  function Write(table: Table, e: Event): Table {
    match e
    case ItemStarted(k, kind, payload) =>
      if k in table then table else table[k := Row(kind, Started, payload)]
    case ItemUpdated(k, payload) =>
      if k !in table then table
      else table[k := Row(table[k].kind, if table[k].state == Completed then Completed else Updated,
                          MergePayload(table[k].payload, payload))]
    case ItemCompleted(k, payload, empty) =>
      if k !in table then table
      else if table[k].kind == Reasoning && empty then table - {k}
      else table[k := Row(table[k].kind, Completed,
                          if payload.None? then table[k].payload else MergePayload(table[k].payload, payload))]
  }

  function WriteAll(table: Table, es: seq<Event>): Table
    decreases |es|
  {
    if es == [] then table else WriteAll(Write(table, es[0]), es[1..])
  }

  function OfThread(es: seq<Event>, t: string): seq<Event> {
    if es == [] then []
    else (if es[0].key.threadId == t then [es[0]] else []) + OfThread(es[1..], t)
  }

  // --- the capture ----------------------------------------------------------

  /** Payloads as remembered so far, and the keys captured at any moment. */
  datatype Fold = Fold(payloads: map<Key, Option<Payload>>, candidates: set<Key>)

  function Remember(f: Fold, k: Key, payload: Option<Payload>, delegated: Payload -> bool): Fold {
    Fold(f.payloads[k := payload], if IsOrphaned(payload, delegated) then f.candidates + {k} else f.candidates)
  }

  function Spread(payload: Option<Payload>): Payload {
    if payload.Some? then payload.value else map[]
  }

  function Scan(table: Table, legacy: bool, delegated: Payload -> bool): Fold {
    Fold(map k | k in table && Listed(table[k], legacy) :: table[k].payload,
         set k | k in table && Orphan(table[k], legacy, delegated))
  }

  /** Completions never reach the fold: the pending inventory holds starts and updates only. */
  function Step(f: Fold, e: Event, delegated: Payload -> bool): Fold {
    match e
    case ItemStarted(k, kind, payload) =>
      if kind == ToolCall then Remember(f, k, payload, delegated) else f
    case ItemUpdated(k, payload) =>
      if k !in f.payloads then f else Remember(f, k, Some(Spread(f.payloads[k]) + Spread(payload)), delegated)
    case ItemCompleted(_, _, _) => f
  }

  function Steps(f: Fold, es: seq<Event>, delegated: Payload -> bool): Fold
    decreases |es|
  {
    if es == [] then f else Steps(Step(f, es[0], delegated), es[1..], delegated)
  }

  function Captured(table: Table, es: seq<Event>, legacy: bool, delegated: Payload -> bool): set<Key> {
    Steps(Scan(table, legacy, delegated), es, delegated).candidates
  }

  // --- settlement -----------------------------------------------------------

  /** The text of a result object that carries an error message. */
  function ErrorObject(message: string): string {
    "{error: " + message + "}"
  }

  /** Ends an orphaned run's row, keeping everything else it recorded. */
  function Interrupt(p: Payload, message: string): Payload {
    var p1 := p["status" := "error"];
    var p2 := if Field(p, "subAgentStatus") in {Some("running"), Some("paused")} then p1["subAgentStatus" := "failed"] else p1;
    var p3 := if Field(p, "isCrossagent") == Some("true") && Field(p, "crossagentStatus") in {None, Some("running")}
              then p2["crossagentStatus" := "failed"] else p2;
    if Field(p, "result").Some? then p3
    else p3["result" := if Field(p, "isCrossagent") == Some("true") then message else ErrorObject(message)]
  }

  /** The captured rows of a thread that are still orphaned once its prefix is committed. */
  function Settled(after: Table, t: string, captured: set<Key>, delegated: Payload -> bool): set<Key> {
    set k | k in captured && k in after && k.threadId == t && Orphan(after[k], true, delegated)
  }

  /** What the settlement writes: each settled row completed, with its payload interrupted. */
  function Settle(after: Table, settled: set<Key>, message: string): Table {
    map k | k in after :: if k in settled && after[k].payload.Some?
                          then Row(after[k].kind, Completed, Some(Interrupt(after[k].payload.value, message)))
                          else after[k]
  }

  // --- the pass as the code runs it -----------------------------------------

  /** The by-thread map holds exactly these keys, and no thread without one. */
  ghost predicate Lists(candidates: map<string, set<string>>, keys: set<Key>) {
    && (forall k: Key :: k in keys <==> k.threadId in candidates && k.itemId in candidates[k.threadId])
    && (forall t :: t in candidates ==> candidates[t] != {})
  }

  function AddTo(candidates: map<string, set<string>>, k: Key): map<string, set<string>> {
    candidates[k.threadId := (if k.threadId in candidates then candidates[k.threadId] else {}) + {k.itemId}]
  }

  lemma AddToLists(candidates: map<string, set<string>>, keys: set<Key>, k: Key)
    requires Lists(candidates, keys)
    ensures Lists(AddTo(candidates, k), keys + {k})
  {
  }

  /** Remembers every listed row and captures the orphaned ones. */
  method ScanRows(table: Table, rows: seq<Key>, legacy: bool, delegated: Payload -> bool)
    returns (candidates: map<string, set<string>>, payloads: map<Key, Option<Payload>>)
    requires forall k :: k in rows <==> k in table && Listed(table[k], legacy)
    ensures payloads == Scan(table, legacy, delegated).payloads
    ensures Lists(candidates, Scan(table, legacy, delegated).candidates)
  {
    candidates, payloads := map[], map[];
    ghost var keys: set<Key> := {};
    var i := 0;
    while i < |rows|
      invariant 0 <= i <= |rows|
      invariant payloads.Keys == set k | k in rows[..i]
      invariant forall k :: k in payloads ==> payloads[k] == table[k].payload
      invariant keys == set k | k in rows[..i] && IsOrphaned(table[k].payload, delegated)
      invariant Lists(candidates, keys)
    {
      var k := rows[i];
      assert rows[..i + 1] == rows[..i] + [k];
      payloads := payloads[k := table[k].payload];
      if IsOrphaned(table[k].payload, delegated) {
        AddToLists(candidates, keys, k);
        candidates, keys := AddTo(candidates, k), keys + {k};
      }
      i := i + 1;
    }
    assert rows[..i] == rows;
    assert keys == Scan(table, legacy, delegated).candidates;
  }

  /** Folds the pending events over what was scanned. */
  method FoldPending(scanned: map<string, set<string>>, remembered: map<Key, Option<Payload>>, ghost found: set<Key>,
                     pending: seq<Event>, delegated: Payload -> bool)
    returns (candidates: map<string, set<string>>)
    requires Lists(scanned, found)
    ensures Lists(candidates, Steps(Fold(remembered, found), pending, delegated).candidates)
  {
    candidates := scanned;
    var payloads := remembered;
    ghost var keys := found;
    var i := 0;
    while i < |pending|
      invariant 0 <= i <= |pending|
      invariant Lists(candidates, keys)
      invariant Steps(Fold(payloads, keys), pending[i..], delegated) == Steps(Fold(remembered, found), pending, delegated)
    {
      var e := pending[i];
      assert pending[i..][1..] == pending[i + 1..];
      if (e.ItemStarted? && e.kind == ToolCall) || (e.ItemUpdated? && e.key in payloads) {
        var payload := if e.ItemStarted? then e.payload else Some(Spread(payloads[e.key]) + Spread(e.payload));
        payloads := payloads[e.key := payload];
        if IsOrphaned(payload, delegated) {
          AddToLists(candidates, keys, e.key);
          candidates, keys := AddTo(candidates, e.key), keys + {e.key};
        }
      }
      i := i + 1;
    }
  }

  /** Captures the dead generation: the listed rows, then the events not yet committed. */
  method CaptureCandidates(table: Table, rows: seq<Key>, pending: seq<Event>, legacy: bool, delegated: Payload -> bool)
    returns (candidates: map<string, set<string>>)
    requires forall k :: k in rows <==> k in table && Listed(table[k], legacy)
    ensures Lists(candidates, Captured(table, pending, legacy, delegated))
  {
    var scanned, payloads := ScanRows(table, rows, legacy, delegated);
    candidates := FoldPending(scanned, payloads, Scan(table, legacy, delegated).candidates, pending, delegated);
  }

  lemma {:induction false} WriteAllAppends(table: Table, es: seq<Event>, e: Event)
    ensures WriteAll(table, es + [e]) == Write(WriteAll(table, es), e)
    decreases |es|
  {
    if es == [] {
      assert [e][1..] == [];
    } else {
      assert (es + [e])[1..] == es[1..] + [e];
      WriteAllAppends(Write(table, es[0]), es[1..], e);
    }
  }

  /** The interrupted payload overrides every field of the payload it is merged into. */
  lemma InterruptSurvivesMerge(p: Payload, message: string)
    ensures p + Interrupt(p, message) == Interrupt(p, message)
  {
    assert p.Keys <= Interrupt(p, message).Keys;
  }

  /** The event that settles one row. */
  function Completion(after: Table, k: Key, message: string): Event
    requires k in after && after[k].payload.Some?
  {
    ItemCompleted(k, Some(Interrupt(after[k].payload.value, message)), false)
  }

  lemma SettleOneMore(after: Table, done: set<Key>, k: Key, message: string)
    requires k in after && after[k].kind == ToolCall && after[k].payload.Some? && k !in done
    ensures Write(Settle(after, done, message), Completion(after, k, message)) == Settle(after, done + {k}, message)
  {
    InterruptSurvivesMerge(after[k].payload.value, message);
  }

  function Members(keys: seq<Key>): set<Key> {
    set k | k in keys
  }

  predicate Settleable(after: Table, keys: seq<Key>) {
    forall k :: k in keys ==> k in after && after[k].payload.Some?
  }

  function Completions(after: Table, keys: seq<Key>, message: string): seq<Event>
    requires Settleable(after, keys)
  {
    if keys == [] then []
    else Completions(after, keys[..|keys| - 1], message) + [Completion(after, keys[|keys| - 1], message)]
  }

  /** Settling one more row after those already settled. */
  lemma CompletionsSettle(after: Table, keys: seq<Key>, k: Key, message: string)
    requires Settleable(after, keys) && k in after && after[k].kind == ToolCall && after[k].payload.Some? && k !in keys
    requires WriteAll(after, Completions(after, keys, message)) == Settle(after, Members(keys), message)
    ensures Settleable(after, keys + [k])
    ensures Completions(after, keys + [k], message) == Completions(after, keys, message) + [Completion(after, k, message)]
    ensures WriteAll(after, Completions(after, keys + [k], message)) == Settle(after, Members(keys + [k]), message)
  {
    assert (keys + [k])[..|keys|] == keys;
    assert Members(keys + [k]) == Members(keys) + {k};
    SettleOneMore(after, Members(keys), k, message);
    WriteAllAppends(after, Completions(after, keys, message), Completion(after, k, message));
  }

  /**
   * Settles a thread's captured rows behind its gate: `rows` is the fresh read of its listed
   * rows, `settled` the rows given a completion each, `table` what the writer leaves.
   */
  method SettleCapturedRows(after: Table, rows: seq<Key>, t: string, itemIds: set<string>, message: string,
                            delegated: Payload -> bool)
    returns (events: seq<Event>, table: Table, settled: seq<Key>)
    requires forall i, j :: 0 <= i < j < |rows| ==> rows[i] != rows[j]
    requires forall k :: k in rows <==> k in after && k.threadId == t && Listed(after[k], true)
    ensures Members(settled) == Settled(after, t, set id | id in itemIds :: Key(t, id), delegated)
    ensures Settleable(after, settled) && events == Completions(after, settled, message)
    ensures table == Settle(after, Members(settled), message)
  {
    events, settled := [], [];
    var i := 0;
    while i < |rows|
      invariant 0 <= i <= |rows|
      invariant forall k :: k in settled <==> k in rows[..i] && k.itemId in itemIds && IsOrphaned(after[k].payload, delegated)
      invariant Settleable(after, settled) && events == Completions(after, settled, message)
      invariant WriteAll(after, events) == Settle(after, Members(settled), message)
    {
      var k := rows[i];
      assert rows[..i + 1] == rows[..i] + [k];
      assert k !in rows[..i];
      if k.itemId in itemIds && IsOrphaned(after[k].payload, delegated) {
        CompletionsSettle(after, settled, k, message);
        events, settled := events + [Completion(after, k, message)], settled + [k];
      }
      i := i + 1;
    }
    assert rows[..i] == rows;
    table := WriteAll(after, events);
  }
}
