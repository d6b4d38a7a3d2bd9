/** When the capture holds every row still orphaned after the accepted prefix, and what settling then does. */
module BootSettleTheorems {
  import opened Wrappers
  import opened BootSettle

  // --- one key at a time ----------------------------------------------------

  function RowAt(table: Table, k: Key): Option<Row> {
    if k in table then Some(table[k]) else None
  }

  /** What one key's row becomes: the writer looks at nothing else. */
  function RowAfter(row: Option<Row>, es: seq<Event>, k: Key): Option<Row>
    decreases |es|
  {
    if es == [] then row
    else RowAfter(if es[0].key == k then RowAt(Write(if row.Some? then map[k := row.value] else map[], es[0]), k) else row, es[1..], k)
  }

  lemma WriteIsPerKey(table: Table, e: Event, k: Key)
    ensures RowAt(Write(table, e), k)
         == if e.key == k then RowAt(Write(if k in table then map[k := table[k]] else map[], e), k) else RowAt(table, k)
  {
  }

  lemma {:induction false} WriteAllIsPerKey(table: Table, es: seq<Event>, k: Key)
    ensures RowAt(WriteAll(table, es), k) == RowAfter(RowAt(table, k), es, k)
    decreases |es|
  {
    if es != [] {
      WriteIsPerKey(table, es[0], k);
      WriteAllIsPerKey(Write(table, es[0]), es[1..], k);
    }
  }

  lemma {:induction false} RowAfterOfThread(row: Option<Row>, es: seq<Event>, t: string, k: Key)
    ensures RowAfter(row, OfThread(es, t), k) == if k.threadId == t then RowAfter(row, es, k) else row
    decreases |es|
  {
    if es != [] {
      var row' := if es[0].key == k then RowAt(Write(if row.Some? then map[k := row.value] else map[], es[0]), k) else row;
      RowAfterOfThread(row', es[1..], t, k);
      RowAfterOfThread(row, es[1..], t, k);
      if es[0].key.threadId == t {
        assert OfThread(es, t)[1..] == OfThread(es[1..], t);
      } else {
        assert OfThread(es, t) == OfThread(es[1..], t);
      }
    }
  }

  /** A thread's gate commits that thread's rows exactly as the whole queue would, and no other row. */
  lemma PrefixIsPerThread(table: Table, es: seq<Event>, t: string, k: Key)
    ensures RowAt(WriteAll(table, OfThread(es, t)), k) == if k.threadId == t then RowAt(WriteAll(table, es), k) else RowAt(table, k)
  {
    WriteAllIsPerKey(table, OfThread(es, t), k);
    WriteAllIsPerKey(table, es, k);
    RowAfterOfThread(RowAt(table, k), es, t, k);
  }

  // --- completeness of the capture ------------------------------------------

  /**
   * An event the fold and the writer agree on: a tool call starts only once, an update of
   * one carries its payload and, at boot, does not touch a completed row, and at boot a
   * completion does not leave the payload saying running.
   */
  predicate Ordinary(table: Table, e: Event, legacy: bool) {
    match e
    case ItemStarted(k, kind, _) => kind == ToolCall ==> k !in table
    case ItemUpdated(k, payload) =>
      k in table && table[k].kind == ToolCall ==> payload.Some? && (legacy ==> table[k].state != Completed)
    case ItemCompleted(k, payload, _) =>
      legacy && k in table && table[k].kind == ToolCall && payload.Some? ==>
        Field(MergePayload(table[k].payload, payload).value, "status") != Some("running")
  }

  predicate WellFormed(table: Table, es: seq<Event>, legacy: bool)
    decreases |es|
  {
    es == [] || (Ordinary(table, es[0], legacy) && WellFormed(Write(table, es[0]), es[1..], legacy))
  }

  /** The remembered payload is the stored one, up to a stored null remembered as an empty object. */
  predicate Tracks(stored: Option<Payload>, remembered: Option<Payload>) {
    remembered == stored || (stored.None? && remembered == Some(map[]))
  }

  predicate KeyCovered(row: Row, k: Key, f: Fold, legacy: bool, delegated: Payload -> bool) {
    && (row.kind == ToolCall && row.state != Completed ==> k in f.payloads && Tracks(row.payload, f.payloads[k]))
    && (Orphan(row, legacy, delegated) ==> k in f.candidates)
  }

  ghost predicate Covers(table: Table, f: Fold, legacy: bool, delegated: Payload -> bool) {
    forall k :: k in table ==> KeyCovered(table[k], k, f, legacy, delegated)
  }

  lemma StepCovers(table: Table, f: Fold, e: Event, legacy: bool, delegated: Payload -> bool)
    requires Covers(table, f, legacy, delegated) && Ordinary(table, e, legacy)
    ensures Covers(Write(table, e), Step(f, e, delegated), legacy, delegated)
  {
    var table', f' := Write(table, e), Step(f, e, delegated);
    if e.ItemUpdated? {
      assert map[] + Spread(e.payload) == Spread(e.payload);
    }
    forall k | k in table' ensures KeyCovered(table'[k], k, f', legacy, delegated)
    {
      if k in table {
        assert KeyCovered(table[k], k, f, legacy, delegated);
      }
    }
  }

  lemma {:induction false} StepsCover(table: Table, f: Fold, es: seq<Event>, legacy: bool, delegated: Payload -> bool)
    requires Covers(table, f, legacy, delegated) && WellFormed(table, es, legacy)
    ensures Covers(WriteAll(table, es), Steps(f, es, delegated), legacy, delegated)
    decreases |es|
  {
    if es != [] {
      StepCovers(table, f, es[0], legacy, delegated);
      StepsCover(Write(table, es[0]), Step(f, es[0], delegated), es[1..], legacy, delegated);
    }
  }

  /** Over well-formed pending events, every row still orphaned once they are committed was captured. */
  lemma CaptureIsComplete(table: Table, es: seq<Event>, legacy: bool, delegated: Payload -> bool, k: Key)
    requires WellFormed(table, es, legacy)
    requires k in WriteAll(table, es) && Orphan(WriteAll(table, es)[k], legacy, delegated)
    ensures k in Captured(table, es, legacy, delegated)
  {
    assert Covers(table, Scan(table, legacy, delegated), legacy, delegated);
    StepsCover(table, Scan(table, legacy, delegated), es, legacy, delegated);
    assert KeyCovered(WriteAll(table, es)[k], k, Steps(Scan(table, legacy, delegated), es, delegated), legacy, delegated);
  }

  /** The events of one key are ordinary; those of other keys may be anything. */
  predicate WellFormedFor(table: Table, es: seq<Event>, legacy: bool, k: Key)
    decreases |es|
  {
    es == [] || ((es[0].key == k ==> Ordinary(table, es[0], legacy)) && WellFormedFor(Write(table, es[0]), es[1..], legacy, k))
  }

  lemma StepCoversKey(table: Table, f: Fold, e: Event, legacy: bool, delegated: Payload -> bool, k: Key)
    requires k in table ==> KeyCovered(table[k], k, f, legacy, delegated)
    requires e.key == k ==> Ordinary(table, e, legacy)
    ensures k in Write(table, e) ==> KeyCovered(Write(table, e)[k], k, Step(f, e, delegated), legacy, delegated)
  {
    if e.ItemUpdated? {
      assert map[] + Spread(e.payload) == Spread(e.payload);
    }
  }

  lemma {:induction false} StepsCoverKey(table: Table, f: Fold, es: seq<Event>, legacy: bool, delegated: Payload -> bool, k: Key)
    requires k in table ==> KeyCovered(table[k], k, f, legacy, delegated)
    requires WellFormedFor(table, es, legacy, k)
    ensures k in WriteAll(table, es) ==> KeyCovered(WriteAll(table, es)[k], k, Steps(f, es, delegated), legacy, delegated)
    decreases |es|
  {
    hide Ordinary, KeyCovered, Write, Step;
    if es != [] {
      StepCoversKey(table, f, es[0], legacy, delegated, k);
      StepsCoverKey(Write(table, es[0]), Step(f, es[0], delegated), es[1..], legacy, delegated, k);
    }
  }

  /** A row is missed only because of an event of its own that is not ordinary, whatever the other rows go through. */
  lemma OnlyItsOwnEventsHideARow(table: Table, es: seq<Event>, legacy: bool, delegated: Payload -> bool, k: Key)
    requires Missed(table, es, legacy, delegated, k)
    ensures !WellFormedFor(table, es, legacy, k)
  {
    if WellFormedFor(table, es, legacy, k) {
      assert k in table ==> KeyCovered(table[k], k, Scan(table, legacy, delegated), legacy, delegated);
      StepsCoverKey(table, Scan(table, legacy, delegated), es, legacy, delegated, k);
    }
  }

  /** At boot, a thread whose gate opens gets exactly its orphans settled. */
  lemma BootSettlesExactlyTheOrphans(table: Table, es: seq<Event>, delegated: Payload -> bool, t: string)
    requires WellFormed(table, es, true)
    ensures
      var whole := WriteAll(table, es);
      Settled(WriteAll(table, OfThread(es, t)), t, Captured(table, es, true, delegated), delegated)
      == set k | k in whole && k.threadId == t && Orphan(whole[k], true, delegated)
  {
    var whole := WriteAll(table, es);
    forall k: Key | k.threadId == t ensures RowAt(WriteAll(table, OfThread(es, t)), k) == RowAt(whole, k)
    {
      PrefixIsPerThread(table, es, t, k);
    }
    forall k | k in whole && Orphan(whole[k], true, delegated) ensures k in Captured(table, es, true, delegated)
    {
      CaptureIsComplete(table, es, true, delegated, k);
    }
  }

  /**
   * After a supervisor reset, where completed rows are not scanned, a thread's unfinished
   * orphans are all settled; anything else settled is a captured row that the prefix
   * completed while its payload still says running.
   */
  lemma ResetSettlesTheUnfinishedOrphans(table: Table, es: seq<Event>, delegated: Payload -> bool, t: string, k: Key)
    requires WellFormed(table, es, false) && k.threadId == t && k in WriteAll(table, es)
    ensures
      var row := WriteAll(table, es)[k];
      var settled := Settled(WriteAll(table, OfThread(es, t)), t, Captured(table, es, false, delegated), delegated);
      && (Orphan(row, false, delegated) ==> k in settled)
      && (k in settled && !Orphan(row, false, delegated) ==>
            row.state == Completed && row.payload.Some? && Field(row.payload.value, "status") == Some("running"))
  {
    PrefixIsPerThread(table, es, t, k);
    if Orphan(WriteAll(table, es)[k], false, delegated) {
      CaptureIsComplete(table, es, false, delegated, k);
    }
  }

  /** A run the prefix finished is never settled, whatever was captured before. */
  lemma FinishedByThePrefixIsNotSettled(table: Table, before: seq<Event>, k: Key, p: Payload, after: seq<Event>,
                                        captured: set<Key>, delegated: Payload -> bool)
    requires Field(p, "status") in {Some("success"), Some("error")}
    requires forall e :: e in after ==> e.key != k
    ensures k !in Settled(WriteAll(table, before + [ItemCompleted(k, Some(p), false)] + after), k.threadId, captured, delegated)
  {
    var es := before + [ItemCompleted(k, Some(p), false)];
    WriteAllConcat(table, es, after);
    WriteAllAppends(table, before, ItemCompleted(k, Some(p), false));
    WriteAllIsPerKey(WriteAll(table, es), after, k);
    RowAfterUntouched(RowAt(WriteAll(table, es), k), after, k);
  }

  lemma {:induction false} WriteAllConcat(table: Table, a: seq<Event>, b: seq<Event>)
    ensures WriteAll(table, a + b) == WriteAll(WriteAll(table, a), b)
    decreases |a|
  {
    if a == [] {
      assert a + b == b;
    } else {
      assert (a + b)[1..] == a[1..] + b;
      WriteAllConcat(Write(table, a[0]), a[1..], b);
    }
  }

  lemma {:induction false} RowAfterUntouched(row: Option<Row>, es: seq<Event>, k: Key)
    requires forall e :: e in es ==> e.key != k
    ensures RowAfter(row, es, k) == row
    decreases |es|
  {
    if es != [] {
      assert es[0] in es;
      RowAfterUntouched(row, es[1..], k);
    }
  }

  // --- settlement is final and keeps what the run recorded ------------------

  lemma SettlingAgainFindsNothing(after: Table, t: string, captured: set<Key>, message: string, delegated: Payload -> bool)
    ensures Settled(Settle(after, Settled(after, t, captured, delegated), message), t, captured, delegated) == {}
  {
    var settled := Settled(after, t, captured, delegated);
    forall k | k in captured && k in after && k.threadId == t ensures !Orphan(Settle(after, settled, message)[k], true, delegated)
    {
      if k in settled {
        assert Field(Settle(after, settled, message)[k].payload.value, "status") == Some("error");
      }
    }
  }

  /** Interrupting a run changes its statuses, adds a result where there was none, and keeps every other field. */
  lemma InterruptKeepsTheRest(p: Payload, message: string, name: string)
    requires name in p && name !in {"status", "subAgentStatus", "crossagentStatus"}
    ensures name in Interrupt(p, message) && Interrupt(p, message)[name] == p[name]
  {
  }

  // --- where the capture falls short ----------------------------------------

  lemma OneEvent(table: Table, f: Fold, e: Event, delegated: Payload -> bool)
    ensures WriteAll(table, [e]) == Write(table, e) && Steps(f, [e], delegated) == Step(f, e, delegated)
  {
    assert [e][1..] == [];
    assert Steps(Step(f, e, delegated), [], delegated) == Step(f, e, delegated);
  }

  lemma TwoEvents(table: Table, f: Fold, d: Event, e: Event, delegated: Payload -> bool)
    ensures WriteAll(table, [d, e]) == Write(Write(table, d), e)
    ensures Steps(f, [d, e], delegated) == Step(Step(f, d, delegated), e, delegated)
  {
    assert [d, e][1..] == [e];
    OneEvent(Write(table, d), Step(f, d, delegated), e, delegated);
  }

  /** The key is orphaned after the events are committed, and the capture does not hold it. */
  predicate Missed(table: Table, es: seq<Event>, legacy: bool, delegated: Payload -> bool, k: Key) {
    k in WriteAll(table, es) && Orphan(WriteAll(table, es)[k], legacy, delegated) && k !in Captured(table, es, legacy, delegated)
  }

  /**
   * Of a single pending event the capture misses a row exactly when, at boot, the event
   * leaves a completed tool call orphaned that it either updated without the scan having
   * listed it, or completed when it was not orphaned.
   */
  lemma OneEventIsMissedExactlyWhen(table: Table, e: Event, legacy: bool, delegated: Payload -> bool)
    ensures (exists k :: Missed(table, [e], legacy, delegated, k))
        <==> && legacy && e.key in table && e.key in Write(table, e)
             && Write(table, e)[e.key].state == Completed && Orphan(Write(table, e)[e.key], true, delegated)
             && ((e.ItemUpdated? && !Listed(table[e.key], true)) || (e.ItemCompleted? && !Orphan(table[e.key], true, delegated)))
  {
    var scan := Scan(table, legacy, delegated);
    OneEvent(table, scan, e, delegated);
    if e.ItemUpdated? {
      assert map[] + Spread(e.payload) == Spread(e.payload);
    }
    forall k | k != e.key ensures !Missed(table, [e], legacy, delegated, k)
    {
      assert k in table && Orphan(table[k], legacy, delegated) ==> k in scan.candidates;
    }
    assert (exists k :: Missed(table, [e], legacy, delegated, k)) <==> Missed(table, [e], legacy, delegated, e.key);
  }

  /** An interrupted payload says error, no part of it still says running, and it has a result. */
  lemma InterruptEndsTheRun(p: Payload, message: string, delegated: Payload -> bool)
    ensures
      var q := Interrupt(p, message);
      && !IsOrphaned(Some(q), delegated) && Field(q, "status") == Some("error")
      && Field(q, "subAgentStatus") !in {Some("running"), Some("paused")}
      && (Field(q, "isCrossagent") == Some("true") ==> Field(q, "crossagentStatus").Some? && Field(q, "crossagentStatus") != Some("running"))
      && Field(q, "result").Some? && (Field(p, "result").Some? ==> Field(q, "result") == Field(p, "result"))
  {
  }

  // --- exactly when the capture is complete ---------------------------------

  /** What one pending event makes the fold remember; the classifier plays no part in it. */
  function NextPayloads(payloads: map<Key, Option<Payload>>, e: Event): map<Key, Option<Payload>> {
    Step(Fold(payloads, {}), e, p => false).payloads
  }

  /** Every payload the fold remembers for a key at some point. */
  function Remembered(payloads: map<Key, Option<Payload>>, es: seq<Event>, k: Key): set<Option<Payload>>
    decreases |es|
  {
    (if k in payloads then {payloads[k]} else {}) + if es == [] then {} else Remembered(NextPayloads(payloads, es[0]), es[1..], k)
  }

  predicate AnyOrphaned(payloads: set<Option<Payload>>, delegated: Payload -> bool) {
    exists p :: p in payloads && IsOrphaned(p, delegated)
  }

  /** A key is captured exactly when some payload remembered for it was orphaned. */
  lemma {:induction false} CapturedMeansRemembered(f: Fold, es: seq<Event>, k: Key, delegated: Payload -> bool)
    requires k in f.payloads && IsOrphaned(f.payloads[k], delegated) ==> k in f.candidates
    ensures k in Steps(f, es, delegated).candidates <==> k in f.candidates || AnyOrphaned(Remembered(f.payloads, es, k), delegated)
    decreases |es|
  {
    if es != [] {
      var f' := Step(f, es[0], delegated);
      assert f'.payloads == NextPayloads(f.payloads, es[0]);
      CapturedMeansRemembered(f', es[1..], k, delegated);
      var rest := Remembered(f'.payloads, es[1..], k);
      assert Remembered(f.payloads, es, k) == (if k in f.payloads then {f.payloads[k]} else {}) + rest;
      assert k in f'.payloads ==> f'.payloads[k] in rest;
    }
  }

  /** A listed row whose payload does not say the run ended: orphaned whenever its tool is a delegated agent. */
  predicate Open(row: Row, legacy: bool) {
    Orphan(row, legacy, p => true)
  }

  /**
   * Whatever tools count as delegated agents, the capture misses no orphan exactly when
   * the payload each open row ends up with was, at some point, the one remembered for it.
   */
  lemma CaptureIsCompleteExactlyWhen(table: Table, es: seq<Event>, legacy: bool)
    ensures (forall delegated: Payload -> bool, k: Key :: !Missed(table, es, legacy, delegated, k))
        <==> forall k :: k in WriteAll(table, es) && Open(WriteAll(table, es)[k], legacy) ==>
               WriteAll(table, es)[k].payload in RememberedFor(table, es, legacy, k)
  {
    var after := WriteAll(table, es);
    forall k | k in after && Open(after[k], legacy) && after[k].payload !in RememberedFor(table, es, legacy, k)
      ensures exists delegated: Payload -> bool :: Missed(table, es, legacy, delegated, k)
    {
      UnrememberedIsMissed(table, es, legacy, k);
    }
    forall delegated: Payload -> bool, k: Key | k in after && Open(after[k], legacy) ==> after[k].payload in RememberedFor(table, es, legacy, k)
      ensures !Missed(table, es, legacy, delegated, k)
    {
      RememberedIsCaptured(table, es, legacy, delegated, k);
    }
  }

  /**
   * For the classifier at hand, the capture misses no orphan exactly when each row orphaned
   * in the end had, at some point, a payload remembered for it that the classifier calls
   * orphaned: not necessarily the one it ends up with.
   */
  lemma CaptureIsCompleteForAClassifier(table: Table, es: seq<Event>, legacy: bool, delegated: Payload -> bool)
    ensures (forall k :: !Missed(table, es, legacy, delegated, k))
        <==> forall k :: k in WriteAll(table, es) && Orphan(WriteAll(table, es)[k], legacy, delegated) ==>
               AnyOrphaned(RememberedFor(table, es, legacy, k), delegated)
  {
    var after := WriteAll(table, es);
    forall k | k in after && Orphan(after[k], legacy, delegated)
      ensures Missed(table, es, legacy, delegated, k) <==> !AnyOrphaned(RememberedFor(table, es, legacy, k), delegated)
    {
      MissedMeansNeverOrphaned(table, es, legacy, delegated, k);
    }
  }

  lemma MissedMeansNeverOrphaned(table: Table, es: seq<Event>, legacy: bool, delegated: Payload -> bool, k: Key)
    requires k in WriteAll(table, es) && Orphan(WriteAll(table, es)[k], legacy, delegated)
    ensures Missed(table, es, legacy, delegated, k) <==> !AnyOrphaned(RememberedFor(table, es, legacy, k), delegated)
  {
    var scan := Scan(table, legacy, delegated);
    assert scan.payloads == Scan(table, legacy, p => false).payloads;
    CapturedMeansRemembered(scan, es, k, delegated);
    assert k in scan.candidates ==> scan.payloads[k] in Remembered(scan.payloads, es, k);
  }

  function RememberedFor(table: Table, es: seq<Event>, legacy: bool, k: Key): set<Option<Payload>> {
    Remembered(Scan(table, legacy, p => false).payloads, es, k)
  }

  lemma RememberedIsCaptured(table: Table, es: seq<Event>, legacy: bool, delegated: Payload -> bool, k: Key)
    requires k in WriteAll(table, es) && Open(WriteAll(table, es)[k], legacy) ==>
               WriteAll(table, es)[k].payload in RememberedFor(table, es, legacy, k)
    ensures !Missed(table, es, legacy, delegated, k)
  {
    var scan := Scan(table, legacy, delegated);
    assert scan.payloads == Scan(table, legacy, p => false).payloads;
    CapturedMeansRemembered(scan, es, k, delegated);
  }

  /** An open row whose payload was never remembered is missed when only tools with that payload are delegated agents. */
  lemma UnrememberedIsMissed(table: Table, es: seq<Event>, legacy: bool, k: Key)
    requires k in WriteAll(table, es) && Open(WriteAll(table, es)[k], legacy)
    requires WriteAll(table, es)[k].payload !in RememberedFor(table, es, legacy, k)
    ensures exists delegated: Payload -> bool :: Missed(table, es, legacy, delegated, k)
  {
    var stored := WriteAll(table, es)[k].payload.value;
    var delegated := p => p == stored;
    var scan := Scan(table, legacy, delegated);
    assert scan.payloads == Scan(table, legacy, p => false).payloads;
    CapturedMeansRemembered(scan, es, k, delegated);
    assert k in scan.payloads ==> scan.payloads[k] in Remembered(scan.payloads, es, k);
    assert Missed(table, es, legacy, delegated, k);
  }

  predicate MarkedSubAgent(p: Payload) {
    Field(p, "isSubAgent") == Some("true")
  }

  const K := Key("thread", "run")

  /** The writer ignores a second start, the fold does not: its payload then drifts from the stored one. */
  lemma SecondStartIsMissed()
    ensures
      var table := map[K := Row(ToolCall, Started, Some(map["isSubAgent" := "true", "status" := "success"]))];
      var es := [ItemStarted(K, ToolCall, Some(map[])), ItemUpdated(K, Some(map["status" := "running"]))];
      Missed(table, es, false, MarkedSubAgent, K) && !WellFormed(table, es, false)
  {
    var table := map[K := Row(ToolCall, Started, Some(map["isSubAgent" := "true", "status" := "success"]))];
    var es := [ItemStarted(K, ToolCall, Some(map[])), ItemUpdated(K, Some(map["status" := "running"]))];
    TwoEvents(table, Scan(table, false, MarkedSubAgent), es[0], es[1], MarkedSubAgent);
  }

  /** An update without a payload erases the stored one; the fold keeps it. */
  lemma PayloadlessUpdateIsMissed()
    ensures
      var table := map[K := Row(ToolCall, Started, Some(map["status" := "success"]))];
      var es := [ItemUpdated(K, None), ItemUpdated(K, Some(map["isSubAgent" := "true"]))];
      Missed(table, es, false, MarkedSubAgent, K) && !WellFormed(table, es, false)
  {
    var table := map[K := Row(ToolCall, Started, Some(map["status" := "success"]))];
    var es := [ItemUpdated(K, None), ItemUpdated(K, Some(map["isSubAgent" := "true"]))];
    TwoEvents(table, Scan(table, false, MarkedSubAgent), es[0], es[1], MarkedSubAgent);
    assert es == [es[0]] + [es[1]];
    assert !Ordinary(table, es[0], false);
  }

  /** At boot, an update can make a completed row say running again without the fold remembering it. */
  lemma UpdateOfACompletedRowIsMissed()
    ensures
      var table := map[K := Row(ToolCall, Completed, Some(map["isSubAgent" := "true", "status" := "success"]))];
      Missed(table, [ItemUpdated(K, Some(map["status" := "running"]))], true, MarkedSubAgent, K)
  {
    var table := map[K := Row(ToolCall, Completed, Some(map["isSubAgent" := "true", "status" := "success"]))];
    OneEventIsMissedExactlyWhen(table, ItemUpdated(K, Some(map["status" := "running"])), true, MarkedSubAgent);
  }

  /** At boot, a completion whose payload says running leaves an orphan the fold never saw. */
  lemma CompletionSayingRunningIsMissed()
    ensures
      var table := map[K := Row(ToolCall, Started, Some(map["isSubAgent" := "true", "status" := "success"]))];
      Missed(table, [ItemCompleted(K, Some(map["status" := "running"]), false)], true, MarkedSubAgent, K)
  {
    var table := map[K := Row(ToolCall, Started, Some(map["isSubAgent" := "true", "status" := "success"]))];
    OneEventIsMissedExactlyWhen(table, ItemCompleted(K, Some(map["status" := "running"]), false), true, MarkedSubAgent);
  }
}
