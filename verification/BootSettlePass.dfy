/** The pass over all captured threads: each gate opens or refuses on its own, and no captured id goes unaccounted for. */
module BootSettlePass {
  import opened Wrappers
  import opened BootSettle
  import opened BootSettleTheorems

  /** The keys of one thread's captured ids. */
  function KeysOf(t: string, ids: set<string>): set<Key> {
    set id | id in ids :: Key(t, id)
  }

  /** The database after one thread's gate opened: its prefix committed, its captured orphans settled. */
  function Opened(db: Table, pending: seq<Event>, t: string, ids: set<string>, message: string, delegated: Payload -> bool): Table {
    var after := WriteAll(db, OfThread(pending, t));
    Settle(after, Settled(after, t, KeysOf(t, ids), delegated), message)
  }

  /** Opening a thread's gate touches that thread's rows only, and reads nothing else. */
  lemma OpenedIsPerThread(db: Table, other: Table, pending: seq<Event>, t: string, ids: set<string>, message: string,
                          delegated: Payload -> bool, k: Key)
    requires forall x: Key :: x.threadId == t ==> RowAt(db, x) == RowAt(other, x)
    ensures RowAt(Opened(db, pending, t, ids, message, delegated), k)
         == if k.threadId == t then RowAt(Opened(other, pending, t, ids, message, delegated), k) else RowAt(db, k)
  {
    WriteAllIsPerKey(db, OfThread(pending, t), k);
    WriteAllIsPerKey(other, OfThread(pending, t), k);
    RowAfterOfThread(RowAt(db, k), pending, t, k);
  }

  predicate Lists<T(==)>(order: seq<T>, keys: set<T>) {
    && (forall i, j :: 0 <= i < j < |order| ==> order[i] != order[j])
    && (forall x :: x in keys ==> x in order) && (forall x :: x in order ==> x in keys)
  }

  /** The threads whose gate refused, with every id captured for them. */
  function Deferred(order: seq<string>, candidates: map<string, set<string>>, refused: set<string>): seq<(string, set<string>)>
    requires forall t :: t in order ==> t in candidates
  {
    if order == [] then []
    else
      var t := order[|order| - 1];
      Deferred(order[..|order| - 1], candidates, refused) + if t in refused then [(t, candidates[t])] else []
  }

  function ListedOf(table: Table, t: string): set<Key> {
    set k: Key | k in table && k.threadId == t && Listed(table[k], true)
  }

  /** Where each row stands once the gates of `granted` opened and the others refused. */
  function RowAfterPass(db: Table, pending: seq<Event>, candidates: map<string, set<string>>, granted: set<string>,
                        message: string, delegated: Payload -> bool, k: Key): Option<Row>
    requires granted <= candidates.Keys
  {
    if k.threadId in granted then RowAt(Opened(db, pending, k.threadId, candidates[k.threadId], message, delegated), k)
    else RowAt(db, k)
  }

  ghost predicate Passed(table: Table, db: Table, pending: seq<Event>, candidates: map<string, set<string>>,
                         granted: set<string>, message: string, delegated: Payload -> bool)
  {
    && granted <= candidates.Keys
    && forall k: Key :: RowAt(table, k) == RowAfterPass(db, pending, candidates, granted, message, delegated, k)
  }

  lemma OneMoreThread(table: Table, db: Table, pending: seq<Event>, candidates: map<string, set<string>>,
                      granted: set<string>, message: string, delegated: Payload -> bool, t: string)
    requires Passed(table, db, pending, candidates, granted, message, delegated) && t in candidates && t !in granted
    ensures Passed(Opened(table, pending, t, candidates[t], message, delegated), db, pending, candidates, granted + {t},
                   message, delegated)
  {
    forall k: Key ensures RowAt(Opened(table, pending, t, candidates[t], message, delegated), k)
                       == RowAfterPass(db, pending, candidates, granted + {t}, message, delegated, k)
    {
      OpenedIsPerThread(table, db, pending, t, candidates[t], message, delegated, k);
    }
  }

  /** One thread's mutation: the gate commits its prefix, then the captured rows settle in the same turn. */
  method SettleThread(db: Table, pending: seq<Event>, t: string, ids: set<string>, listing: (Table, string) -> seq<Key>,
                      message: string, delegated: Payload -> bool)
    returns (events: seq<Event>, table: Table, settled: seq<Key>)
    requires forall tb, x :: Lists(listing(tb, x), ListedOf(tb, x))
    ensures table == Opened(db, pending, t, ids, message, delegated)
    ensures
      var after := WriteAll(db, OfThread(pending, t));
      && Members(settled) == Settled(after, t, KeysOf(t, ids), delegated)
      && Settleable(after, settled) && events == Completions(after, settled, message)
  {
    var after := WriteAll(db, OfThread(pending, t));
    assert Lists(listing(after, t), ListedOf(after, t));
    events, table, settled := SettleCapturedRows(after, listing(after, t), t, ids, message, delegated);
  }

  /**
   * `order` is the candidates' insertion order, `refused` the threads whose gate throws, and
   * `listing` the database's listed rows of a thread.
   */
  method SettleCandidates(db: Table, pending: seq<Event>, candidates: map<string, set<string>>, order: seq<string>,
                          refused: set<string>, listing: (Table, string) -> seq<Key>, message: string,
                          delegated: Payload -> bool)
    returns (table: Table, settledBatches: seq<(string, seq<Event>)>, deferredBatches: seq<(string, set<string>)>)
    requires Lists(order, candidates.Keys)
    requires forall tb, t :: Lists(listing(tb, t), ListedOf(tb, t))
    ensures deferredBatches == Deferred(order, candidates, refused)
    ensures forall k: Key :: RowAt(table, k) == RowAfterPass(db, pending, candidates, candidates.Keys - refused, message, delegated, k)
    ensures forall b :: b in settledBatches ==> b.0 in candidates && b.0 !in refused && b.1 != []
  {
    table, settledBatches, deferredBatches := db, [], [];
    ghost var granted: set<string> := {};
    var i := 0;
    while i < |order|
      invariant 0 <= i <= |order|
      invariant deferredBatches == Deferred(order[..i], candidates, refused)
      invariant forall t :: t in granted <==> t in order[..i] && t !in refused
      invariant Passed(table, db, pending, candidates, granted, message, delegated)
      invariant forall b :: b in settledBatches ==> b.0 in candidates && b.0 !in refused && b.1 != []
    {
      var t := order[i];
      assert order[..i + 1] == order[..i] + [t] && order[..i + 1][..i] == order[..i];
      assert t !in order[..i];
      if t in refused {
        deferredBatches := deferredBatches + [(t, candidates[t])];
      } else {
        OneMoreThread(table, db, pending, candidates, granted, message, delegated, t);
        var events, settled;
        events, table, settled := SettleThread(table, pending, t, candidates[t], listing, message, delegated);
        granted := granted + {t};
        if events != [] {
          settledBatches := settledBatches + [(t, events)];
        }
      }
      i := i + 1;
    }
    assert order[..i] == order;
    assert granted == candidates.Keys - refused;
  }

  /** Every captured id is deferred with its thread, or its row stands settled or needing no settlement. */
  lemma NoCapturedIdIsLost(db: Table, pending: seq<Event>, t: string, ids: set<string>, message: string,
                           delegated: Payload -> bool, id: string)
    requires id in ids
    ensures
      var table := Opened(db, pending, t, ids, message, delegated);
      Key(t, id) in table ==> !Orphan(table[Key(t, id)], true, delegated)
  {
    SettlingAgainFindsNothing(WriteAll(db, OfThread(pending, t)), t, KeysOf(t, ids), message, delegated);
    var table := Opened(db, pending, t, ids, message, delegated);
    assert Key(t, id) in KeysOf(t, ids);
    assert Key(t, id) in table && Orphan(table[Key(t, id)], true, delegated) ==> Key(t, id) in Settled(table, t, KeysOf(t, ids), delegated);
  }
}
