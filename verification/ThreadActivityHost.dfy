/** The projection object itself, and the reset's walk over the stored rows. */
module ThreadActivityHost {
  import opened Wrappers
  import opened MainShell
  import opened ThreadActivity
  import opened ThreadActivityTheorems

  class NativeThreadActivityProjection {
    var pending: map<string, bool>
    var order: seq<string>
    var scheduled: bool
    var disposed: bool
    const maxChangesPerMessage: nat

    ghost function View(): Projection
      reads this
    {
      Projection(pending, order, scheduled, disposed, maxChangesPerMessage)
    }

    constructor (maxChanges: nat)
      ensures View() == Fresh(maxChanges).projection
    {
      pending, order, scheduled, disposed := map[], [], false, false;
      maxChangesPerMessage := maxChanges;
    }

    method Record(t: string, active: bool)
      modifies this
      ensures View() == ThreadActivity.Record(old(View()), t, active)
    {
      if t in pending && pending[t] == active {
        return;
      }
      if t !in pending {
        order := order + [t];
      }
      pending := pending[t := active];
      if !scheduled {
        scheduled := true;
      }
    }

    method Observe(event: SupervisorEvent)
      modifies this
      ensures View() == ThreadActivity.Observe(old(View()), event)
    {
      if disposed {
        return;
      }
      match event {
        case ThreadState(t, status) => Record(t, status == WorkingStatus || status == Launching);
        case ThreadExited(t) => Record(t, false);
        case OtherEvent =>
      }
    }

    /** Takes the oldest change out of the pending map. */
    method TakeOne(ghost p: Projection, changes: seq<Change>) returns (more: seq<Change>)
      requires Listed(p) && order != [] && TakenSoFar(p, changes, View())
      modifies this`pending, this`order
      ensures TakenSoFar(p, more, View()) && |more| == |changes| + 1 && |order| < |old(order)|
    {
      TakingOneMore(p, changes, View());
      more := changes + [Change(order[0], pending[order[0]])];
      pending, order := pending - {order[0]}, order[1..];
    }

    /** The part of a flush before `emit`: takes out the oldest changes, up to the cap. */
    method Take() returns (changes: seq<Change>)
      requires Listed(View()) && CanFlush(View())
      modifies this`scheduled, this`pending, this`order
      ensures changes == Taken(old(View())) && View() == Remaining(old(View()))
    {
      ghost var p := View();
      scheduled, changes := false, [];
      NothingTaken(p);
      while order != []
        invariant TakenSoFar(p, changes, View()) && |changes| < Limit(maxChangesPerMessage)
        decreases |order|
      {
        changes := TakeOne(p, changes);
        if |changes| >= maxChangesPerMessage {
          break;
        }
      }
      TakenWhenDone(p, changes, View());
    }

    /** The part after `emit` returned. */
    method AfterEmit()
      modifies this`scheduled
      ensures View() == Settle(old(View()))
    {
      if order != [] && !scheduled {
        scheduled := true;
      }
    }

    method Dispose()
      modifies this
      ensures View() == ThreadActivity.Dispose(old(View()))
    {
      disposed, scheduled, pending, order := true, false, map[], [];
    }

    /** The reset's inactive events, one per stored row still inside its turn. */
    method ObserveInactivated(stored: map<string, Status>, rows: seq<string>)
      modifies this
      ensures View() == InactivateAll(old(View()), stored, rows)
    {
      var i := 0;
      while i < |rows|
        invariant 0 <= i <= |rows|
        invariant InactivateAll(View(), stored, rows[i..]) == InactivateAll(old(View()), stored, rows)
      {
        assert rows[i..][1..] == rows[i + 1..];
        if rows[i] in stored && TurnActive(stored[rows[i]]) {
          Observe(ThreadState(rows[i], Inactive));
        }
        i := i + 1;
      }
    }
  }

  /** `changes` are the oldest entries of `p`, and `now` is `p` without them. */
  ghost predicate TakenSoFar(p: Projection, changes: seq<Change>, now: Projection) {
    |changes| <= |p.order| && changes == Batch(p.pending, p.order[..|changes|]) && now == Dropped(p, |changes|)
  }

  lemma NothingTaken(p: Projection)
    ensures TakenSoFar(p, [], p.(scheduled := false))
  {
  }

  lemma TakingOneMore(p: Projection, changes: seq<Change>, now: Projection)
    requires Listed(p) && now.order != [] && TakenSoFar(p, changes, now)
    ensures now.order[0] in now.pending
    ensures TakenSoFar(p, changes + [Change(now.order[0], now.pending[now.order[0]])],
                       now.(pending := now.pending - {now.order[0]}, order := now.order[1..]))
  {
    DroppingOneMore(p, |changes|);
    BatchGrows(p, |changes|);
  }

  /** Stopping at the cap or at the last entry is stopping at the batch size. */
  lemma TakenWhenDone(p: Projection, changes: seq<Change>, now: Projection)
    requires TakenSoFar(p, changes, now) && (|changes| == Limit(p.cap) || (now.order == [] && |changes| < Limit(p.cap)))
    ensures changes == Taken(p) && now == Remaining(p)
  {
  }

  /** The next entry a flush takes out. */
  lemma DroppingOneMore(p: Projection, n: nat)
    requires Listed(p) && n < |p.order|
    ensures
      var d := Dropped(p, n);
      && d.order[0] == p.order[n] && d.order[0] in d.pending && d.pending[d.order[0]] == p.pending[p.order[n]]
      && d.(pending := d.pending - {d.order[0]}, order := d.order[1..]) == Dropped(p, n + 1)
  {
    assert p.order[..n + 1] == p.order[..n] + [p.order[n]];
  }

  lemma BatchGrows(p: Projection, n: nat)
    requires n < |p.order| && p.order[n] in p.pending
    ensures Batch(p.pending, p.order[..n + 1]) == Batch(p.pending, p.order[..n]) + [Change(p.order[n], p.pending[p.order[n]])]
  {
    assert p.order[..n + 1] == p.order[..n] + [p.order[n]];
    BatchAppends(p.pending, p.order[..n], p.order[n]);
  }

  lemma {:induction false} BatchAppends(pending: map<string, bool>, order: seq<string>, t: string)
    requires t in pending
    ensures Batch(pending, order + [t]) == Batch(pending, order) + [Change(t, pending[t])]
  {
    if order == [] {
      assert [t][1..] == [];
    } else {
      assert (order + [t])[1..] == order[1..] + [t] && (order + [t])[0] == order[0];
      BatchAppends(pending, order[1..], t);
      var head := if order[0] in pending then [Change(order[0], pending[order[0]])] else [];
      assert Batch(pending, order) == head + Batch(pending, order[1..]);
      assert head + (Batch(pending, order[1..]) + [Change(t, pending[t])])
          == head + Batch(pending, order[1..]) + [Change(t, pending[t])];
    }
  }
}
