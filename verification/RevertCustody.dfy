/**
 * Hosts competing for one data root: every process takes, builds, serves, closes and dies
 * statement by statement, beside any number of others, while the reverts it accepted run.
 */
module RevertCustody {
  import opened Wrappers
  import opened DataCustody
  import RevertChain

  datatype Host = Host(custody: Custody, chain: RevertChain.Chain)

  /** A chain event happens only in a host whose constructor returned. */
  datatype Act = Move(move: DataCustody.Move) | Revert(event: RevertChain.Event)

  function Perform(h: Host, a: Act): Host {
    match a
    case Move(m) => h.(custody := Step(h.custody, m, h.chain.joined))
    case Revert(e) => if Serving(h.custody.stage) then h.(chain := RevertChain.Next(h.chain, e)) else h
  }

  /** Processes by process id. */
  type Root = map<nat, Host>

  datatype Event = Start(pid: nat, path: bool) | Do(pid: nat, act: Act)

  predicate FenceFree(r: Root) {
    forall p :: p in r ==> !r[p].custody.fence
  }

  /** The fence is an exclusive lock: nobody is granted it while another holds it. */
  function Granted(r: Root, a: Act): Act {
    match a
    case Move(Acquire(granted)) => Move(Acquire(granted && FenceFree(r)))
    case _ => a
  }

  function Next(r: Root, e: Event): Root {
    match e
    case Start(p, path) => if p in r then r else r[p := Host(Fresh(path), RevertChain.NEW)]
    case Do(p, act) => if p in r then r[p := Perform(r[p], Granted(r, act))] else r
  }

  function Run(r: Root, es: seq<Event>): Root
    decreases |es|
  {
    if es == [] then r else Run(Next(r, es[0]), es[1..])
  }

  /**
   * What every host keeps: its holdings nest, its chain is sound, nothing is accepted before
   * it serves, and the handle of a host that served closes only once it has joined.
   */
  ghost predicate HostInv(h: Host) {
    && Nested(h.custody) && RevertChain.Inv(h.chain)
    && (!Serving(h.custody.stage) && !h.custody.stage.Dead? ==> h.chain == RevertChain.NEW)
    && (Serving(h.custody.stage) && !h.custody.stage.Built? ==> h.chain.joined)
  }

  ghost predicate Inv(r: Root) {
    && (forall p :: p in r ==> HostInv(r[p]))
    && (forall p, q :: p in r && q in r && r[p].custody.fence && r[q].custody.fence ==> p == q)
  }

  lemma MoveKeepsHost(h: Host, m: DataCustody.Move)
    requires HostInv(h)
    ensures HostInv(Perform(h, Move(m)))
  {
    hide RevertChain.Inv;
    StepKeepsNested(h.custody, m, h.chain.joined);
  }

  lemma RevertKeepsHost(h: Host, e: RevertChain.Event)
    requires HostInv(h)
    ensures HostInv(Perform(h, Revert(e)))
  {
    RevertChain.NextKeepsInv(h.chain, e);
    if h.chain.joined {
      RevertChain.JoinedStays(h.chain, e);
    }
  }

  /** Only a grant takes the fence, and only while it is free. */
  lemma FenceChangesHands(r: Root, p: nat, a: Act)
    requires p in r
    ensures
      var h := Perform(r[p], Granted(r, a));
      h.custody.fence ==> r[p].custody.fence || FenceFree(r)
  {
  }

  lemma NextKeepsInv(r: Root, e: Event)
    requires Inv(r)
    ensures Inv(Next(r, e))
  {
    hide HostInv, Perform, Granted, FenceFree, RevertChain.Inv;
    match e
    case Start(p, path) =>
      FreshHost(path);
    case Do(p, act) =>
      if p in r {
        PerformKeepsHost(r[p], Granted(r, act));
        if Perform(r[p], Granted(r, act)).custody.fence {
          OneHolder(r, p, act);
        }
      }
  }

  lemma FreshHost(path: bool)
    ensures HostInv(Host(Fresh(path), RevertChain.NEW))
  {
  }

  lemma PerformKeepsHost(h: Host, a: Act)
    requires HostInv(h)
    ensures HostInv(Perform(h, a))
  {
    match a
    case Move(m) => MoveKeepsHost(h, m);
    case Revert(e) => RevertKeepsHost(h, e);
  }

  lemma OneHolder(r: Root, p: nat, a: Act)
    requires Inv(r) && p in r && Perform(r[p], Granted(r, a)).custody.fence
    ensures forall q :: q in r && q != p ==> !r[q].custody.fence
  {
    hide HostInv, Perform, Granted;
    FenceChangesHands(r, p, a);
  }

  lemma {:induction false} RunKeepsInv(r: Root, es: seq<Event>)
    requires Inv(r)
    ensures Inv(Run(r, es))
    decreases |es|
  {
    hide Inv, Next;
    if es != [] {
      NextKeepsInv(r, es[0]);
      RunKeepsInv(Next(r, es[0]), es[1..]);
    }
  }

  // --- what the data root gets ----------------------------------------------

  /**
   * At every moment, whatever failed or died between which two statements: of all hosts that
   * use the fence at most one has the database open, and it holds the fence.
   */
  lemma OneWriterPerDataRoot(es: seq<Event>, p: nat, q: nat)
    requires p in Run(map[], es) && q in Run(map[], es)
    requires Run(map[], es)[p].custody.path && Run(map[], es)[q].custody.path
    requires Run(map[], es)[p].custody.handle && Run(map[], es)[q].custody.handle
    ensures p == q && Run(map[], es)[p].custody.fence
  {
    RunKeepsInv(map[], es);
    assert HostInv(Run(map[], es)[p]) && HostInv(Run(map[], es)[q]);
  }

  /**
   * The handle is open only while `databaseOpen` says so, which says so only under the fence;
   * a failed, closed or dead host holds none of the three, and one whose close was refused
   * during construction keeps all of them.
   */
  lemma DatabaseOpenOnlyUnderFence(es: seq<Event>, p: nat)
    requires p in Run(map[], es)
    ensures
      var c := Run(map[], es)[p].custody;
      && (c.handle ==> c.flag) && (c.flag && c.path ==> c.fence)
      && (c.stage.Over? || c.stage.Dead? ==> !c.handle && !c.flag && !c.fence)
      && (c.stage.Retained? ==> c.handle && c.flag && (c.path ==> c.fence))
  {
    RunKeepsInv(map[], es);
    assert HostInv(Run(map[], es)[p]);
  }

  /** A host that served closes the handle only when the supervisor and every revert it ever accepted have finished. */
  lemma ClosesOnlyAfterEveryAcceptedRevert(es: seq<Event>, p: nat)
    requires p in Run(map[], es) && Serving(Run(map[], es)[p].custody.stage) && !Run(map[], es)[p].custody.handle
    ensures
      var c := Run(map[], es)[p].chain;
      c.closing && c.clientJoined && forall id :: 0 <= id < |c.ops| ==> c.ops[id].stage == RevertChain.Settled
  {
    RunKeepsInv(map[], es);
    assert HostInv(Run(map[], es)[p]);
    RevertChain.JoinedHasSettled(Run(map[], es)[p].chain);
  }

  /** A revert that is under way has the database open, under the fence if there is one, and no other fenced host does. */
  lemma RevertsRunUnderTheFence(es: seq<Event>, p: nat, id: nat)
    requires p in Run(map[], es) && Run(map[], es)[p].custody.path && !Run(map[], es)[p].custody.stage.Dead?
    requires RevertChain.Is(Run(map[], es)[p].chain, id, RevertChain.Running)
    ensures
      var r := Run(map[], es);
      && r[p].custody.handle && r[p].custody.fence
      && forall q :: q in r && q != p && r[q].custody.path ==> !r[q].custody.handle
  {
    var r := Run(map[], es);
    RunKeepsInv(map[], es);
    assert HostInv(r[p]);
    if r[p].chain.joined {
      RevertChain.JoinedHasSettled(r[p].chain);
    }
    forall q | q in r && q != p && r[q].custody.path ensures !r[q].custody.handle {
      assert HostInv(r[q]);
    }
  }
}
