/**
 * The browser watch proxy and the native watcher it drives: fire-and-forget start, stop
 * and refresh requests over a FIFO channel, whose settlements may arrive at any later
 * time and are recognised by a sequence number.
 */
module BrowserWatch {
  datatype Request = StartWatch(seqNo: nat) | StopWatch | RefreshPage

  /** `seqNo` is bumped by every start and stop request. */
  datatype Proxy = Proxy(sinks: set<nat>, startInFlight: bool, active: bool, seqNo: nat)

  /**
   * `sent` is everything requested, `served` how much of it the native side handled.
   * `answers` are the outcomes of start requests not yet settled at the proxy, `mark` is
   * where the latest start or stop request stands in `sent`.
   */
  datatype Sys = Sys(proxy: Proxy, sent: seq<Request>, mark: nat, served: nat, watching: bool, answers: map<nat, bool>)

  const FRESH := Sys(Proxy({}, false, false, 0), [], 0, 0, false, map[])

  // --- the proxy ------------------------------------------------------------

  function Ensure(s: Sys): Sys {
    if s.proxy.active || s.proxy.startInFlight then s
    else
      var k := s.proxy.seqNo + 1;
      s.(proxy := s.proxy.(seqNo := k, startInFlight := true), sent := s.sent + [StartWatch(k)],
           mark := |s.sent|)
  }

  function Release(s: Sys): Sys {
    if !s.proxy.active && !s.proxy.startInFlight then s
    else s.(proxy := s.proxy.(seqNo := s.proxy.seqNo + 1, startInFlight := false, active := false),
            sent := s.sent + [StopWatch], mark := |s.sent|)
  }

  function Watch(s: Sys, sink: nat): Sys {
    Ensure(s.(proxy := s.proxy.(sinks := s.proxy.sinks + {sink})))
  }

  function Unwatch(s: Sys, sink: nat): Sys {
    var s1 := s.(proxy := s.proxy.(sinks := s.proxy.sinks - {sink}));
    if s1.proxy.sinks == {} then Release(s1) else s1
  }

  function Refresh(s: Sys): Sys {
    if s.proxy.sinks == {} then s
    else if !s.proxy.active && !s.proxy.startInFlight then Ensure(s)
    else s.(sent := s.sent + [RefreshPage])
  }

  function Dispose(s: Sys): Sys {
    Release(s.(proxy := s.proxy.(sinks := {})))
  }

  /** A start's promise settles; only the latest start or stop request counts. */
  function OnSettled(p: Proxy, k: nat, ok: bool): Proxy {
    if k != p.seqNo then p else p.(startInFlight := false, active := if ok then true else p.active)
  }

  // --- the native side ------------------------------------------------------

  /** Starting and stopping are idempotent; a failed start leaves the watcher as it was. */
  function Serve(s: Sys, ok: bool): Sys {
    if s.served >= |s.sent| then s
    else
      match s.sent[s.served]
      case StartWatch(k) => s.(served := s.served + 1, watching := s.watching || ok, answers := s.answers[k := ok])
      case StopWatch => s.(served := s.served + 1, watching := false)
      case RefreshPage => s.(served := s.served + 1)
  }

  function SettleStart(s: Sys, k: nat): Sys {
    if k !in s.answers then s else s.(proxy := OnSettled(s.proxy, k, s.answers[k]), answers := s.answers - {k})
  }

  datatype Event =
    | DoWatch(sink: nat) | DoUnwatch(sink: nat) | DoRefresh | DoDispose
    | DoServe(ok: bool) | DoSettle(k: nat)

  function Next(s: Sys, e: Event): Sys {
    match e
    case DoWatch(sink) => Watch(s, sink)
    case DoUnwatch(sink) => Unwatch(s, sink)
    case DoRefresh => Refresh(s)
    case DoDispose => Dispose(s)
    case DoServe(ok) => Serve(s, ok)
    case DoSettle(k) => SettleStart(s, k)
  }

  function Run(s: Sys, es: seq<Event>): Sys
    decreases |es|
  {
    if es == [] then s else Run(Next(s, es[0]), es[1..])
  }

  // --- the invariant --------------------------------------------------------

  /** What the last start or stop request asked for. */
  function Wanted(sent: seq<Request>): bool
    decreases |sent|
  {
    if sent == [] then false
    else if sent[|sent| - 1].RefreshPage? then Wanted(sent[..|sent| - 1])
    else sent[|sent| - 1].StartWatch?
  }

  lemma WantedAppends(sent: seq<Request>, r: Request)
    ensures Wanted(sent + [r]) == if r.RefreshPage? then Wanted(sent) else r.StartWatch?
  {
    assert (sent + [r])[..|sent|] == sent;
  }

  /** The latest start or stop request is a start with the current number. */
  predicate Current(s: Sys) {
    s.mark < |s.sent| && s.sent[s.mark] == StartWatch(s.proxy.seqNo)
  }

  /** Starts are numbered apart, nothing but refreshes follows the mark, and every stop follows a start. */
  ghost predicate RequestsOk(s: Sys) {
    && s.served <= |s.sent|
    && (forall i :: 0 <= i < |s.sent| && s.sent[i].StartWatch? ==>
          s.sent[i].seqNo <= s.proxy.seqNo && (s.sent[i].seqNo == s.proxy.seqNo ==> i == s.mark))
    && (forall i :: s.mark < i < |s.sent| ==> s.sent[i].RefreshPage?)
    && (forall i :: 0 <= i < |s.sent| && s.sent[i].StopWatch? ==> Wanted(s.sent[..i]))
  }

  ghost predicate ProxyOk(s: Sys) {
    var p := s.proxy;
    && !(p.active && p.startInFlight)
    && (p.sinks == {} ==> !p.active && !p.startInFlight)
    && (p.active || p.startInFlight ==> Current(s) && Wanted(s.sent))
    && (Current(s) && s.served <= s.mark ==> p.startInFlight && p.seqNo !in s.answers)
    && (forall k :: k in s.answers ==> k <= p.seqNo && (k == p.seqNo ==> p.startInFlight && s.mark < s.served))
    && (p.startInFlight && s.mark < s.served ==> p.seqNo in s.answers && (s.answers[p.seqNo] ==> s.watching))
    && (p.active ==> s.watching && s.mark < s.served)
  }

  ghost predicate Inv(s: Sys) {
    RequestsOk(s) && ProxyOk(s)
  }

  lemma SendingKeepsRequests(s: Sys, r: Request)
    requires RequestsOk(s) && (r.StopWatch? ==> Wanted(s.sent)) && (r.StartWatch? ==> r.seqNo == s.proxy.seqNo + 1)
    ensures
      var s' := if r.RefreshPage? then s.(sent := s.sent + [r])
                else s.(sent := s.sent + [r], mark := |s.sent|, proxy := s.proxy.(seqNo := s.proxy.seqNo + 1));
      RequestsOk(s')
  {
    forall i | 0 <= i < |s.sent + [r]| && (s.sent + [r])[i].StopWatch? ensures Wanted((s.sent + [r])[..i])
    {
      assert (s.sent + [r])[..i] == s.sent[..i];
      assert i == |s.sent| ==> s.sent[..i] == s.sent;
    }
  }

  /** A fresh start makes the proxy wait for exactly that start. */
  lemma StartingKeepsProxy(s: Sys)
    requires RequestsOk(s) && ProxyOk(s.(proxy := s.proxy.(sinks := {0}))) && s.proxy.sinks != {}
    requires !s.proxy.active && !s.proxy.startInFlight
    ensures ProxyOk(Ensure(s))
  {
    hide RequestsOk, Wanted;
    assert s.served <= |s.sent| by { ServedOnlySent(s); }
    WantedAppends(s.sent, StartWatch(s.proxy.seqNo + 1));
  }

  lemma ServedOnlySent(s: Sys)
    requires RequestsOk(s)
    ensures s.served <= |s.sent|
  {
  }

  lemma EnsureKeepsInv(s: Sys)
    requires RequestsOk(s) && ProxyOk(s.(proxy := s.proxy.(sinks := {0}))) && s.proxy.sinks != {}
    ensures Inv(Ensure(s)) && (Ensure(s).proxy.active || Ensure(s).proxy.startInFlight)
  {
    hide RequestsOk, Wanted;
    if !s.proxy.active && !s.proxy.startInFlight {
      StartingKeepsProxy(s);
      SendingKeepsRequests(s, StartWatch(s.proxy.seqNo + 1));
      SinksDoNotMatter(s.(sent := s.sent + [StartWatch(s.proxy.seqNo + 1)], mark := |s.sent|,
                          proxy := s.proxy.(seqNo := s.proxy.seqNo + 1)), Ensure(s));
    }
  }

  /** The requests say nothing of the proxy but its number. */
  lemma SinksDoNotMatter(s: Sys, s': Sys)
    requires RequestsOk(s) && s'.sent == s.sent && s'.mark == s.mark && s'.served == s.served && s'.proxy.seqNo == s.proxy.seqNo
    ensures RequestsOk(s')
  {
  }

  lemma ReleaseKeepsInv(s: Sys)
    requires RequestsOk(s) && ProxyOk(s.(proxy := s.proxy.(sinks := {0})))
    ensures Inv(Release(s)) && !Release(s).proxy.active && !Release(s).proxy.startInFlight
  {
    if s.proxy.active || s.proxy.startInFlight {
      SendingKeepsRequests(s, StopWatch);
    }
  }

  lemma RefreshKeepsInv(s: Sys)
    requires Inv(s)
    ensures Inv(Refresh(s))
  {
    if s.proxy.sinks != {} {
      if !s.proxy.active && !s.proxy.startInFlight {
        EnsureKeepsInv(s);
      } else {
        SendingKeepsRequests(s, RefreshPage);
        WantedAppends(s.sent, RefreshPage);
      }
    }
  }

  lemma ServeKeepsRequests(s: Sys, ok: bool)
    requires RequestsOk(s)
    ensures RequestsOk(Serve(s, ok))
  {
  }

  /** What stands at the mark, and what stands elsewhere, when a request is served. */
  lemma ServedPosition(s: Sys)
    requires RequestsOk(s) && s.served < |s.sent|
    ensures
      var r := s.sent[s.served];
      && (r.StartWatch? ==> r.seqNo <= s.proxy.seqNo && (r.seqNo == s.proxy.seqNo ==> s.served == s.mark))
      && (s.served > s.mark ==> r.RefreshPage?)
  {
  }

  lemma ServeKeepsProxy(s: Sys, ok: bool)
    requires Inv(s) && s.served < |s.sent|
    ensures ProxyOk(Serve(s, ok))
  {
    ServedPosition(s);
    hide RequestsOk, Wanted;
  }

  lemma ServeKeepsInv(s: Sys, ok: bool)
    requires Inv(s)
    ensures Inv(Serve(s, ok))
  {
    ServeKeepsRequests(s, ok);
    if s.served < |s.sent| {
      ServeKeepsProxy(s, ok);
    }
    hide RequestsOk, ProxyOk;
  }

  lemma SettleKeepsInv(s: Sys, k: nat)
    requires Inv(s)
    ensures Inv(SettleStart(s, k))
  {
  }

  lemma UnwatchKeepsInv(s: Sys, sink: nat)
    requires Inv(s)
    ensures Inv(Unwatch(s, sink))
  {
    if s.proxy.sinks - {sink} == {} {
      ReleaseKeepsInv(s.(proxy := s.proxy.(sinks := s.proxy.sinks - {sink})));
    }
  }

  lemma NextKeepsInv(s: Sys, e: Event)
    requires Inv(s)
    ensures Inv(Next(s, e))
  {
    match e
    case DoWatch(sink) => EnsureKeepsInv(s.(proxy := s.proxy.(sinks := s.proxy.sinks + {sink})));
    case DoUnwatch(sink) => UnwatchKeepsInv(s, sink);
    case DoRefresh => RefreshKeepsInv(s);
    case DoDispose => ReleaseKeepsInv(s.(proxy := s.proxy.(sinks := {})));
    case DoServe(ok) => ServeKeepsInv(s, ok);
    case DoSettle(k) => SettleKeepsInv(s, k);
  }

  lemma {:induction false} RunKeepsInv(s: Sys, es: seq<Event>)
    requires Inv(s)
    ensures Inv(Run(s, es))
    decreases |es|
  {
    if es != [] {
      NextKeepsInv(s, es[0]);
      RunKeepsInv(Next(s, es[0]), es[1..]);
    }
  }

  // --- what it gives, failures included -------------------------------------

  /** A stop is sent only when the last start or stop before it was a start. */
  lemma StopOnlyAfterStart(es: seq<Event>, i: nat)
    requires i < |Run(FRESH, es).sent| && Run(FRESH, es).sent[i].StopWatch?
    ensures Wanted(Run(FRESH, es).sent[..i])
  {
    RunKeepsInv(FRESH, es);
  }

  /** The settlement of a start that any later start or stop superseded changes nothing at the proxy. */
  lemma StaleSettlementsChangeNothing(es: seq<Event>, i: nat, j: nat, k: nat)
    requires
      var sent := Run(FRESH, es).sent;
      i < j < |sent| && sent[i] == StartWatch(k) && !sent[j].RefreshPage?
    ensures SettleStart(Run(FRESH, es), k).proxy == Run(FRESH, es).proxy
  {
    RunKeepsInv(FRESH, es);
  }

  /** Of all start requests, at most one carries the current number, so at most one unsettled start is current. */
  lemma OneCurrentStart(es: seq<Event>, i: nat, j: nat)
    requires
      var s := Run(FRESH, es);
      i < |s.sent| && j < |s.sent| && s.sent[i] == StartWatch(s.proxy.seqNo) && s.sent[j] == StartWatch(s.proxy.seqNo)
    ensures i == j
  {
    RunKeepsInv(FRESH, es);
  }

  /** The proxy believes it is watching only while the native side is. */
  lemma ActiveMeansWatching(es: seq<Event>)
    requires Run(FRESH, es).proxy.active
    ensures Run(FRESH, es).watching
  {
    RunKeepsInv(FRESH, es);
  }

  /** With sinks left and no start under way, the next watch or refresh sends a fresh start. */
  lemma FailedStartIsRetried(es: seq<Event>, sink: nat)
    requires
      var p := Run(FRESH, es).proxy;
      p.sinks != {} && !p.active && !p.startInFlight
    ensures
      var s := Run(FRESH, es);
      && Refresh(s).sent == s.sent + [StartWatch(s.proxy.seqNo + 1)] && Refresh(s).proxy.startInFlight
      && Watch(s, sink).sent == s.sent + [StartWatch(s.proxy.seqNo + 1)] && Watch(s, sink).proxy.startInFlight
      && s.proxy.seqNo + 1 !in s.answers
  {
    RunKeepsInv(FRESH, es);
  }

  // --- when every request succeeds ------------------------------------------

  predicate AllSucceed(es: seq<Event>) {
    forall i :: 0 <= i < |es| && es[i].DoServe? ==> es[i].ok
  }

  /** What the proxy believes is what it last asked for, and it asks for what its sinks need. */
  predicate Belief(s: Sys) {
    (s.proxy.active || s.proxy.startInFlight <==> Wanted(s.sent)) && (s.proxy.sinks != {} ==> Wanted(s.sent))
  }

  /** The native side watches as the requests served so far asked it to. */
  predicate Obedient(s: Sys) {
    s.served <= |s.sent| && s.watching == Wanted(s.sent[..s.served]) && forall k :: k in s.answers ==> s.answers[k]
  }

  ghost predicate Faithful(s: Sys) {
    Inv(s) && Belief(s) && Obedient(s)
  }

  lemma EnsureBelieves(s: Sys)
    requires s.proxy.active || s.proxy.startInFlight <==> Wanted(s.sent)
    ensures Belief(Ensure(s))
  {
    WantedAppends(s.sent, StartWatch(s.proxy.seqNo + 1));
  }

  lemma ReleaseBelieves(s: Sys)
    requires s.proxy.sinks == {} && (s.proxy.active || s.proxy.startInFlight <==> Wanted(s.sent))
    ensures Belief(Release(s))
  {
    WantedAppends(s.sent, StopWatch);
  }

  lemma NextKeepsBelief(s: Sys, e: Event)
    requires Inv(s) && Belief(s) && Obedient(s) && (e.DoServe? ==> e.ok)
    ensures Belief(Next(s, e))
  {
    match e
    case DoWatch(sink) => EnsureBelieves(s.(proxy := s.proxy.(sinks := s.proxy.sinks + {sink})));
    case DoUnwatch(sink) =>
      if s.proxy.sinks - {sink} == {} {
        ReleaseBelieves(s.(proxy := s.proxy.(sinks := s.proxy.sinks - {sink})));
      }
    case DoRefresh =>
      EnsureBelieves(s);
      WantedAppends(s.sent, RefreshPage);
    case DoDispose => ReleaseBelieves(s.(proxy := s.proxy.(sinks := {})));
    case DoServe(_) =>
    case DoSettle(k) =>
  }

  /** A call at the proxy sends at most one request and leaves the native side alone. */
  lemma CallsOnlySend(s: Sys, e: Event)
    requires !e.DoServe?
    ensures
      var s' := Next(s, e);
      && s'.served == s.served && s'.watching == s.watching && s.sent <= s'.sent
      && forall k :: k in s'.answers ==> k in s.answers && s'.answers[k] == s.answers[k]
  {
  }

  lemma NextKeepsObedient(s: Sys, e: Event)
    requires Obedient(s) && (e.DoServe? ==> e.ok)
    ensures Obedient(Next(s, e))
  {
    if !e.DoServe? {
      CallsOnlySend(s, e);
      assert Next(s, e).sent[..s.served] == s.sent[..s.served];
    } else if s.served < |s.sent| {
      WantedAppends(s.sent[..s.served], s.sent[s.served]);
      assert s.sent[..s.served + 1] == s.sent[..s.served] + [s.sent[s.served]];
    }
  }

  lemma NextKeepsFaithful(s: Sys, e: Event)
    requires Faithful(s) && (e.DoServe? ==> e.ok)
    ensures Faithful(Next(s, e))
  {
    NextKeepsInv(s, e);
    NextKeepsBelief(s, e);
    NextKeepsObedient(s, e);
  }

  lemma {:induction false} RunKeepsFaithful(s: Sys, es: seq<Event>)
    requires Faithful(s) && AllSucceed(es)
    ensures Faithful(Run(s, es))
    decreases |es|
  {
    if es != [] {
      NextKeepsFaithful(s, es[0]);
      assert AllSucceed(es[1..]);
      RunKeepsFaithful(Next(s, es[0]), es[1..]);
    }
  }

  /** Once every request was served and every start settled, the native side watches exactly when sinks remain. */
  lemma QuietNativeMatchesSinks(es: seq<Event>)
    requires AllSucceed(es) && Run(FRESH, es).served == |Run(FRESH, es).sent| && Run(FRESH, es).answers == map[]
    ensures
      var s := Run(FRESH, es);
      (s.watching <==> s.proxy.sinks != {}) && (s.proxy.active <==> s.watching)
  {
    RunKeepsFaithful(FRESH, es);
    var s := Run(FRESH, es);
    assert s.sent[..s.served] == s.sent;
  }
}
