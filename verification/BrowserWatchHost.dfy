/** The proxy object itself, updated in place by calls and promise settlements. */
module BrowserWatchHost {
  import Spec = BrowserWatch
  import opened BrowserWatch

  class BackendRemoteBrowserProxy {
    var sinks: set<nat>
    var startInFlight: bool
    var nativeWatchActive: bool
    var watchSeq: nat
    // The native side and the channel to it.
    var sent: seq<Request>
    var served: nat
    var watching: bool
    var answers: map<nat, bool>
    ghost var mark: nat

    ghost function View(): Sys
      reads this
    {
      Sys(Proxy(sinks, startInFlight, nativeWatchActive, watchSeq), sent, mark, served, watching, answers)
    }

    constructor ()
      ensures View() == FRESH
    {
      sinks, startInFlight, nativeWatchActive, watchSeq := {}, false, false, 0;
      sent, served, watching, answers, mark := [], 0, false, map[], 0;
    }

    method EnsureNativeWatch()
      modifies this`startInFlight, this`watchSeq, this`sent, this`mark
      ensures View() == Ensure(old(View()))
    {
      if nativeWatchActive || startInFlight {
        return;
      }
      watchSeq := watchSeq + 1;
      startInFlight := true;
      mark := |sent|;
      sent := sent + [StartWatch(watchSeq)];
    }

    method ReleaseNativeWatch()
      modifies this`startInFlight, this`nativeWatchActive, this`watchSeq, this`sent, this`mark
      ensures View() == Release(old(View()))
    {
      if !nativeWatchActive && !startInFlight {
        return;
      }
      watchSeq := watchSeq + 1;
      startInFlight, nativeWatchActive := false, false;
      mark := |sent|;
      sent := sent + [StopWatch];
    }

    method Watch(sink: nat)
      modifies this
      ensures View() == Spec.Watch(old(View()), sink)
    {
      sinks := sinks + {sink};
      EnsureNativeWatch();
    }

    /** The function `watch` returns. */
    method Unwatch(sink: nat)
      modifies this
      ensures View() == Spec.Unwatch(old(View()), sink)
    {
      sinks := sinks - {sink};
      if |sinks| == 0 {
        ReleaseNativeWatch();
      }
    }

    method Refresh()
      modifies this
      ensures View() == Spec.Refresh(old(View()))
    {
      if |sinks| == 0 {
        return;
      }
      if !nativeWatchActive && !startInFlight {
        EnsureNativeWatch();
        return;
      }
      sent := sent + [RefreshPage];
    }

    method Dispose()
      modifies this
      ensures View() == Spec.Dispose(old(View()))
    {
      sinks := {};
      ReleaseNativeWatch();
    }

    /** The continuation of a start request's promise. */
    method StartSettled(seqNo: nat)
      requires seqNo in answers
      modifies this`startInFlight, this`nativeWatchActive, this`answers
      ensures View() == SettleStart(old(View()), seqNo)
    {
      var ok := answers[seqNo];
      answers := answers - {seqNo};
      if seqNo != watchSeq {
        return;
      }
      startInFlight := false;
      if ok {
        nativeWatchActive := true;
      }
    }
  }
}
