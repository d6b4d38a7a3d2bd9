/**
 * Main's working set of threads and the two power channels derived from it, from the
 * committed settings and from Computer Use activity.
 */
module MainShell {
  import opened Wrappers

  datatype Condition = Always | Working | ComputerUse | RemoteAccess
  datatype Settings = Settings(sleepWhen: seq<Condition>, lockWhen: seq<Condition>, remoteAccess: bool)
  datatype Change = Change(threadId: string, active: bool)

  const DEFAULT_SETTINGS := Settings([Working, RemoteAccess], [], false)

  /** A native power channel: the value last applied, and everything its inhibitor was told. */
  datatype Channel = Channel(last: Option<bool>, calls: seq<bool>)

  datatype Main = Main(
    working: set<string>, computerUse: set<string>, settings: Option<Settings>, hasPaths: bool, sleep: Channel, lock: Channel)

  const UNTOLD := Channel(None, [])
  const FRESH_MAIN := Main({}, {}, None, false, UNTOLD, UNTOLD)

  // --- the policy -----------------------------------------------------------

  predicate ComputerUseActive(m: Main) {
    m.working * m.computerUse != {}
  }

  predicate Met(c: Condition, m: Main, remoteAccess: bool) {
    match c
    case Always => true
    case Working => m.working != {}
    case ComputerUse => ComputerUseActive(m)
    case RemoteAccess => remoteAccess
  }

  predicate AnyMet(conditions: seq<Condition>, m: Main, remoteAccess: bool) {
    exists i :: 0 <= i < |conditions| && Met(conditions[i], m, remoteAccess)
  }

  /** The settings in force: the committed ones, or the defaults before any were read. */
  function Effective(m: Main): Settings {
    if m.settings.Some? then m.settings.value else DEFAULT_SETTINGS
  }

  predicate SleepPolicy(m: Main) {
    AnyMet(Effective(m).sleepWhen, m, Effective(m).remoteAccess)
  }

  predicate LockPolicy(m: Main) {
    AnyMet(Effective(m).lockWhen, m, Effective(m).remoteAccess)
  }

  // --- reactions ------------------------------------------------------------

  /** The settings file is read once, when no committed settings have arrived and its path is known. */
  function Adopt(m: Main, file: Settings): Main {
    if m.settings.None? && m.hasPaths then m.(settings := Some(file)) else m
  }

  function Tell(c: Channel, value: bool): Channel {
    if c.last == Some(value) then c else Channel(Some(value), c.calls + [value])
  }

  function Derive(m: Main, file: Settings): Main {
    var m1 := Adopt(m, file);
    m1.(sleep := Tell(m1.sleep, SleepPolicy(m1)), lock := Tell(m1.lock, LockPolicy(m1)))
  }

  function Apply(working: set<string>, c: Change): set<string> {
    if c.active then working + {c.threadId} else working - {c.threadId}
  }

  function ApplyAll(working: set<string>, changes: seq<Change>): set<string>
    decreases |changes|
  {
    if changes == [] then working else ApplyAll(Apply(working, changes[0]), changes[1..])
  }

  /** Some change of the batch moved the set, even if a later one moved it back. */
  predicate Moved(working: set<string>, changes: seq<Change>)
    decreases |changes|
  {
    changes != [] && (Apply(working, changes[0]) != working || Moved(Apply(working, changes[0]), changes[1..]))
  }

  function ApplyActivity(m: Main, changes: seq<Change>, file: Settings): Main {
    var m1 := m.(working := ApplyAll(m.working, changes));
    if Moved(m.working, changes) then Derive(m1, file) else m1
  }

  function ResetActivity(m: Main, file: Settings): Main {
    Derive(m.(working := {}), file)
  }

  function SetComputerUse(m: Main, threadIds: set<string>, file: Settings): Main {
    Derive(m.(computerUse := threadIds), file)
  }

  function ChangeSettings(m: Main, settings: Settings): Main {
    Derive(m.(settings := Some(settings)), settings)
  }

  /** Native-shell preparation seeds the cache from the file it parsed and derives nothing. */
  function Prepare(m: Main, settings: Settings): Main {
    m.(settings := Some(settings), hasPaths := true)
  }

  // --- the channels follow the policy ---------------------------------------

  /** Consecutive calls tell an inhibitor different things, and the last one is the value on record. */
  ghost predicate ChannelOk(c: Channel) {
    && (c.last.Some? <==> c.calls != [])
    && (c.last.Some? ==> c.calls[|c.calls| - 1] == c.last.value)
    && (forall i, j :: 0 <= i && j == i + 1 && j < |c.calls| ==> c.calls[i] != c.calls[j])
  }

  /** Nothing applied yet, or exactly what the policy says now; and the inhibitors were told so without repetition. */
  ghost predicate PowerOk(m: Main) {
    && (m.sleep.last.Some? ==> m.sleep.last.value == SleepPolicy(m))
    && (m.lock.last.Some? ==> m.lock.last.value == LockPolicy(m))
    && (m.sleep.last.Some? <==> m.lock.last.Some?)
    && ChannelOk(m.sleep) && ChannelOk(m.lock)
  }

  lemma TellKeeps(c: Channel, value: bool)
    requires ChannelOk(c)
    ensures ChannelOk(Tell(c, value)) && Tell(c, value).last == Some(value)
  {
    var calls := c.calls + [value];
    forall i, j | 0 <= i && j == i + 1 && j < |calls| && c.last != Some(value) ensures calls[i] != calls[j]
    {
      assert calls[i] == c.calls[i];
    }
  }

  predicate SameActivity(m: Main, n: Main) {
    m.working == n.working && m.computerUse == n.computerUse && Effective(m) == Effective(n)
  }

  lemma SamePolicy(m: Main, n: Main)
    requires SameActivity(m, n)
    ensures SleepPolicy(m) == SleepPolicy(n) && LockPolicy(m) == LockPolicy(n)
  {
    assert forall c, remote: bool :: Met(c, m, remote) == Met(c, n, remote);
  }

  lemma DeriveApplies(m: Main, file: Settings)
    requires ChannelOk(m.sleep) && ChannelOk(m.lock)
    ensures
      var m' := Derive(m, file);
      PowerOk(m') && m'.sleep.last.Some? && m'.working == m.working && m'.computerUse == m.computerUse
  {
    var m1 := Adopt(m, file);
    SamePolicy(m1, Derive(m, file));
    TellKeeps(m1.sleep, SleepPolicy(m1));
    TellKeeps(m1.lock, LockPolicy(m1));
  }

  /** A batch that moves nothing changes no policy input. */
  lemma {:induction false} UnmovedIsUnchanged(working: set<string>, changes: seq<Change>)
    requires !Moved(working, changes)
    ensures ApplyAll(working, changes) == working
    decreases |changes|
  {
    if changes != [] {
      UnmovedIsUnchanged(Apply(working, changes[0]), changes[1..]);
    }
  }

  datatype Reaction =
    | Activity(changes: seq<Change>, file: Settings)
    | SupervisorReset(file: Settings)
    | ComputerUseChanged(threadIds: set<string>, file: Settings)
    | SettingsChanged(settings: Settings)
    | PathsKnown

  function React(m: Main, r: Reaction): Main {
    match r
    case Activity(changes, file) => ApplyActivity(m, changes, file)
    case SupervisorReset(file) => ResetActivity(m, file)
    case ComputerUseChanged(threadIds, file) => SetComputerUse(m, threadIds, file)
    case SettingsChanged(settings) => ChangeSettings(m, settings)
    case PathsKnown => m.(hasPaths := true)
  }

  lemma ReactKeepsPower(m: Main, r: Reaction)
    requires PowerOk(m)
    ensures PowerOk(React(m, r))
  {
    match r
    case Activity(changes, file) =>
      if Moved(m.working, changes) {
        DeriveApplies(m.(working := ApplyAll(m.working, changes)), file);
      } else {
        UnmovedIsUnchanged(m.working, changes);
      }
    case SupervisorReset(file) => DeriveApplies(m.(working := {}), file);
    case ComputerUseChanged(threadIds, file) => DeriveApplies(m.(computerUse := threadIds), file);
    case SettingsChanged(settings) => DeriveApplies(m.(settings := Some(settings)), settings);
    case PathsKnown => SamePolicy(m, m.(hasPaths := true));
  }

  function ReactAll(m: Main, rs: seq<Reaction>): Main
    decreases |rs|
  {
    if rs == [] then m else ReactAll(React(m, rs[0]), rs[1..])
  }

  /** Over any run of reactions, an applied power value is always the policy of the current set and settings. */
  lemma {:induction false} PowerFollowsPolicy(m: Main, rs: seq<Reaction>)
    requires PowerOk(m)
    ensures PowerOk(ReactAll(m, rs))
    decreases |rs|
  {
    if rs != [] {
      ReactKeepsPower(m, rs[0]);
      PowerFollowsPolicy(React(m, rs[0]), rs[1..]);
    }
  }

  /** Preparation alone re-derives nothing: the channels still match exactly when none was applied or the policy did not move. */
  lemma PreparationKeepsPowerExactlyWhen(m: Main, settings: Settings)
    requires PowerOk(m)
    ensures PowerOk(Prepare(m, settings))
        <==> m.sleep.last.None? || (SleepPolicy(Prepare(m, settings)) == SleepPolicy(m) && LockPolicy(Prepare(m, settings)) == LockPolicy(m))
  {
  }

  /** Preparing after a first derivation can leave a channel behind the settings just adopted. */
  lemma LatePreparationFallsBehind()
    ensures
      var m := ReactAll(FRESH_MAIN, [SupervisorReset(DEFAULT_SETTINGS)]);
      PowerOk(m) && !PowerOk(Prepare(m, Settings([Always], [], false)))
  {
    assert PowerOk(FRESH_MAIN);
    PowerFollowsPolicy(FRESH_MAIN, [SupervisorReset(DEFAULT_SETTINGS)]);
    var m := ReactAll(FRESH_MAIN, [SupervisorReset(DEFAULT_SETTINGS)]);
    assert [SupervisorReset(DEFAULT_SETTINGS)][1..] == [];
    assert m == ReactAll(ResetActivity(FRESH_MAIN, DEFAULT_SETTINGS), []);
    assert FRESH_MAIN.(working := {}) == FRESH_MAIN;
    assert !SleepPolicy(FRESH_MAIN);
    var late := Prepare(m, Settings([Always], [], false));
    assert Met(Effective(late).sleepWhen[0], late, false);
  }

  // --- the module's own state -----------------------------------------------

  /** The shell's caches and the shared working set, updated in place. */
  class DesktopShell {
    var workingThreads: set<string>
    var computerUseThreads: set<string>
    var committedSharedSettings: Option<Settings>
    var hasPaths: bool
    var lastAppliedPreventSleep: Option<bool>
    var lastAppliedPreventScreenLock: Option<bool>
    // What the two inhibitors were told.
    var sleepCalls: seq<bool>
    var lockCalls: seq<bool>

    ghost function View(): Main
      reads this
    {
      Main(workingThreads, computerUseThreads, committedSharedSettings, hasPaths,
           Channel(lastAppliedPreventSleep, sleepCalls), Channel(lastAppliedPreventScreenLock, lockCalls))
    }

    constructor ()
      ensures View() == FRESH_MAIN
    {
      workingThreads, computerUseThreads, committedSharedSettings, hasPaths := {}, {}, None, false;
      lastAppliedPreventSleep, lastAppliedPreventScreenLock, sleepCalls, lockCalls := None, None, [], [];
    }

    method ResolveCommittedSharedSettings(file: Settings) returns (settings: Settings)
      modifies this`committedSharedSettings
      ensures View() == Adopt(old(View()), file) && settings == Effective(View())
    {
      if committedSharedSettings.Some? {
        return committedSharedSettings.value;
      }
      if !hasPaths {
        return DEFAULT_SETTINGS;
      }
      committedSharedSettings := Some(file);
      settings := file;
    }

    method AnyConditionMet(conditions: seq<Condition>, remoteAccess: bool, workingThreadCount: nat, computerUseActive: bool)
      returns (met: bool)
      requires workingThreadCount == |workingThreads| && computerUseActive == ComputerUseActive(View())
      ensures met == AnyMet(conditions, View(), remoteAccess)
    {
      var i := 0;
      while i < |conditions|
        invariant 0 <= i <= |conditions|
        invariant forall j :: 0 <= j < i ==> !Met(conditions[j], View(), remoteAccess)
      {
        met := match conditions[i]
               case Always => true
               case Working => workingThreadCount > 0
               case ComputerUse => computerUseActive
               case RemoteAccess => remoteAccess;
        if met {
          assert Met(conditions[i], View(), remoteAccess);
          return;
        }
        i := i + 1;
      }
      met := false;
    }

    method UpdatePowerSaveBlocker(file: Settings)
      modifies this
      ensures View() == Derive(old(View()), file)
    {
      var settings := ResolveCommittedSharedSettings(file);
      ghost var resolved := View();
      var computerUseActive := workingThreads * computerUseThreads != {};
      var preventSleep := AnyConditionMet(settings.sleepWhen, settings.remoteAccess, |workingThreads|, computerUseActive);
      if Some(preventSleep) != lastAppliedPreventSleep {
        lastAppliedPreventSleep := Some(preventSleep);
        sleepCalls := sleepCalls + [preventSleep];
      }
      SamePolicy(resolved, View());
      var preventScreenLock := AnyConditionMet(settings.lockWhen, settings.remoteAccess, |workingThreads|, computerUseActive);
      if Some(preventScreenLock) != lastAppliedPreventScreenLock {
        lastAppliedPreventScreenLock := Some(preventScreenLock);
        lockCalls := lockCalls + [preventScreenLock];
      }
    }

    method SetComputerUseThreads(threadIds: set<string>, file: Settings)
      modifies this
      ensures View() == SetComputerUse(old(View()), threadIds, file)
    {
      computerUseThreads := threadIds;
      UpdatePowerSaveBlocker(file);
    }

    method ApplyThreadActivity(changes: seq<Change>, file: Settings)
      modifies this
      ensures View() == ApplyActivity(old(View()), changes, file)
    {
      var changed, i := false, 0;
      while i < |changes|
        invariant 0 <= i <= |changes|
        invariant View() == old(View()).(working := workingThreads)
        invariant ApplyAll(workingThreads, changes[i..]) == ApplyAll(old(workingThreads), changes)
        invariant (changed || Moved(workingThreads, changes[i..])) <==> Moved(old(workingThreads), changes)
      {
        var change := changes[i];
        assert changes[i..][1..] == changes[i + 1..];
        ghost var next := Apply(workingThreads, change);
        if change.active {
          if change.threadId !in workingThreads {
            workingThreads := workingThreads + {change.threadId};
            changed := true;
          }
        } else if change.threadId in workingThreads {
          workingThreads := workingThreads - {change.threadId};
          changed := true;
        }
        assert workingThreads == next;
        i := i + 1;
      }
      if changed {
        UpdatePowerSaveBlocker(file);
      }
    }

    method ResetThreadActivity(file: Settings)
      modifies this
      ensures View() == ResetActivity(old(View()), file)
    {
      workingThreads := {};
      UpdatePowerSaveBlocker(file);
    }

    method HandleSharedSettingsChanged(settings: Settings)
      modifies this
      ensures View() == ChangeSettings(old(View()), settings)
    {
      committedSharedSettings := Some(settings);
      UpdatePowerSaveBlocker(settings);
    }

    method PrepareDesktopNativeShell(initialSettings: Settings)
      modifies this`committedSharedSettings, this`hasPaths
      ensures View() == Prepare(old(View()), initialSettings)
    {
      committedSharedSettings, hasPaths := Some(initialSettings), true;
    }
  }
}
