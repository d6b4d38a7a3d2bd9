/**
 * Where the renderer sends a procedure call: run it locally, refuse it, or route it to the
 * remote desktop that owns its subject and its locations. The registered hosts and the
 * terminal owners the router keeps enter as parameters.
 */
module RemoteRouting {
  import opened Wrappers
  import opened RemotePayload

  datatype Strategy =
    | NoOwner | ByLocation(key: string) | SkillLocations | ByThread | ByProject | ByTerminal | ByDesktop

  datatype Owner = Owner(desktopId: string, remoteId: string)

  datatype Host = Host(threads: map<string, Owner>, projects: map<string, Owner>, desktop: Option<string>)

  datatype TerminalOwner = TerminalOwner(desktopId: string, managed: bool)

  datatype Route = Route(desktopId: Value, payload: Fields, projectedProjectId: Option<string>, managed: bool)

  datatype Decision = Local | Refused | Remote(route: Route)

  // --- projected ids --------------------------------------------------------

  predicate StartsWith(s: string, prefix: string) {
    prefix <= s
  }

  /** The first place at or after `i` where the marker stands. */
  function IndexOf(s: string, marker: string, i: nat): Option<nat>
    decreases |s| - i
  {
    if i + |marker| > |s| then None else if s[i..i + |marker|] == marker then Some(i) else IndexOf(s, marker, i + 1)
  }

  const REMOTE := "remote:"
  const THREAD := ":thread:"
  const PROJECT := ":project:"

  /** An id of the form the renderer gives entities of a paired desktop. */
  predicate IsProjected(id: string, marker: string) {
    var at := IndexOf(id, marker, |REMOTE|);
    StartsWith(id, REMOTE) && at.Some? && at.value > |REMOTE| && at.value + |marker| < |id|
  }

  function UnprojectThreadId(server: string, id: string): Option<string> {
    var prefix := REMOTE + server + THREAD;
    if StartsWith(id, prefix) && |id| > |prefix| then Some(id[|prefix|..]) else None
  }

  // --- per-strategy resolvers -----------------------------------------------

  function StringAt(f: Fields, k: string): Option<string> {
    if k in f && f[k].Str? then Some(f[k].s) else None
  }

  function Unprojected(f: Fields): Fields {
    Unproject(Obj(f)).fields
  }

  /** A payload that names a remote owner without a host to route it is refused, anything else is local. */
  function Unowned(f: Fields, id: string, marker: string): Decision {
    if IsProjected(id, marker) || Analyze(Obj(f)).owners != {} then Refused else Local
  }

  /** A mention of a thread becomes the host's own id for it, or plain text when the host does not own it. */
  function Mention(segment: Value, host: Host, desktopId: string): Value {
    if !segment.Obj? || StringAt(segment.fields, "kind") != Some("thread") || StringAt(segment.fields, "threadId").None? then segment
    else
      var id := StringAt(segment.fields, "threadId").value;
      var remote := if id in host.threads && host.threads[id].desktopId == desktopId then Some(host.threads[id].remoteId)
                    else UnprojectThreadId(desktopId, id);
      if remote.Some? && remote.value != "" then Obj(segment.fields["threadId" := Str(remote.value)])
      else
        var title := StringAt(segment.fields, "title");
        Obj(map["kind" := Str("text"), "content" := Str("@" + if title.Some? && title.value != "" then title.value else id)])
  }

  function Mentions(segments: seq<Value>, host: Host, desktopId: string): seq<Value> {
    if segments == [] then [] else [Mention(segments[0], host, desktopId)] + Mentions(segments[1..], host, desktopId)
  }

  function ThreadPayload(f: Fields, host: Host, owner: Owner): Fields {
    var out := Unprojected(f);
    var withSegments := if "segments" in f && f["segments"].Arr?
                        then out["segments" := Arr(Mentions(f["segments"].items, host, owner.desktopId))] else out;
    withSegments["threadId" := Str(owner.remoteId)]
  }

  function ThreadRoute(f: Fields, host: Option<Host>): Decision {
    var id := StringAt(f, "threadId");
    if id.None? then Local
    else if host.None? || id.value !in host.value.threads then Unowned(f, id.value, THREAD)
    else
      var owner := host.value.threads[id.value];
      if !SingleOwner(Analyze(Obj(f)), Some(Str(owner.desktopId))) then Refused
      else Remote(Route(Str(owner.desktopId), ThreadPayload(f, host.value, owner), None, false))
  }

  function ProjectRoute(f: Fields, host: Option<Host>): Decision {
    var id := StringAt(f, "projectId");
    if id.None? then Local
    else if host.None? || id.value !in host.value.projects then Unowned(f, id.value, PROJECT)
    else
      var owner := host.value.projects[id.value];
      if !SingleOwner(Analyze(Obj(f)), Some(Str(owner.desktopId))) then Refused
      else Remote(Route(Str(owner.desktopId), Unprojected(f)["projectId" := Str(owner.remoteId)], id, false))
  }

  function LocationRoute(f: Fields, key: string, host: Option<Host>): Decision {
    var named := if LocationAt(f, key) then OwnerOf(f[key]) else None;
    if named.None? then (if Analyze(Obj(f)).owners != {} then Refused else Local)
    else if !SingleOwner(Analyze(Obj(f)), named) then Refused
    else
      var id := StringAt(f, "projectId");
      if id.Some? && id.value != "" && host.Some? && id.value in host.value.projects
         && Str(host.value.projects[id.value].desktopId) == named.value
      then Remote(Route(named.value, Unprojected(f)["projectId" := Str(host.value.projects[id.value].remoteId)], id, false))
      else Remote(Route(named.value, Unprojected(f), None, false))
  }

  /** An omitted location means the host's own global scope; a present one must name the server. */
  predicate SkillLocationOf(skill: Fields, key: string, server: Value, globalOwner: Option<string>) {
    if key !in skill then globalOwner.Some? && Str(globalOwner.value) == server
    else IsLocation(skill[key]) && OWNER in skill[key].fields && skill[key].fields[OWNER] == server
  }

  predicate SkillsBelong(skills: seq<Value>, server: Value, globalOwner: Option<string>) {
    forall i :: 0 <= i < |skills| ==>
      && skills[i].Obj?
      && SkillLocationOf(skills[i].fields, "projectLocation", server, globalOwner)
      && SkillLocationOf(skills[i].fields, "sourceProjectLocation", server, globalOwner)
  }

  lemma OneMember(owners: set<Value>, x: Value, y: Value)
    requires |owners| == 1 && x in owners && y in owners
    ensures x == y
  {
    assert |owners - {x}| == 0;
    assert y in owners - {x} || y == x;
  }

  /** The only element of a set of one. */
  function TheOwner(owners: set<Value>): (server: Value)
    requires |owners| == 1
    ensures owners == {server}
  {
    assert owners != {};
    assert forall x, y :: x in owners && y in owners ==> x == y by {
      forall x, y | x in owners && y in owners ensures x == y
      {
        OneMember(owners, x, y);
      }
    }
    var server :| server in owners;
    server
  }

  function SkillRoute(f: Fields, globalOwner: Option<string>): Decision {
    var owners := Analyze(Obj(f)).owners;
    if !HasSkills(f) || owners == {} then Local
    else if !SingleOwner(Analyze(Obj(f)), None) then Refused
    else if !SkillsBelong(f["skills"].items, TheOwner(owners), globalOwner) then Refused
    else Remote(Route(TheOwner(owners), Unprojected(f), None, false))
  }

  function TerminalRoute(f: Fields, host: Option<Host>, terminals: map<string, TerminalOwner>): Decision {
    var id := if StringAt(f, "shellId").Some? then StringAt(f, "shellId") else StringAt(f, "threadId");
    if id.None? || id.value == "" then Local
    else if id.value in terminals then
      Remote(Route(Str(terminals[id.value].desktopId), Unprojected(f), None, terminals[id.value].managed))
    else if host.None? || id.value !in host.value.threads then (if IsProjected(id.value, THREAD) then Refused else Local)
    else
      var owner := host.value.threads[id.value];
      Remote(Route(Str(owner.desktopId),
                   if StringAt(f, "threadId").Some? then Unprojected(f)["threadId" := Str(owner.remoteId)] else Unprojected(f),
                   None, false))
  }

  function Resolve(strategy: Strategy, payload: Value, host: Option<Host>, terminals: map<string, TerminalOwner>): Decision {
    if strategy.ByDesktop? then
      (if host.Some? && host.value.desktop.Some?
       then Remote(Route(Str(host.value.desktop.value), if payload.Obj? then payload.fields else map[], None, false))
       else Local)
    else if !payload.Obj? then Local
    else
      match strategy
      case NoOwner => Local
      case ByThread => ThreadRoute(payload.fields, host)
      case ByProject => ProjectRoute(payload.fields, host)
      case ByTerminal => TerminalRoute(payload.fields, host, terminals)
      case SkillLocations => SkillRoute(payload.fields, if host.Some? then host.value.desktop else None)
      case ByLocation(key) => LocationRoute(payload.fields, key, host)
  }

  // --- who serves a routed call ---------------------------------------------

  /** The live managed leg's registration: its opaque identity, and whether the caller's host is its host. */
  datatype Registration = Registration(desktopId: string, current: bool, isEffectiveHost: bool)

  datatype Service = RunsLocally | Fails | ServedBy(managed: bool, route: Route)

  predicate ManagedServes(r: Route, registration: Option<Registration>) {
    && registration.Some? && registration.value.current && r.desktopId == Str(registration.value.desktopId)
    && (r.managed || registration.value.isEffectiveHost)
  }

  function Serve(d: Decision, host: Option<Host>, registration: Option<Registration>): Service {
    match d
    case Local => RunsLocally
    case Refused => Fails
    case Remote(r) =>
      if ManagedServes(r, registration) then ServedBy(true, r)
      else if r.managed || host.None? then Fails
      else ServedBy(false, r)
  }

  // --- the accumulator ------------------------------------------------------

  /** The ownership analysis as the code runs it: one accumulator filled while walking the payload. */
  class LocationAnalysis {
    var owners: set<Value>
    var hasLocal: bool

    constructor ()
      ensures owners == {} && !hasLocal
    {
      owners, hasLocal := {}, false;
    }

    method AnalyzeHere(f: Fields)
      modifies this
      ensures Analysis(owners, hasLocal) == Join(old(Analysis(owners, hasLocal)), Here(f))
    {
      ghost var before := Analysis(owners, hasLocal);
      var i := 0;
      while i < |LOCATION_KEYS|
        invariant 0 <= i <= |LOCATION_KEYS|
        invariant Analysis(owners, hasLocal) == Join(before, HereAt(f, LOCATION_KEYS[..i]))
      {
        var key := LOCATION_KEYS[i];
        HereAtMore(f, LOCATION_KEYS[..i], key);
        assert LOCATION_KEYS[..i + 1] == LOCATION_KEYS[..i] + [key];
        if key in f && IsLocation(f[key]) {
          if OwnerOf(f[key]).Some? {
            owners := owners + {OwnerOf(f[key]).value};
          } else {
            hasLocal := true;
          }
        }
        i := i + 1;
      }
      assert LOCATION_KEYS[..i] == LOCATION_KEYS;
      HereAtAll(f);
    }

    method Analyze(v: Value)
      requires v.Obj?
      modifies this
      ensures Analysis(owners, hasLocal) == Join(old(Analysis(owners, hasLocal)), RemotePayload.Analyze(v))
      decreases v
    {
      AnalyzeHere(v.fields);
      if HasSkills(v.fields) {
        var skills := v.fields["skills"].items;
        ghost var before := Analysis(owners, hasLocal);
        var i := 0;
        while i < |skills|
          invariant 0 <= i <= |skills|
          invariant Join(Analysis(owners, hasLocal), AnalyzeAll(skills[i..])) == Join(before, AnalyzeAll(skills))
        {
          assert skills[i..][1..] == skills[i + 1..];
          if skills[i].Obj? {
            Analyze(skills[i]);
          }
          i := i + 1;
        }
      }
    }
  }

  function AtKey(f: Fields, key: string): Analysis {
    if key !in f || !IsLocation(f[key]) then Analysis({}, false)
    else if OwnerOf(f[key]).Some? then Analysis({OwnerOf(f[key]).value}, false)
    else Analysis({}, true)
  }

  function HereAt(f: Fields, keys: seq<string>): Analysis {
    if keys == [] then Analysis({}, false) else Join(HereAt(f, keys[..|keys| - 1]), AtKey(f, keys[|keys| - 1]))
  }

  lemma HereAtMore(f: Fields, keys: seq<string>, key: string)
    ensures HereAt(f, keys + [key]) == Join(HereAt(f, keys), AtKey(f, key))
  {
    assert (keys + [key])[..|keys|] == keys;
  }

  lemma {:induction false} HereAtMeans(f: Fields, keys: seq<string>)
    ensures forall o :: o in HereAt(f, keys).owners <==> exists k :: k in keys && k in f && IsLocation(f[k]) && OwnerOf(f[k]) == Some(o)
    ensures HereAt(f, keys).hasLocal <==> exists k :: k in keys && k in f && IsLocation(f[k]) && OwnerOf(f[k]).None?
  {
    if keys != [] {
      var front, last := keys[..|keys| - 1], keys[|keys| - 1];
      HereAtMeans(f, front);
      assert keys == front + [last];
      assert forall k :: k in keys <==> k in front || k == last;
    }
  }

  /** Walking the key list finds what the object holds. */
  lemma HereAtAll(f: Fields)
    ensures HereAt(f, LOCATION_KEYS) == Here(f)
  {
    HereAtMeans(f, LOCATION_KEYS);
    forall o ensures o in HereAt(f, LOCATION_KEYS).owners <==> o in Here(f).owners
    {
      if o in HereAt(f, LOCATION_KEYS).owners {
        var k :| k in LOCATION_KEYS && k in f && IsLocation(f[k]) && OwnerOf(f[k]) == Some(o);
        assert LocationAt(f, k);
      }
    }
    if HereAt(f, LOCATION_KEYS).hasLocal {
      var k :| k in LOCATION_KEYS && k in f && IsLocation(f[k]) && OwnerOf(f[k]).None?;
      assert LocationAt(f, k);
    }
    assert HereAt(f, LOCATION_KEYS).owners == Here(f).owners;
  }
}
