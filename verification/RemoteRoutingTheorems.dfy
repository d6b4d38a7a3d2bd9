/** Routed payloads carry no owner, chosen owners own every location, and named owners never run locally. */
module RemoteRoutingTheorems {
  import opened Wrappers
  import opened RemotePayload
  import opened RemotePayloadLaws
  import opened RemoteRouting

  /** Writing a key that is neither a location nor the skills keeps a payload clean. */
  lemma WritingKeepsClean(f: Fields, k: string, v: Value)
    requires Clean(Obj(f)) && !IsLocationKey(k) && k != "skills"
    ensures Clean(Obj(f[k := v]))
  {
    var g := f[k := v];
    forall x | x in g && LocationAt(g, x) ensures OWNER !in g[x].fields
    {
      assert LocationAt(f, x);
    }
  }

  lemma ThreadPayloadIsClean(f: Fields, host: Host, owner: Owner)
    ensures Clean(Obj(ThreadPayload(f, host, owner)))
  {
    KeysApart();
    UnprojectedIsClean(Obj(f));
    var out := Unprojected(f);
    if "segments" in f && f["segments"].Arr? {
      WritingKeepsClean(out, "segments", Arr(Mentions(f["segments"].items, host, owner.desktopId)));
      WritingKeepsClean(out["segments" := Arr(Mentions(f["segments"].items, host, owner.desktopId))], "threadId", Str(owner.remoteId));
    } else {
      WritingKeepsClean(out, "threadId", Str(owner.remoteId));
    }
  }

  /** Whatever a routed call's payload held, none of its recognised locations still names an owner on the wire. */
  lemma OutgoingIsClean(strategy: Strategy, payload: Value, host: Option<Host>, terminals: map<string, TerminalOwner>)
    requires !strategy.ByDesktop? && Resolve(strategy, payload, host, terminals).Remote?
    ensures Clean(Obj(Resolve(strategy, payload, host, terminals).route.payload))
  {
    KeysApart();
    var f := payload.fields;
    UnprojectedIsClean(payload);
    match strategy
    case ByThread => ThreadPayloadIsClean(f, host.value, host.value.threads[StringAt(f, "threadId").value]);
    case ByProject =>
      WritingKeepsClean(Unprojected(f), "projectId", Str(host.value.projects[StringAt(f, "projectId").value].remoteId));
    case ByTerminal =>
      forall id: string ensures Clean(Obj(Unprojected(f)["threadId" := Str(id)]))
      {
        WritingKeepsClean(Unprojected(f), "threadId", Str(id));
      }
    case ByLocation(_) =>
      forall id: string ensures Clean(Obj(Unprojected(f)["projectId" := Str(id)]))
      {
        WritingKeepsClean(Unprojected(f), "projectId", Str(id));
      }
    case _ =>
  }

  /** A mention on the wire is one the host resolves: its own id for a thread it owns, or the host's part of a projected id. */
  predicate Resolves(before: Value, after: Value, host: Host, desktopId: string) {
    before.Obj? && StringAt(before.fields, "threadId").Some? && after.Obj? && StringAt(after.fields, "threadId").Some?
    && var id, out := StringAt(before.fields, "threadId").value, StringAt(after.fields, "threadId").value;
    (id in host.threads && host.threads[id] == Owner(desktopId, out)) || UnprojectThreadId(desktopId, id) == Some(out)
  }

  predicate IsMention(segment: Value) {
    segment.Obj? && StringAt(segment.fields, "kind") == Some("thread") && StringAt(segment.fields, "threadId").Some?
  }

  lemma MentionResolves(segment: Value, host: Host, desktopId: string)
    ensures IsMention(Mention(segment, host, desktopId)) ==> Resolves(segment, Mention(segment, host, desktopId), host, desktopId)
    ensures !IsMention(segment) ==> Mention(segment, host, desktopId) == segment
  {
    assert "kind" != "threadId" && "text" != "thread";
  }

  /** No mention of a thread the host cannot resolve leaves: segment by segment, it is the host's own id or plain text. */
  lemma {:induction false} MentionsResolve(segments: seq<Value>, host: Host, desktopId: string)
    ensures |Mentions(segments, host, desktopId)| == |segments|
    ensures forall i :: 0 <= i < |segments| && IsMention(Mentions(segments, host, desktopId)[i]) ==>
              Resolves(segments[i], Mentions(segments, host, desktopId)[i], host, desktopId)
    ensures forall i :: 0 <= i < |segments| && !IsMention(segments[i]) ==> Mentions(segments, host, desktopId)[i] == segments[i]
  {
    if segments != [] {
      MentionResolves(segments[0], host, desktopId);
      MentionsResolve(segments[1..], host, desktopId);
    }
  }

  /** The host's part of an id is what it was projected from, and an id of any other form has none. */
  lemma UnprojectUndoesProjection(server: string, projected: string, id: string)
    ensures UnprojectThreadId(server, projected) == Some(id) <==> id != "" && projected == REMOTE + server + THREAD + id
  {
    var prefix := REMOTE + server + THREAD;
    assert (prefix + id)[|prefix|..] == id;
    if StartsWith(projected, prefix) {
      assert projected == prefix + projected[|prefix|..];
    }
  }

  /** A routed thread or project call names the owner's own id, and every field that is no location passes through. */
  lemma RoutedFieldsPassThrough(strategy: Strategy, f: Fields, host: Option<Host>, terminals: map<string, TerminalOwner>, k: string)
    requires (strategy.ByThread? || strategy.ByProject?) && Resolve(strategy, Obj(f), host, terminals).Remote?
    ensures
      var route := Resolve(strategy, Obj(f), host, terminals).route;
      var subject := if strategy.ByThread? then "threadId" else "projectId";
      var id := StringAt(f, subject).value;
      var owner := if strategy.ByThread? then host.value.threads[id] else host.value.projects[id];
      && route.desktopId == Str(owner.desktopId) && subject in route.payload && route.payload[subject] == Str(owner.remoteId)
      && (k in f && k != subject && k != "segments" && k != "skills" && !IsLocationKey(k) ==>
            k in route.payload && route.payload[k] == f[k])
  {
    KeysApart();
  }

  // --- ownership ------------------------------------------------------------

  /** The single-owner check with an expectation that counts is ownership of every location. */
  lemma CheckMeansOwnership(v: Value, server: Value)
    requires Truthy(server)
    ensures SingleOwner(Analyze(v), Some(server)) <==> OwnedBy(v, server)
  {
    AnalysisMeansOwnership(v, server);
    var owners := Analyze(v).owners;
    if owners <= {server} {
      assert owners == {} || owners == {server};
    } else if |owners| <= 1 {
      var x :| x in owners && x != server;
      assert server in owners ==> |{x, server}| <= |owners| by {
        if server in owners {
          assert {x, server} <= owners;
          SubsetSize({x, server}, owners);
        }
      }
      assert |owners| == 1;
    }
  }

  lemma SubsetSize(a: set<Value>, b: set<Value>)
    requires a <= b
    ensures |a| <= |b|
  {
    assert b == a + (b - a);
  }

  /** A location-routed or skill-routed call goes to a desktop that owns every location of its payload. */
  lemma LocationOwnersOwnEverything(strategy: Strategy, payload: Value, host: Option<Host>, terminals: map<string, TerminalOwner>)
    requires strategy.ByLocation? || strategy.SkillLocations?
    requires Resolve(strategy, payload, host, terminals).Remote?
    ensures OwnedBy(payload, Resolve(strategy, payload, host, terminals).route.desktopId)
  {
    var owners := Analyze(payload).owners;
    if strategy.ByLocation? {
      CheckMeansOwnership(payload, OwnerOf(payload.fields[strategy.key]).value);
    } else {
      OwnersAreTruthy(payload, TheOwner(owners));
      AnalysisMeansOwnership(payload, TheOwner(owners));
    }
  }

  lemma {:induction false} OwnersAreTruthy(v: Value, server: Value)
    requires server in Analyze(v).owners
    ensures Truthy(server)
  {
    if HasSkills(v.fields) && server !in Here(v.fields).owners {
      OwnersAreTruthyAll(v.fields["skills"].items, server);
    }
  }

  lemma {:induction false} OwnersAreTruthyAll(items: seq<Value>, server: Value)
    requires server in AnalyzeAll(items).owners
    ensures Truthy(server)
  {
    if server in Analyze(items[0]).owners {
      OwnersAreTruthy(items[0], server);
    } else {
      OwnersAreTruthyAll(items[1..], server);
    }
  }

  /**
   * A thread-routed or project-routed call goes to the desktop that owns its subject, and
   * that desktop owns every location of the payload exactly when its id is not empty or
   * the payload names no owner.
   */
  lemma SubjectOwnersOwnEverythingExactlyWhen(strategy: Strategy, payload: Value, host: Option<Host>,
                                              terminals: map<string, TerminalOwner>)
    requires strategy.ByThread? || strategy.ByProject?
    requires Resolve(strategy, payload, host, terminals).Remote?
    ensures
      var server := Resolve(strategy, payload, host, terminals).route.desktopId;
      OwnedBy(payload, server) <==> server != Str("") || Analyze(payload).owners == {}
  {
    var server := Resolve(strategy, payload, host, terminals).route.desktopId;
    if server != Str("") {
      CheckMeansOwnership(payload, server);
    } else {
      NobodyOwnsForTheEmptyName(payload);
    }
  }

  /** No recognised location counts as owned by the empty name. */
  lemma {:induction false} NobodyOwnsForTheEmptyName(v: Value)
    requires !Analyze(v).hasLocal
    ensures OwnedBy(v, Str("")) <==> Analyze(v).owners == {}
  {
    if v.Obj? {
      HereMeansOwnership(v.fields, Str(""));
      assert forall o :: o in Here(v.fields).owners ==> Truthy(o);
      if HasSkills(v.fields) {
        NobodyOwnsForTheEmptyNameAll(v.fields["skills"].items);
      }
    }
  }

  lemma {:induction false} NobodyOwnsForTheEmptyNameAll(items: seq<Value>)
    requires !AnalyzeAll(items).hasLocal
    ensures (forall i :: 0 <= i < |items| ==> OwnedBy(items[i], Str(""))) <==> AnalyzeAll(items).owners == {}
  {
    if items != [] {
      NobodyOwnsForTheEmptyName(items[0]);
      NobodyOwnsForTheEmptyNameAll(items[1..]);
      assert forall i :: 0 <= i < |items| ==> items[i] == if i == 0 then items[0] else items[1..][i - 1];
    }
  }

  /**
   * A host that answers with an empty desktop id lets a payload of another desktop through.
   * The projection the desktop registers itself answers with no owner rather than an empty
   * id, so only another implementation of the host can bring this about.
   */
  lemma EmptyDesktopIdIsUnsound()
    ensures
      var f := map["threadId" := Str("t"),
                   "projectLocation" := Obj(map["kind" := Str("posix"), OWNER := Str("elsewhere")])];
      var host := Some(Host(map["t" := Owner("", "t")], map[], None));
      Resolve(ByThread, Obj(f), host, map[]).Remote? && !OwnedBy(Obj(f), Str(""))
  {
    KeysApart();
    var location := Obj(map["kind" := Str("posix"), OWNER := Str("elsewhere")]);
    var f := map["threadId" := Str("t"), "projectLocation" := location];
    assert LOCATION_KEYS[0] == "projectLocation";
    assert LocationAt(f, "projectLocation");
    assert forall k :: k in f && LocationAt(f, k) ==> k == "projectLocation";
    assert !HasSkills(f);
    assert Here(f).owners == {Str("elsewhere")} && !Here(f).hasLocal;
    assert Analyze(Obj(f)) == Analysis({Str("elsewhere")}, false);
  }

  // --- never locally --------------------------------------------------------

  /** The payload names a remote owner: one of its locations does, or its subject's id is a projected one. */
  predicate NamesRemote(strategy: Strategy, f: Fields) {
    || Analyze(Obj(f)).owners != {}
    || (strategy.ByThread? && StringAt(f, "threadId").Some? && IsProjected(StringAt(f, "threadId").value, THREAD))
    || (strategy.ByProject? && StringAt(f, "projectId").Some? && IsProjected(StringAt(f, "projectId").value, PROJECT))
  }

  predicate HasSubject(strategy: Strategy, f: Fields) {
    match strategy
    case ByThread => StringAt(f, "threadId").Some?
    case ByProject => StringAt(f, "projectId").Some?
    case ByLocation(_) => true
    case SkillLocations => HasSkills(f)
    case _ => false
  }

  /** The host knows the call's subject as a thread or project of some desktop. */
  predicate Knows(host: Option<Host>, strategy: Strategy, f: Fields) {
    host.Some?
    && ((strategy.ByThread? && StringAt(f, "threadId").Some? && StringAt(f, "threadId").value in host.value.threads)
        || (strategy.ByProject? && StringAt(f, "projectId").Some? && StringAt(f, "projectId").value in host.value.projects))
  }

  /**
   * A call that has a subject runs locally exactly when its payload names no remote owner and
   * the host does not know the subject; otherwise it is routed or refused.
   */
  lemma NamedOwnersNeverRunLocally(strategy: Strategy, f: Fields, host: Option<Host>, terminals: map<string, TerminalOwner>,
                                   registration: Option<Registration>)
    requires HasSubject(strategy, f)
    ensures Resolve(strategy, Obj(f), host, terminals).Local? <==> !NamesRemote(strategy, f) && !Knows(host, strategy, f)
    ensures Serve(Resolve(strategy, Obj(f), host, terminals), host, registration).RunsLocally?
       <==> !NamesRemote(strategy, f) && !Knows(host, strategy, f)
  {
    hide IsProjected, ThreadPayload, Unprojected, Analyze, SingleOwner, SkillsBelong;
    if strategy.ByLocation? && LocationAt(f, strategy.key) {
      OwnersAreFound(f, strategy.key);
    }
  }

  // --- the managed leg ------------------------------------------------------

  /** A terminal the managed leg started is served by the live registration of that identity, or not at all. */
  lemma ManagedTerminalsStayManaged(payload: Value, host: Option<Host>, terminals: map<string, TerminalOwner>,
                                    registration: Option<Registration>)
    requires Resolve(ByTerminal, payload, host, terminals).Remote? && Resolve(ByTerminal, payload, host, terminals).route.managed
    ensures
      var r := Resolve(ByTerminal, payload, host, terminals).route;
      Serve(Remote(r), host, registration)
      == if registration.Some? && registration.value.current && Str(registration.value.desktopId) == r.desktopId
         then ServedBy(true, r) else Fails
  {
  }

  lemma OwnersAreFound(f: Fields, key: string)
    requires LocationAt(f, key)
    ensures OwnerOf(f[key]).Some? ==> OwnerOf(f[key]).value in Analyze(Obj(f)).owners
  {
    assert OwnerOf(f[key]).Some? ==> OwnerOf(f[key]).value in Here(f).owners;
  }

  /**
   * The managed leg's own calls: a payload with local locations only, stamped, is routed
   * to the stamping server with the payload it would have had locally, project id aside.
   */
  lemma StampedLocalIsRoutedUnchanged(key: string, f: Fields, server: string, host: Option<Host>,
                                      terminals: map<string, TerminalOwner>)
    requires server != "" && LocationAt(f, key) && Analyze(Obj(f)).owners == {} && Clean(Obj(f))
    ensures
      var d := Resolve(ByLocation(key), Stamp(Obj(f), server), host, terminals);
      && d.Remote? && d.route.desktopId == Str(server)
      && (d.route.payload == f
          || (d.route.projectedProjectId.Some? && host.Some? && d.route.projectedProjectId.value in host.value.projects
              && d.route.payload == f["projectId" := Str(host.value.projects[d.route.projectedProjectId.value].remoteId)]))
  {
    var g := Stamp(Obj(f), server).fields;
    StampedLocalPasses(Obj(f), server);
    UnprojectUndoesStamp(Obj(f), server);
    UnchangedExactlyWhenClean(Obj(f));
    LocationsStay(f, g, key, server);
    OwnersAreFound(f, key);
    KeysApart();
    assert key != "skills";
    assert OwnerOf(g[key]) == Some(Str(server));
  }

  /** Stamping leaves every field alone that is neither a location nor the skills. */
  lemma StampPassesThrough(f: Fields, server: string, k: string)
    requires !IsLocationKey(k) && k != "skills"
    ensures k in Stamp(Obj(f), server).fields <==> k in f
    ensures k in f ==> Stamp(Obj(f), server).fields[k] == f[k]
  {
  }

  /** The same for calls routed by their thread: local locations stamped, the call goes out as if it had none. */
  lemma StampedThreadCallIsRoutedUnchanged(f: Fields, server: string, host: Host, terminals: map<string, TerminalOwner>)
    requires server != "" && Analyze(Obj(f)).owners == {} && Clean(Obj(f))
    requires StringAt(f, "threadId").Some? && StringAt(f, "threadId").value in host.threads
    requires host.threads[StringAt(f, "threadId").value].desktopId == server
    ensures Resolve(ByThread, Stamp(Obj(f), server), Some(host), terminals)
         == Remote(Route(Str(server), ThreadPayload(f, host, host.threads[StringAt(f, "threadId").value]), None, false))
  {
    KeysApart();
    StampedLocalPasses(Obj(f), server);
    UnprojectUndoesStamp(Obj(f), server);
    StampPassesThrough(f, server, "threadId");
    StampPassesThrough(f, server, "segments");
  }

  /** And by their project: the payload is the local one, project id aside. */
  lemma StampedProjectCallIsRoutedUnchanged(f: Fields, server: string, host: Host, terminals: map<string, TerminalOwner>)
    requires server != "" && Analyze(Obj(f)).owners == {} && Clean(Obj(f))
    requires StringAt(f, "projectId").Some? && StringAt(f, "projectId").value in host.projects
    requires host.projects[StringAt(f, "projectId").value].desktopId == server
    ensures
      var id := StringAt(f, "projectId");
      Resolve(ByProject, Stamp(Obj(f), server), Some(host), terminals)
      == Remote(Route(Str(server), f["projectId" := Str(host.projects[id.value].remoteId)], id, false))
  {
    KeysApart();
    StampedLocalPasses(Obj(f), server);
    UnprojectUndoesStamp(Obj(f), server);
    UnchangedExactlyWhenClean(Obj(f));
    StampPassesThrough(f, server, "projectId");
  }

  /** Each skill is an object whose two locations are local ones, or omitted where the host's own scope is the server's. */
  predicate LocalSkills(skills: seq<Value>, server: string, globalOwner: Option<string>) {
    forall i :: 0 <= i < |skills| ==>
      && skills[i].Obj?
      && (forall key :: key in {"projectLocation", "sourceProjectLocation"} ==>
            if key in skills[i].fields then IsLocation(skills[i].fields[key]) else globalOwner == Some(server))
  }

  lemma {:induction false} NoOwnersBelow(items: seq<Value>, i: nat)
    requires i < |items| && AnalyzeAll(items).owners == {}
    ensures Analyze(items[i]).owners == {}
  {
    if i > 0 {
      NoOwnersBelow(items[1..], i - 1);
    }
  }

  lemma StampedSkillBelongs(skill: Fields, key: string, server: string, globalOwner: Option<string>)
    requires server != "" && Analyze(Obj(skill)).owners == {} && IsLocationKey(key)
    requires if key in skill then IsLocation(skill[key]) else globalOwner == Some(server)
    ensures SkillLocationOf(Stamp(Obj(skill), server).fields, key, Str(server), globalOwner)
  {
    KeysApart();
    if key in skill {
      OwnersAreFound(skill, key);
      LocationsStay(skill, Stamp(Obj(skill), server).fields, key, server);
    }
  }

  lemma SkillKeysAreLocations()
    ensures IsLocationKey("projectLocation") && IsLocationKey("sourceProjectLocation")
  {
    assert LOCATION_KEYS[0] == "projectLocation" && LOCATION_KEYS[2] == "sourceProjectLocation";
  }

  lemma StampedSkillsBelong(skills: seq<Value>, server: string, globalOwner: Option<string>)
    requires server != "" && AnalyzeAll(skills).owners == {} && LocalSkills(skills, server, globalOwner)
    ensures SkillsBelong(StampAll(skills, server), Str(server), globalOwner)
  {
    hide SkillLocationOf, IsLocationKey, StampAll, Analyze;
    SkillKeysAreLocations();
    AllItems(skills, server);
    forall i | 0 <= i < |skills|
      ensures StampAll(skills, server)[i].Obj?
      ensures SkillLocationOf(StampAll(skills, server)[i].fields, "projectLocation", Str(server), globalOwner)
      ensures SkillLocationOf(StampAll(skills, server)[i].fields, "sourceProjectLocation", Str(server), globalOwner)
    {
      NoOwnersBelow(skills, i);
      assert "projectLocation" in {"projectLocation", "sourceProjectLocation"};
      assert "sourceProjectLocation" in {"projectLocation", "sourceProjectLocation"};
      StampedSkillBelongs(skills[i].fields, "projectLocation", server, globalOwner);
      StampedSkillBelongs(skills[i].fields, "sourceProjectLocation", server, globalOwner);
    }
  }

  /** And by their skills: with a local location among them, the call goes to the stamping server as it is. */
  lemma StampedSkillCallIsRoutedUnchanged(f: Fields, server: string, host: Option<Host>, terminals: map<string, TerminalOwner>)
    requires server != "" && Analyze(Obj(f)).owners == {} && Analyze(Obj(f)).hasLocal && Clean(Obj(f)) && HasSkills(f)
    requires LocalSkills(f["skills"].items, server, if host.Some? then host.value.desktop else None)
    ensures Resolve(SkillLocations, Stamp(Obj(f), server), host, terminals) == Remote(Route(Str(server), f, None, false))
  {
    KeysApart();
    StampedAnalysis(Obj(f), server);
    assert AnalyzeAll(f["skills"].items).owners == {};
    StampedSkillsBelong(f["skills"].items, server, if host.Some? then host.value.desktop else None);
    UnprojectUndoesStamp(Obj(f), server);
    UnchangedExactlyWhenClean(Obj(f));
    var owners := Analyze(Stamp(Obj(f), server)).owners;
    assert owners == {Str(server)} && Str(server) in owners;
    assert TheOwner(owners) == Str(server);
  }
}
