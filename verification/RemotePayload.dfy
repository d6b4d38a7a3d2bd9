/**
 * Payloads as the procedure router sees them: nested objects in which certain keys hold
 * project locations, a location may name the remote server that owns it, and `skills`
 * holds further payloads of the same shape.
 */
module RemotePayload {
  import opened Wrappers

  datatype Value = Null | Bool(b: bool) | Num(n: int) | Str(s: string) | Arr(items: seq<Value>) | Obj(fields: map<string, Value>)

  type Fields = map<string, Value>

  const LOCATION_KEYS := ["projectLocation", "worktreeLocation", "sourceProjectLocation", "newLocation", "location",
                          "parentLocation", "runtime"]

  const OWNER := "remoteServerId"

  predicate IsLocationKey(k: string) {
    k in LOCATION_KEYS
  }

  /** The keys the router itself writes are not location keys. */
  lemma KeysApart()
    ensures !IsLocationKey("skills") && !IsLocationKey("threadId") && !IsLocationKey("projectId") && !IsLocationKey("segments")
    ensures "skills" != "threadId" && "skills" != "projectId" && "skills" != "segments" && "threadId" != "segments"
    ensures OWNER != "kind"
  {
    assert "location"[0] != "threadId"[0] && "location"[0] != "segments"[0] && "threadId"[0] != "segments"[0];
  }

  predicate Truthy(v: Value) {
    match v
    case Null => false
    case Bool(b) => b
    case Num(n) => n != 0
    case Str(s) => s != ""
    case Arr(_) => true
    case Obj(_) => true
  }

  /** A recognised location: an object of one of the three kinds. */
  predicate IsLocation(v: Value) {
    v.Obj? && "kind" in v.fields && v.fields["kind"] in {Str("windows"), Str("wsl"), Str("posix")}
  }

  /** The server a recognised location names, if it names one. */
  function OwnerOf(v: Value): Option<Value>
    requires v.Obj?
  {
    if OWNER in v.fields && Truthy(v.fields[OWNER]) then Some(v.fields[OWNER]) else None
  }

  predicate LocationAt(f: Fields, k: string) {
    IsLocationKey(k) && k in f && IsLocation(f[k])
  }

  predicate HasSkills(f: Fields) {
    "skills" in f && f["skills"].Arr?
  }

  // --- unprojecting and stamping --------------------------------------------

  function UnprojectLocation(v: Value): Value
    requires v.Obj?
  {
    Obj(v.fields - {OWNER})
  }

  function Unproject(v: Value): Value {
    if !v.Obj? then v
    else
      Obj(map k | k in v.fields ::
            if k == "skills" && v.fields[k].Arr? then Arr(UnprojectAll(v.fields[k].items))
            else if LocationAt(v.fields, k) then UnprojectLocation(v.fields[k])
            else v.fields[k])
  }

  function UnprojectAll(items: seq<Value>): seq<Value> {
    if items == [] then [] else [Unproject(items[0])] + UnprojectAll(items[1..])
  }

  function StampLocation(v: Value, server: string): Value
    requires v.Obj?
  {
    if OwnerOf(v).Some? then v else Obj(v.fields[OWNER := Str(server)])
  }

  function Stamp(v: Value, server: string): Value {
    if !v.Obj? then v
    else
      Obj(map k | k in v.fields ::
            if k == "skills" && v.fields[k].Arr? then Arr(StampAll(v.fields[k].items, server))
            else if LocationAt(v.fields, k) then StampLocation(v.fields[k], server)
            else v.fields[k])
  }

  function StampAll(items: seq<Value>, server: string): seq<Value> {
    if items == [] then [] else [Stamp(items[0], server)] + StampAll(items[1..], server)
  }

  // --- ownership analysis ---------------------------------------------------

  datatype Analysis = Analysis(owners: set<Value>, hasLocal: bool)

  function Join(a: Analysis, b: Analysis): Analysis {
    Analysis(a.owners + b.owners, a.hasLocal || b.hasLocal)
  }

  /** The locations of one object, its skills aside. */
  function Here(f: Fields): Analysis {
    Analysis(set k | k in f && LocationAt(f, k) && OwnerOf(f[k]).Some? :: OwnerOf(f[k]).value,
             exists k :: k in f && LocationAt(f, k) && OwnerOf(f[k]).None?)
  }

  function Analyze(v: Value): Analysis {
    if !v.Obj? then Analysis({}, false)
    else if HasSkills(v.fields) then Join(Here(v.fields), AnalyzeAll(v.fields["skills"].items))
    else Here(v.fields)
  }

  function AnalyzeAll(items: seq<Value>): Analysis {
    if items == [] then Analysis({}, false) else Join(Analyze(items[0]), AnalyzeAll(items[1..]))
  }

  /** The single-owner check; an absent or empty expectation accepts any one owner. */
  predicate SingleOwner(a: Analysis, expected: Option<Value>) {
    && !a.hasLocal && |a.owners| <= 1
    && !(expected.Some? && Truthy(expected.value) && |a.owners| == 1 && expected.value !in a.owners)
  }

  // --- what the analysis is for ---------------------------------------------

  /** Every recognised location, at every depth, is the server's. */
  predicate OwnedBy(v: Value, server: Value) {
    v.Obj? ==>
      && (forall k :: k in v.fields && LocationAt(v.fields, k) ==> OwnerOf(v.fields[k]) == Some(server))
      && (HasSkills(v.fields) ==> forall i :: 0 <= i < |v.fields["skills"].items| ==> OwnedBy(v.fields["skills"].items[i], server))
  }

  /** No recognised location, at any depth, has an owner field at all. */
  predicate Clean(v: Value) {
    v.Obj? ==>
      && (forall k :: k in v.fields && LocationAt(v.fields, k) ==> OWNER !in v.fields[k].fields)
      && (HasSkills(v.fields) ==> forall i :: 0 <= i < |v.fields["skills"].items| ==> Clean(v.fields["skills"].items[i]))
  }
}
