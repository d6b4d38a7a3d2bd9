/** Stamping and unprojecting undo each other, and the ownership analysis lines up with both at every depth. */
module RemotePayloadLaws {
  import opened Wrappers
  import opened RemotePayload

  // --- single locations -----------------------------------------------------

  lemma LocationStays(v: Value, server: string)
    requires IsLocation(v)
    ensures IsLocation(StampLocation(v, server)) && IsLocation(UnprojectLocation(v))
    ensures UnprojectLocation(StampLocation(v, server)) == UnprojectLocation(v)
    ensures UnprojectLocation(UnprojectLocation(v)) == UnprojectLocation(v)
    ensures StampLocation(StampLocation(v, server), server) == StampLocation(v, server)
  {
    KeysApart();
    assert UnprojectLocation(StampLocation(v, server)).fields == UnprojectLocation(v).fields;
    assert UnprojectLocation(UnprojectLocation(v)).fields == UnprojectLocation(v).fields;
    assert StampLocation(StampLocation(v, server), server).fields == StampLocation(v, server).fields;
  }

  lemma LocationsStay(f: Fields, g: Fields, k: string, server: string)
    requires Obj(g) == Stamp(Obj(f), server) || Obj(g) == Unproject(Obj(f))
    ensures LocationAt(g, k) <==> LocationAt(f, k)
  {
    KeysApart();
    if LocationAt(f, k) {
      LocationStays(f[k], server);
    }
  }

  // --- the two transforms ---------------------------------------------------

  /** Stripping owners after stamping them is stripping them. */
  lemma {:induction false} UnprojectUndoesStamp(v: Value, server: string)
    ensures Unproject(Stamp(v, server)) == Unproject(v)
  {
    if v.Obj? {
      KeysApart();
      var g := Stamp(v, server).fields;
      if HasSkills(v.fields) {
        UnprojectUndoesStampAll(v.fields["skills"].items, server);
      }
      forall k | k in g ensures Unproject(Obj(g)).fields[k] == Unproject(v).fields[k]
      {
        LocationsStay(v.fields, g, k, server);
        if LocationAt(v.fields, k) {
          LocationStays(v.fields[k], server);
        }
      }
      assert Unproject(Obj(g)).fields == Unproject(v).fields;
    }
  }

  lemma {:induction false} UnprojectUndoesStampAll(items: seq<Value>, server: string)
    ensures UnprojectAll(StampAll(items, server)) == UnprojectAll(items)
  {
    if items != [] {
      UnprojectUndoesStamp(items[0], server);
      UnprojectUndoesStampAll(items[1..], server);
      assert StampAll(items, server)[1..] == StampAll(items[1..], server);
    }
  }

  lemma {:induction false} UnprojectIsIdempotent(v: Value)
    ensures Unproject(Unproject(v)) == Unproject(v)
  {
    if v.Obj? {
      KeysApart();
      var g := Unproject(v).fields;
      if HasSkills(v.fields) {
        UnprojectAllIsIdempotent(v.fields["skills"].items);
      }
      forall k | k in g ensures Unproject(Obj(g)).fields[k] == g[k]
      {
        LocationsStay(v.fields, g, k, "");
        if LocationAt(v.fields, k) {
          LocationStays(v.fields[k], "");
        }
      }
      assert Unproject(Obj(g)).fields == g;
    }
  }

  lemma {:induction false} UnprojectAllIsIdempotent(items: seq<Value>)
    ensures UnprojectAll(UnprojectAll(items)) == UnprojectAll(items)
  {
    if items != [] {
      UnprojectIsIdempotent(items[0]);
      UnprojectAllIsIdempotent(items[1..]);
      assert UnprojectAll(items)[1..] == UnprojectAll(items[1..]);
    }
  }

  lemma {:induction false} StampIsIdempotent(v: Value, server: string)
    ensures Stamp(Stamp(v, server), server) == Stamp(v, server)
  {
    if v.Obj? {
      KeysApart();
      var g := Stamp(v, server).fields;
      if HasSkills(v.fields) {
        StampAllIsIdempotent(v.fields["skills"].items, server);
      }
      forall k | k in g ensures Stamp(Obj(g), server).fields[k] == g[k]
      {
        LocationsStay(v.fields, g, k, server);
        if LocationAt(v.fields, k) {
          LocationStays(v.fields[k], server);
        }
      }
      assert Stamp(Obj(g), server).fields == g;
    }
  }

  lemma {:induction false} StampAllIsIdempotent(items: seq<Value>, server: string)
    ensures StampAll(StampAll(items, server), server) == StampAll(items, server)
  {
    if items != [] {
      StampIsIdempotent(items[0], server);
      StampAllIsIdempotent(items[1..], server);
      assert StampAll(items, server)[1..] == StampAll(items[1..], server);
    }
  }

  // --- what reaches the wire ------------------------------------------------

  lemma {:induction false} AllItems(items: seq<Value>, server: string)
    ensures |UnprojectAll(items)| == |items| && |StampAll(items, server)| == |items|
    ensures forall i :: 0 <= i < |items| ==> UnprojectAll(items)[i] == Unproject(items[i]) && StampAll(items, server)[i] == Stamp(items[i], server)
  {
    if items != [] {
      AllItems(items[1..], server);
    }
  }

  /** Unprojecting strips the owner of every recognised location at every depth. */
  lemma {:induction false} UnprojectedIsClean(v: Value)
    ensures Clean(Unproject(v))
  {
    if v.Obj? {
      KeysApart();
      var g := Unproject(v).fields;
      forall k | k in g && LocationAt(g, k) ensures OWNER !in g[k].fields
      {
        LocationsStay(v.fields, g, k, "");
      }
      if HasSkills(v.fields) {
        var items := v.fields["skills"].items;
        AllItems(items, "");
        forall i | 0 <= i < |items| ensures Clean(g["skills"].items[i])
        {
          UnprojectedIsClean(items[i]);
        }
      }
    }
  }

  /** Unprojecting changes nothing exactly when no recognised location has an owner field to begin with. */
  lemma {:induction false} UnchangedExactlyWhenClean(v: Value)
    ensures Unproject(v) == v <==> Clean(v)
  {
    if Unproject(v) == v {
      UnprojectedIsClean(v);
    }
    if Clean(v) {
      CleanIsUnchanged(v);
    }
  }

  lemma {:induction false} CleanIsUnchanged(v: Value)
    requires Clean(v)
    ensures Unproject(v) == v
  {
    if v.Obj? {
      KeysApart();
      forall k | k in v.fields ensures Unproject(v).fields[k] == v.fields[k]
      {
        if k == "skills" && HasSkills(v.fields) {
          CleanAreUnchanged(v.fields["skills"].items);
        } else if LocationAt(v.fields, k) {
          assert v.fields[k].fields - {OWNER} == v.fields[k].fields;
        }
      }
      assert Unproject(v).fields == v.fields;
    }
  }

  lemma {:induction false} CleanAreUnchanged(items: seq<Value>)
    requires forall i :: 0 <= i < |items| ==> Clean(items[i])
    ensures UnprojectAll(items) == items
  {
    if items != [] {
      CleanIsUnchanged(items[0]);
      CleanAreUnchanged(items[1..]);
    }
  }

  // --- the analysis ---------------------------------------------------------

  /** The analysis finds one server and nothing local exactly when that server owns every location. */
  lemma {:induction false} AnalysisMeansOwnership(v: Value, server: Value)
    requires Truthy(server)
    ensures OwnedBy(v, server) <==> !Analyze(v).hasLocal && Analyze(v).owners <= {server}
  {
    if v.Obj? {
      HereMeansOwnership(v.fields, server);
      if HasSkills(v.fields) {
        AnalysisMeansOwnershipAll(v.fields["skills"].items, server);
      }
    }
  }

  lemma HereMeansOwnership(f: Fields, server: Value)
    ensures (forall k :: k in f && LocationAt(f, k) ==> OwnerOf(f[k]) == Some(server))
        <==> !Here(f).hasLocal && Here(f).owners <= {server}
  {
    forall k | k in f && LocationAt(f, k) ensures OwnerOf(f[k]).Some? ==> OwnerOf(f[k]).value in Here(f).owners
    {
    }
  }

  lemma {:induction false} AnalysisMeansOwnershipAll(items: seq<Value>, server: Value)
    requires Truthy(server)
    ensures (forall i :: 0 <= i < |items| ==> OwnedBy(items[i], server))
        <==> !AnalyzeAll(items).hasLocal && AnalyzeAll(items).owners <= {server}
  {
    if items != [] {
      AnalysisMeansOwnership(items[0], server);
      AnalysisMeansOwnershipAll(items[1..], server);
      assert forall i :: 0 <= i < |items| ==> items[i] == if i == 0 then items[0] else items[1..][i - 1];
    }
  }

  /** Stamping hands every local location to the server, and no other. */
  lemma {:induction false} StampedAnalysis(v: Value, server: string)
    requires server != ""
    ensures Analyze(Stamp(v, server))
         == Analysis(Analyze(v).owners + (if Analyze(v).hasLocal then {Str(server)} else {}), false)
  {
    if v.Obj? {
      KeysApart();
      StampedHere(v.fields, server);
      if HasSkills(v.fields) {
        StampedAnalysisAll(v.fields["skills"].items, server);
      }
    }
  }

  lemma StampedHere(f: Fields, server: string)
    requires server != ""
    ensures Here(Stamp(Obj(f), server).fields) == Analysis(Here(f).owners + (if Here(f).hasLocal then {Str(server)} else {}), false)
  {
    var g := Stamp(Obj(f), server).fields;
    KeysApart();
    forall k ensures LocationAt(g, k) <==> LocationAt(f, k)
    {
      LocationsStay(f, g, k, server);
    }
    forall k | k in f && LocationAt(f, k) ensures OwnerOf(g[k]) == if OwnerOf(f[k]).Some? then OwnerOf(f[k]) else Some(Str(server))
    {
    }
    assert Here(g).owners == Here(f).owners + (if Here(f).hasLocal then {Str(server)} else {});
  }

  lemma {:induction false} StampedAnalysisAll(items: seq<Value>, server: string)
    requires server != ""
    ensures AnalyzeAll(StampAll(items, server))
         == Analysis(AnalyzeAll(items).owners + (if AnalyzeAll(items).hasLocal then {Str(server)} else {}), false)
  {
    if items != [] {
      StampedAnalysis(items[0], server);
      StampedAnalysisAll(items[1..], server);
      assert StampAll(items, server)[1..] == StampAll(items[1..], server);
    }
  }

  /** A payload with local locations only, once stamped, passes the single-owner check of that server. */
  lemma StampedLocalPasses(v: Value, server: string)
    requires server != "" && Analyze(v).owners == {}
    ensures SingleOwner(Analyze(Stamp(v, server)), Some(Str(server))) && OwnedBy(Stamp(v, server), Str(server))
  {
    StampedAnalysis(v, server);
    AnalysisMeansOwnership(Stamp(v, server), Str(server));
  }
}
