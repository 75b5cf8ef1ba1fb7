/** The CloudFormation template proof: only the bucket's versioning configuration changes. */
module Templates {
  import opened Common
  import opened Json

  const RESOURCES := "Resources"
  const PROPERTIES := "Properties"
  const VERSIONING := "VersioningConfiguration"
  const TYPE := "Type"
  const STATUS := "Status"
  const BUCKET := Text("AWS::S3::Bucket")
  const ENABLED := Object(map[STATUS := Text("Enabled")])
  const SUSPENDED := Object(map[STATUS := Text("Suspended")])

  datatype TemplateError =
    | NoResources | NotBucket | NoProperties | PriorNotSuspended | NotEnabled | BaselineDiffers | OutOfScope

  /** `document.get(key)`, where an absent key reads as null. */
  function At(j: Json, key: string): Json {
    if j.Object? && key in j.fields then j.fields[key] else Null
  }

  /** Reading along a path of keys. */
  function Read(j: Json, path: seq<string>): Option<Json> {
    if path == [] then Some(j)
    else if j.Object? && path[0] in j.fields then Read(j.fields[path[0]], path[1..])
    else None
  }

  /** The document with the value at a path of existing objects set, or removed. */
  function Write(j: Json, path: seq<string>, value: Option<Json>): Json
    requires path != []
  {
    if !j.Object? then j
    else if |path| == 1 then
      (match value
       case Some(v) => Object(j.fields[path[0] := v])
       case None => Object(j.fields - {path[0]}))
    else if path[0] !in j.fields then j
    else Object(j.fields[path[0] := Write(j.fields[path[0]], path[1..], value)])
  }

  function Target(id: string): seq<string> { [RESOURCES, id, PROPERTIES, VERSIONING] }

  function ShapeError(template: Json, id: string): Option<TemplateError> {
    var resource := At(At(template, RESOURCES), id);
    if !At(template, RESOURCES).Object? then Some(NoResources)
    else if !resource.Object? || At(resource, TYPE) != BUCKET then Some(NotBucket)
    else if !At(resource, PROPERTIES).Object? then Some(NoProperties)
    else None
  }

  function Versioning(template: Json, id: string): Json {
    At(At(At(At(template, RESOURCES), id), PROPERTIES), VERSIONING)
  }

  /** `verify_s3_versioning_template_change`: the forward and the rollback template. */
  function VerifyChange(deployed: Json, proposed: Json, synthesized: Option<Json>, id: string)
    : Result<(Json, Json), TemplateError>
  {
    var baseline := if synthesized.None? || synthesized.value == Object(map[]) then deployed else synthesized.value;
    if ShapeError(deployed, id).Some? then Err(ShapeError(deployed, id).value)
    else if ShapeError(baseline, id).Some? then Err(ShapeError(baseline, id).value)
    else if ShapeError(proposed, id).Some? then Err(ShapeError(proposed, id).value)
    else
      var prior, synthesizedVersioning := Versioning(deployed, id), Versioning(baseline, id);
      if !prior.Null? && (!prior.Object? || At(prior, STATUS) != Text("Suspended")) then Err(PriorNotSuspended)
      else if !Same(Versioning(proposed, id), ENABLED) then Err(NotEnabled)
      else if !synthesizedVersioning.Null? && !Same(synthesizedVersioning, prior) then Err(BaselineDiffers)
      else
        var comparison := Write(proposed, Target(id),
                                if synthesizedVersioning.Null? then None else Some(synthesizedVersioning));
        if comparison != baseline then Err(OutOfScope)
        else
          var forward := Write(deployed, Target(id), Some(ENABLED));
          Ok((forward, Write(forward, Target(id), Some(SUSPENDED))))
  }

  // ----- What writing one path leaves alone -----

  predicate Prefix(p: seq<string>, q: seq<string>) { |p| <= |q| && q[..|p|] == p }

  lemma PrefixTail(p: seq<string>, q: seq<string>)
    requires p != [] && q != []
    ensures Prefix(p, q) <==> p[0] == q[0] && Prefix(p[1..], q[1..])
  {
    if |p| <= |q| && p[0] == q[0] && q[1..][..|p| - 1] == p[1..] {
      assert q[..|p|] == [p[0]] + p[1..] == p;
    }
    if Prefix(p, q) { assert q[1..][..|p| - 1] == q[..|p|][1..]; }
  }

  /** Paths that neither pass through the written one nor lead to it read as before. */
  lemma {:induction false} WriteElsewhere(j: Json, path: seq<string>, value: Option<Json>, other: seq<string>)
    requires path != [] && !Prefix(path, other) && !Prefix(other, path)
    ensures Read(Write(j, path, value), other) == Read(j, other)
    decreases |path|
  {
    if j.Object? {
      PrefixTail(path, other);
      PrefixTail(other, path);
      if |path| > 1 && path[0] in j.fields && other[0] == path[0] {
        WriteElsewhere(j.fields[path[0]], path[1..], value, other[1..]);
      }
    }
  }

  predicate Reaches(j: Json, path: seq<string>)
    requires path != []
  {
    && j.Object?
    && (|path| > 1 ==> path[0] in j.fields && Reaches(j.fields[path[0]], path[1..]))
  }

  lemma {:induction false} WriteReads(j: Json, path: seq<string>, value: Option<Json>)
    requires path != [] && Reaches(j, path)
    ensures Read(Write(j, path, value), path) == value
    ensures Reaches(Write(j, path, value), path)
    decreases |path|
  {
    if |path| > 1 { WriteReads(j.fields[path[0]], path[1..], value); }
    else { assert path[1..] == []; }
  }

  /** A later write at the same path replaces an earlier one. */
  lemma {:induction false} WriteTwice(j: Json, path: seq<string>, one: Option<Json>, two: Option<Json>)
    requires path != []
    ensures Write(Write(j, path, one), path, two) == Write(j, path, two)
    decreases |path|
  {
    if j.Object? && |path| > 1 && path[0] in j.fields { WriteTwice(j.fields[path[0]], path[1..], one, two); }
  }

  /** Writing back what is there changes nothing; writing something else does. */
  lemma {:induction false} WriteBack(j: Json, path: seq<string>, value: Option<Json>)
    requires path != [] && Reaches(j, path)
    ensures Write(j, path, value) == j <==> Read(j, path) == value
    decreases |path|
  {
    WriteReads(j, path, value);
    if |path| == 1 {
      assert path[1..] == [];
      var key := path[0];
      assert key in j.fields ==> Read(j, path) == Read(j.fields[key], path[1..]) == Some(j.fields[key]);
      if Read(j, path) == value {
        match value
        case Some(v) => assert j.fields[key := v] == j.fields;
        case None => assert j.fields - {key} == j.fields;
      }
    } else {
      WriteBack(j.fields[path[0]], path[1..], value);
      if Read(j, path) == value {
        assert j.fields[path[0] := j.fields[path[0]]] == j.fields;
      }
    }
  }

  lemma ShapeReaches(template: Json, id: string)
    requires ShapeError(template, id).None?
    ensures Reaches(template, Target(id))
    ensures match Read(template, Target(id))
            case None => Versioning(template, id).Null?
            case Some(v) => Versioning(template, id) == v
  {
    var t := Target(id);
    var one, two, three := At(template, RESOURCES), At(At(template, RESOURCES), id), At(At(At(template, RESOURCES), id), PROPERTIES);
    assert t[1..] == [id, PROPERTIES, VERSIONING] && t[1..][1..] == [PROPERTIES, VERSIONING] && t[1..][1..][1..] == [VERSIONING];
    assert [VERSIONING][1..] == [];
    assert Reaches(three, [VERSIONING]) && Reaches(two, [PROPERTIES, VERSIONING]) && Reaches(one, t[1..]);
    assert Read(template, t) == Read(one, t[1..]) == Read(two, t[1..][1..]) == Read(three, [VERSIONING]);
    if VERSIONING in three.fields { assert Read(three.fields[VERSIONING], []) == Some(three.fields[VERSIONING]); }
  }

  /**
   * When the proof succeeds: forward and rollback are the deployed template at every path outside
   * the versioning configuration, where they enable and suspend it; and the proposed template is
   * the synthesized baseline there.
   */
  lemma ScopeHolds(deployed: Json, proposed: Json, synthesized: Option<Json>, id: string, other: seq<string>)
    requires VerifyChange(deployed, proposed, synthesized, id).Ok?
    requires !Prefix(Target(id), other) && !Prefix(other, Target(id))
    ensures var (forward, rollback) := VerifyChange(deployed, proposed, synthesized, id).value;
            var baseline := if synthesized.None? || synthesized.value == Object(map[]) then deployed else synthesized.value;
            && Read(forward, other) == Read(deployed, other)
            && Read(rollback, other) == Read(deployed, other)
            && Read(proposed, other) == Read(baseline, other)
            && Read(forward, Target(id)) == Some(ENABLED)
            && Read(rollback, Target(id)) == Some(SUSPENDED)
  {
    var (forward, rollback) := VerifyChange(deployed, proposed, synthesized, id).value;
    ShapeReaches(deployed, id);
    WriteElsewhere(deployed, Target(id), Some(ENABLED), other);
    WriteElsewhere(forward, Target(id), Some(SUSPENDED), other);
    WriteReads(deployed, Target(id), Some(ENABLED));
    WriteReads(forward, Target(id), Some(SUSPENDED));
    var baseline := if synthesized.None? || synthesized.value == Object(map[]) then deployed else synthesized.value;
    var erased := if Versioning(baseline, id).Null? then None else Some(Versioning(baseline, id));
    WriteElsewhere(proposed, Target(id), erased, other);
  }

  /** The one path that is written, and the two values written there. */
  lemma WrittenPath(id: string)
    ensures Target(id) == ["Resources", id, "Properties", "VersioningConfiguration"]
    ensures ENABLED == Object(map["Status" := Text("Enabled")]) && SUSPENDED == Object(map["Status" := Text("Suspended")])
  {
  }

  lemma SameAsEnabled(j: Json)
    ensures Same(j, ENABLED) <==> j == ENABLED
  {
    if Same(j, ENABLED) {
      assert j.fields.Keys == {STATUS} && Same(j.fields[STATUS], Text("Enabled"));
      assert j.fields == map[STATUS := Text("Enabled")];
    }
  }

  /** Absent, null, or suspended, perhaps with more keys. */
  predicate Suspendable(versioning: Option<Json>) {
    || versioning.None? || versioning.value == Null
    || (versioning.value.Object? && "Status" in versioning.value.fields
        && versioning.value.fields["Status"] == Text("Suspended"))
  }

  /** The template declares the bucket under that id, with properties. */
  lemma ShapeIff(template: Json, id: string)
    ensures var kind, properties := Read(template, ["Resources", id, "Type"]), Read(template, ["Resources", id, "Properties"]);
            ShapeError(template, id).None? <==>
              kind == Some(Text("AWS::S3::Bucket")) && properties.Some? && properties.value.Object?
  {
    var resources := At(template, RESOURCES);
    var resource := At(resources, id);
    ReadThree(template, RESOURCES, id, TYPE);
    ReadThree(template, RESOURCES, id, PROPERTIES);
  }

  lemma ReadThree(j: Json, a: string, b: string, c: string)
    ensures var inner := At(At(j, a), b);
            Read(j, [a, b, c]) == if inner.Object? && c in inner.fields then Some(inner.fields[c]) else None
  {
    assert [a, b, c] == [a] + [b, c] && [b, c] == [b] + [c] && [c] == [c] + [];
    ReadStep(j, a, [b, c]);
    ReadStep(At(j, a), b, [c]);
    ReadStep(At(At(j, a), b), c, []);
    hide Read;
  }

  lemma ReadStep(j: Json, key: string, rest: seq<string>)
    ensures Read(j, [key] + rest) == if j.Object? && key in j.fields then Read(j.fields[key], rest) else None
    ensures rest == [] ==> Read(j, [key] + rest) == if j.Object? && key in j.fields then Some(j.fields[key]) else None
  {
    assert ([key] + rest)[1..] == rest;
  }

  /** The proof succeeds exactly when the three templates have the bucket, versioning was off, the proposal enables it and
      sets nothing else there, and the proposal with the baseline's versioning in place is the baseline. */
  lemma AcceptedIff(deployed: Json, proposed: Json, synthesized: Option<Json>, id: string)
    ensures var t := ["Resources", id, "Properties", "VersioningConfiguration"];
            var baseline := if synthesized.None? || synthesized.value == Object(map[]) then deployed else synthesized.value;
            var was, expected := Read(deployed, t), Read(baseline, t);
            var kept := if expected == Some(Null) then None else expected;
            VerifyChange(deployed, proposed, synthesized, id).Ok? <==>
              && ShapeError(deployed, id).None? && ShapeError(baseline, id).None? && ShapeError(proposed, id).None?
              && Suspendable(was)
              && Read(proposed, t) == Some(Object(map["Status" := Text("Enabled")]))
              && (kept.Some? ==> was.Some? && Same(kept.value, was.value))
              && Write(proposed, t, kept) == baseline
  {
    WrittenPath(id);
    hide Target, Write, Same;
    var baseline := if synthesized.None? || synthesized.value == Object(map[]) then deployed else synthesized.value;
    if ShapeError(deployed, id).None? && ShapeError(baseline, id).None? && ShapeError(proposed, id).None? {
      ShapeReaches(deployed, id);
      ShapeReaches(baseline, id);
      ShapeReaches(proposed, id);
      SameAsEnabled(Versioning(proposed, id));
      if Read(deployed, Target(id)).None? { OnlyNullIsNull(Versioning(baseline, id)); }
      hide ShapeError, Read, Versioning;
    }
  }

  lemma OnlyNullIsNull(j: Json)
    ensures Same(j, Null) <==> j == Null
  {
  }

  /** The link's choice of `rollback_mode` from the deployed configuration. */
  predicate ExactMode(deployed: Json, id: string) { Versioning(deployed, id).Object? }

  /** The rollback template is the deployed one exactly when nothing but a suspended status was set. */
  lemma RollbackIsDeployedIff(deployed: Json, proposed: Json, synthesized: Option<Json>, id: string)
    requires VerifyChange(deployed, proposed, synthesized, id).Ok?
    ensures VerifyChange(deployed, proposed, synthesized, id).value.1 == deployed <==> Versioning(deployed, id) == SUSPENDED
    ensures VerifyChange(deployed, proposed, synthesized, id).value.1 == deployed ==> ExactMode(deployed, id)
  {
    WriteTwice(deployed, Target(id), Some(ENABLED), Some(SUSPENDED));
    ShapeReaches(deployed, id);
    WriteBack(deployed, Target(id), Some(SUSPENDED));
  }

  /** The mode named "exact" restores exactly if and only if the status was the only key. */
  lemma ExactModeIff(deployed: Json, proposed: Json, synthesized: Option<Json>, id: string)
    requires VerifyChange(deployed, proposed, synthesized, id).Ok? && ExactMode(deployed, id)
    ensures VerifyChange(deployed, proposed, synthesized, id).value.1 == deployed <==>
            Versioning(deployed, id).fields.Keys == {STATUS}
  {
    RollbackIsDeployedIff(deployed, proposed, synthesized, id);
    var prior := Versioning(deployed, id);
    if prior.fields.Keys == {STATUS} {
      assert prior.fields == map[STATUS := Text("Suspended")];
    }
  }

  /** A deployed configuration with one more key: the mode is "exact", the rollback is not. */
  lemma ExactModeCounterexample()
    ensures exists deployed, proposed, id ::
              && VerifyChange(deployed, proposed, None, id).Ok?
              && ExactMode(deployed, id)
              && VerifyChange(deployed, proposed, None, id).value.1 != deployed
  {
    var prior := Object(map[STATUS := Text("Suspended"), TYPE := Null]);
    var deployed := Sample(prior);
    var proposed := Sample(ENABLED);
    SampleShape(prior);
    SampleShape(ENABLED);
    SampleWrite(ENABLED, prior);
    SameReflexive(ENABLED);
    SameReflexive(prior);
    assert VerifyChange(deployed, proposed, None, "B").Ok?;
    RollbackIsDeployedIff(deployed, proposed, None, "B");
    assert TYPE in prior.fields && TYPE !in SUSPENDED.fields;
  }

  function Bucket(versioning: Json): Json {
    Object(map[TYPE := BUCKET, PROPERTIES := Object(map[VERSIONING := versioning])])
  }

  function Sample(versioning: Json): Json {
    Object(map[RESOURCES := Object(map["B" := Bucket(versioning)])])
  }

  lemma SampleShape(versioning: Json)
    ensures ShapeError(Sample(versioning), "B").None? && Versioning(Sample(versioning), "B") == versioning
  {
    assert TYPE != PROPERTIES;
  }

  /** Writing below a key rewrites the value of that key. */
  lemma WriteBelow(fields: map<string, Json>, key: string, rest: seq<string>, value: Option<Json>)
    requires key in fields && rest != []
    ensures Write(Object(fields), [key] + rest, value) == Object(fields[key := Write(fields[key], rest, value)])
  {
    assert ([key] + rest)[1..] == rest;
  }

  lemma BucketWrite(one: Json, two: Json)
    ensures Write(Bucket(one), [PROPERTIES] + [VERSIONING], Some(two)) == Bucket(two)
  {
    var fields := map[TYPE := BUCKET, PROPERTIES := Object(map[VERSIONING := one])];
    assert TYPE != PROPERTIES;
    WriteBelow(fields, PROPERTIES, [VERSIONING], Some(two));
    assert map[VERSIONING := one][VERSIONING := two] == map[VERSIONING := two];
    assert fields[PROPERTIES := Object(map[VERSIONING := two])]
           == map[TYPE := BUCKET, PROPERTIES := Object(map[VERSIONING := two])];
  }

  /** Writing below the only key of an object. */
  lemma OnlyKeyWrite(key: string, one: Json, two: Json, rest: seq<string>, value: Option<Json>)
    requires rest != [] && Write(one, rest, value) == two
    ensures Write(Object(map[key := one]), [key] + rest, value) == Object(map[key := two])
  {
    WriteBelow(map[key := one], key, rest, value);
    assert map[key := one][key := two] == map[key := two];
  }

  lemma SampleWrite(one: Json, two: Json)
    ensures Write(Sample(one), Target("B"), Some(two)) == Sample(two)
  {
    hide Write, Bucket;
    BucketWrite(one, two);
    OnlyKeyWrite("B", Bucket(one), Bucket(two), [PROPERTIES] + [VERSIONING], Some(two));
    OnlyKeyWrite(RESOURCES, Object(map["B" := Bucket(one)]), Object(map["B" := Bucket(two)]),
                 ["B"] + ([PROPERTIES] + [VERSIONING]), Some(two));
    assert Target("B") == [RESOURCES] + (["B"] + ([PROPERTIES] + [VERSIONING]));
  }
}
