/** Public projection of payload trees: allowed fields pass in clear, every other subtree is
    replaced by a digest. */
module Projection {
  import opened Values

  const TOP_LEVEL_SAFE: set<string> :=
    {"step_id", "success", "error", "error_class", "status_code", "action_contract_digest", "output_digests",
     "output_truncated", "output_sizes", "max_output_bytes", "observed_destination_binding", "audience"}

  const OUTPUT_SAFE: set<string> :=
    {"error_class", "status_code", "action_contract_digest", "output_digests", "output_truncated", "output_sizes",
     "max_output_bytes", "observed_destination_binding"}

  const STRUCTURED: set<string> :=
    {"before_state", "after_state", "output_digests", "output_truncated", "output_sizes", "observed_destination_binding"}

  /** The canonical digest of a value; nothing is assumed about it. */
  type Digest = Value -> string

  function ChildPath(path: string, key: string): string {
    if path != "" then path + "." + key else key
  }

  predicate Allowed(path: string, key: string, allow: set<string>, top: bool) {
    || path in allow
    || (top && key in TOP_LEVEL_SAFE)
    || ("output." <= path && key in OUTPUT_SAFE)
  }

  function DigestOnly(v: Value, digest: Digest): Value {
    Dict(map["schema" := Str("rexecop.public_projection.v0.1"), "projection" := Str("digest_only"),
             "digest" := Str("sha256:" + digest(v))])
  }

  function ProjectField(v: Value, key: string, allow: set<string>, path: string, digest: Digest): Value
    decreases v, 2
  {
    if key == "output" && v.Dict? then ProjectOutput(v, allow, digest)
    else if Allowed(ChildPath(path, key), key, allow, path == "") then ProjectValue(v, allow, ChildPath(path, key), digest)
    else DigestOnly(v, digest)
  }

  function ProjectMapping(v: Value, allow: set<string>, path: string, digest: Digest): Value
    requires v.Dict?
    decreases v, 0
  {
    Dict(map k | k in v.fields :: ProjectField(v.fields[k], k, allow, path, digest))
  }

  function ProjectOutputField(v: Value, key: string, allow: set<string>, digest: Digest): Value
    decreases v, 2
  {
    var path := "output." + key;
    if !Allowed(path, key, allow, false) then DigestOnly(v, digest)
    else if key in STRUCTURED then v
    else ProjectValue(v, allow, path, digest)
  }

  function ProjectOutput(v: Value, allow: set<string>, digest: Digest): Value
    requires v.Dict?
    decreases v, 0
  {
    Dict(map k | k in v.fields :: ProjectOutputField(v.fields[k], k, allow, digest))
  }

  function ProjectValue(v: Value, allow: set<string>, path: string, digest: Digest): Value
    decreases v, 1
  {
    match v
    case Dict(_) => ProjectMapping(v, allow, path, digest)
    case List(items) => List(seq(|items|, i requires 0 <= i < |items| => ProjectValue(items[i], allow, path, digest)))
    case _ => v
  }

  function ProjectPayload(v: Value, allow: set<string>, digest: Digest): Value {
    if v.Dict? then ProjectMapping(v, allow, "", digest) else v
  }

  // ---------------------------------------------------------------- filling the projected mapping

  /** The projection as the source builds it, one key at a time into a fresh mapping. */
  method FillMapping(v: Value, allow: set<string>, path: string, digest: Digest) returns (projected: Value)
    requires v.Dict?
    ensures projected == ProjectMapping(v, allow, path, digest)
    decreases v, 0
  {
    var out: Mapping := map[];
    var todo := v.fields.Keys;
    while todo != {}
      invariant todo <= v.fields.Keys && out.Keys == v.fields.Keys - todo
      invariant forall k :: k in out ==> out[k] == ProjectField(v.fields[k], k, allow, path, digest)
      decreases |todo|
    {
      var key :| key in todo;
      todo := todo - {key};
      var value := v.fields[key];
      if key == "output" && value.Dict? {
        var nested := FillOutput(value, allow, digest);
        out := out[key := nested];
        continue;
      }
      if Allowed(ChildPath(path, key), key, allow, path == "") {
        var clear := FillValue(value, allow, ChildPath(path, key), digest);
        out := out[key := clear];
      } else {
        out := out[key := DigestOnly(value, digest)];
      }
    }
    projected := Dict(out);
  }

  method FillOutput(v: Value, allow: set<string>, digest: Digest) returns (projected: Value)
    requires v.Dict?
    ensures projected == ProjectOutput(v, allow, digest)
    decreases v, 0
  {
    var out: Mapping := map[];
    var todo := v.fields.Keys;
    while todo != {}
      invariant todo <= v.fields.Keys && out.Keys == v.fields.Keys - todo
      invariant forall k :: k in out ==> out[k] == ProjectOutputField(v.fields[k], k, allow, digest)
      decreases |todo|
    {
      var key :| key in todo;
      todo := todo - {key};
      var path := "output." + key;
      if Allowed(path, key, allow, false) {
        if key in STRUCTURED {
          out := out[key := v.fields[key]];
        } else {
          var clear := FillValue(v.fields[key], allow, path, digest);
          out := out[key := clear];
        }
      } else {
        out := out[key := DigestOnly(v.fields[key], digest)];
      }
    }
    projected := Dict(out);
  }

  method FillValue(v: Value, allow: set<string>, path: string, digest: Digest) returns (projected: Value)
    ensures projected == ProjectValue(v, allow, path, digest)
    decreases v, 1
  {
    match v {
      case Dict(_) => projected := FillMapping(v, allow, path, digest);
      case List(items) =>
        var out: seq<Value> := [];
        for i := 0 to |items|
          invariant |out| == i
          invariant forall j :: 0 <= j < i ==> out[j] == ProjectValue(items[j], allow, path, digest)
        {
          var item := FillValue(items[i], allow, path, digest);
          out := out + [item];
        }
        projected := List(out);
      case _ => projected := v;
    }
  }

  // ---------------------------------------------------------------- non-interference

  /** Two trees look the same to the public: same keys, same values at allowed paths, same
      digests everywhere else. */
  ghost predicate Agree(a: Value, b: Value, allow: set<string>, path: string, digest: Digest)
    decreases a, 1
  {
    if a.Dict? && b.Dict? then
      a.fields.Keys == b.fields.Keys && forall k :: k in a.fields ==> AgreeField(a.fields[k], b.fields[k], k, allow, path, digest)
    else if a.List? && b.List? then
      |a.items| == |b.items| && forall i :: 0 <= i < |a.items| ==> Agree(a.items[i], b.items[i], allow, path, digest)
    else a == b
  }

  /** The one confusion left: an output mapping spelled like the digest record of a value that
      is no mapping, under an allowlist that discloses the record's three fields. */
  ghost predicate Imitates(a: Value, b: Value, allow: set<string>, path: string, digest: Digest) {
    && !Allowed(ChildPath(path, "output"), "output", allow, path == "")
    && {"output.schema", "output.projection", "output.digest"} <= allow
    && a == DigestOnly(b, digest)
  }

  ghost predicate AgreeField(a: Value, b: Value, key: string, allow: set<string>, path: string, digest: Digest)
    decreases a, 2
  {
    if key == "output" && a.Dict? && b.Dict? then
      a.fields.Keys == b.fields.Keys && forall k :: k in a.fields ==> AgreeOutputField(a.fields[k], b.fields[k], k, allow, digest)
    else if key == "output" && a.Dict? then Imitates(a, b, allow, path, digest)
    else if key == "output" && b.Dict? then Imitates(b, a, allow, path, digest)
    else if Allowed(ChildPath(path, key), key, allow, path == "") then Agree(a, b, allow, ChildPath(path, key), digest)
    else digest(a) == digest(b)
  }

  ghost predicate AgreeOutputField(a: Value, b: Value, key: string, allow: set<string>, digest: Digest)
    decreases a, 2
  {
    var path := "output." + key;
    if !Allowed(path, key, allow, false) then digest(a) == digest(b)
    else if key in STRUCTURED then a == b
    else Agree(a, b, allow, path, digest)
  }

  lemma {:induction false} ProjectionDecides(a: Value, b: Value, allow: set<string>, path: string, digest: Digest)
    ensures Agree(a, b, allow, path, digest) <==> ProjectValue(a, allow, path, digest) == ProjectValue(b, allow, path, digest)
    decreases a, 1, 0
  {
    if a.Dict? && b.Dict? {
      MappingDecides(a, b, allow, path, digest);
    } else if a.List? && b.List? {
      var pa, pb := ProjectValue(a, allow, path, digest).items, ProjectValue(b, allow, path, digest).items;
      forall i | 0 <= i < |a.items| && i < |b.items|
        ensures Agree(a.items[i], b.items[i], allow, path, digest) <==> pa[i] == pb[i]
      {
        ProjectionDecides(a.items[i], b.items[i], allow, path, digest);
      }
      assert pa == pb <==> |pa| == |pb| && forall i :: 0 <= i < |pa| && i < |pb| ==> pa[i] == pb[i];
    }
  }

  lemma {:induction false} MappingDecides(a: Value, b: Value, allow: set<string>, path: string, digest: Digest)
    requires a.Dict? && b.Dict?
    ensures Agree(a, b, allow, path, digest)
       <==> ProjectMapping(a, allow, path, digest) == ProjectMapping(b, allow, path, digest)
    decreases a, 0
  {
    var pa, pb := ProjectMapping(a, allow, path, digest).fields, ProjectMapping(b, allow, path, digest).fields;
    forall k | k in a.fields && k in b.fields
      ensures AgreeField(a.fields[k], b.fields[k], k, allow, path, digest) <==> pa[k] == pb[k]
    {
      FieldDecides(a.fields[k], b.fields[k], k, allow, path, digest);
    }
    assert pa.Keys == a.fields.Keys && pb.Keys == b.fields.Keys;
    assert pa == pb <==> pa.Keys == pb.Keys && forall k :: k in pa && k in pb ==> pa[k] == pb[k];
  }

  lemma {:induction false} FieldDecides(a: Value, b: Value, key: string, allow: set<string>, path: string, digest: Digest)
    ensures AgreeField(a, b, key, allow, path, digest)
       <==> ProjectField(a, key, allow, path, digest) == ProjectField(b, key, allow, path, digest)
    decreases a, 2
  {
    if key == "output" && (a.Dict? || b.Dict?) {
      OutputKeyDecides(a, b, key, allow, path, digest);
    } else {
      OtherKeyDecides(a, b, key, allow, path, digest);
    }
  }

  lemma {:induction false} OtherKeyDecides(a: Value, b: Value, key: string, allow: set<string>, path: string, digest: Digest)
    requires !(key == "output" && (a.Dict? || b.Dict?))
    ensures AgreeField(a, b, key, allow, path, digest)
       <==> ProjectField(a, key, allow, path, digest) == ProjectField(b, key, allow, path, digest)
    decreases a, 1, 1
  {
    if Allowed(ChildPath(path, key), key, allow, path == "") {
      ProjectionDecides(a, b, allow, ChildPath(path, key), digest);
    } else {
      DigestDecides(a, b, digest);
    }
  }

  lemma {:induction false} OutputKeyDecides(a: Value, b: Value, key: string, allow: set<string>, path: string, digest: Digest)
    requires key == "output" && (a.Dict? || b.Dict?)
    ensures AgreeField(a, b, key, allow, path, digest)
       <==> ProjectField(a, key, allow, path, digest) == ProjectField(b, key, allow, path, digest)
    decreases a, 1
  {
    if !b.Dict? {
      ImitationDecides(a, b, allow, path, digest);
    } else if !a.Dict? {
      ImitationDecides(b, a, allow, path, digest);
    } else {
      OutputDecides(a, b, allow, digest);
    }
  }

  lemma {:induction false} OutputDecides(a: Value, b: Value, allow: set<string>, digest: Digest)
    requires a.Dict? && b.Dict?
    ensures (a.fields.Keys == b.fields.Keys
             && forall k :: k in a.fields ==> AgreeOutputField(a.fields[k], b.fields[k], k, allow, digest))
       <==> ProjectOutput(a, allow, digest) == ProjectOutput(b, allow, digest)
    decreases a, 0
  {
    var pa, pb := ProjectOutput(a, allow, digest).fields, ProjectOutput(b, allow, digest).fields;
    forall k | k in a.fields && k in b.fields
      ensures AgreeOutputField(a.fields[k], b.fields[k], k, allow, digest) <==> pa[k] == pb[k]
    {
      OutputFieldDecides(a.fields[k], b.fields[k], k, allow, digest);
    }
    assert pa.Keys == a.fields.Keys && pb.Keys == b.fields.Keys;
    assert pa == pb <==> pa.Keys == pb.Keys && forall k :: k in pa && k in pb ==> pa[k] == pb[k];
  }

  lemma {:induction false} OutputFieldDecides(a: Value, b: Value, key: string, allow: set<string>, digest: Digest)
    ensures AgreeOutputField(a, b, key, allow, digest)
       <==> ProjectOutputField(a, key, allow, digest) == ProjectOutputField(b, key, allow, digest)
    decreases a, 2
  {
    if !Allowed("output." + key, key, allow, false) {
      DigestDecides(a, b, digest);
    } else if key !in STRUCTURED {
      ProjectionDecides(a, b, allow, "output." + key, digest);
    }
  }

  lemma {:induction false} DigestDecides(a: Value, b: Value, digest: Digest)
    ensures DigestOnly(a, digest) == DigestOnly(b, digest) <==> digest(a) == digest(b)
  {
    if DigestOnly(a, digest) == DigestOnly(b, digest) {
      var da, db := "sha256:" + digest(a), "sha256:" + digest(b);
      assert DigestOnly(a, digest).fields["digest"] == Str(da);
      assert DigestOnly(b, digest).fields["digest"] == Str(db);
      assert da[7..] == digest(a) && db[7..] == digest(b);
    }
  }

  lemma {:induction false} ImitationField(v: Value, key: string, text: string, allow: set<string>, digest: Digest)
    requires key in {"schema", "projection", "digest"}
    ensures ProjectOutputField(v, key, allow, digest) == Str(text) <==> "output." + key in allow && v == Str(text)
  {
    assert |key| == 6 || |key| == 10;
    assert key !in OUTPUT_SAFE && key !in STRUCTURED;
    var path := "output." + key;
    assert Allowed(path, key, allow, false) <==> path in allow;
    assert ProjectValue(v, allow, path, digest) == Str(text) <==> v == Str(text);
  }

  lemma {:induction false} ImitationDecides(a: Value, b: Value, allow: set<string>, path: string, digest: Digest)
    requires a.Dict? && !b.Dict?
    ensures Imitates(a, b, allow, path, digest)
       <==> ProjectField(a, "output", allow, path, digest) == ProjectField(b, "output", allow, path, digest)
  {
    if Allowed(ChildPath(path, "output"), "output", allow, path == "") {
      assert !ProjectField(b, "output", allow, path, digest).Dict?;
    } else {
      var want := DigestOnly(b, digest).fields;
      var got := ProjectOutput(a, allow, digest).fields;
      assert got.Keys == a.fields.Keys && want.Keys == {"schema", "projection", "digest"};
      forall k | k in want && k in a.fields
        ensures got[k] == want[k] <==> "output." + k in allow && a.fields[k] == want[k]
      {
        ImitationField(a.fields[k], k, want[k].s, allow, digest);
      }
      assert got == want <==> got.Keys == want.Keys && forall k :: k in want && k in got ==> got[k] == want[k];
      assert a.fields == want <==> a.fields.Keys == want.Keys && forall k :: k in want && k in a.fields ==> a.fields[k] == want[k];
      ImitationPaths(want.Keys, allow);
    }
  }

  lemma {:induction false} ImitationPaths(keys: set<string>, allow: set<string>)
    requires keys == {"schema", "projection", "digest"}
    ensures {"output.schema", "output.projection", "output.digest"} <= allow <==> forall k :: k in keys ==> "output." + k in allow
  {
    assert "output." + "schema" == "output.schema";
    assert "output." + "projection" == "output.projection";
    assert "output." + "digest" == "output.digest";
    if forall k :: k in keys ==> "output." + k in allow {
      assert "schema" in keys && "projection" in keys && "digest" in keys;
    }
  }

  // ---------------------------------------------------------------- what is disclosed

  datatype Hop = Key(k: string) | Index(i: nat)

  predicate IsLeaf(v: Value) {
    !v.Dict? && !v.List?
  }

  /** The value at a position of a tree. */
  function At(v: Value, pos: seq<Hop>): Option<Value>
    decreases |pos|
  {
    if pos == [] then Some(v)
    else
      match pos[0]
      case Key(k) => if v.Dict? && k in v.fields then At(v.fields[k], pos[1..]) else None
      case Index(i) => if v.List? && i < |v.items| then At(v.items[i], pos[1..]) else None
  }

  /** The leaf at a position passes in clear. */
  predicate Clear(v: Value, allow: set<string>, path: string, pos: seq<Hop>)
    decreases |pos|, 0
  {
    if pos == [] then IsLeaf(v)
    else
      match pos[0]
      case Key(k) => v.Dict? && k in v.fields && ClearField(v.fields[k], k, allow, path, pos[1..])
      case Index(i) => v.List? && i < |v.items| && Clear(v.items[i], allow, path, pos[1..])
  }

  predicate ClearField(v: Value, key: string, allow: set<string>, path: string, pos: seq<Hop>)
    decreases |pos|, 1
  {
    if key == "output" && v.Dict? then
      && pos != [] && pos[0].Key? && pos[0].k in v.fields
      && ClearOutputField(v.fields[pos[0].k], pos[0].k, allow, pos[1..])
    else Allowed(ChildPath(path, key), key, allow, path == "") && Clear(v, allow, ChildPath(path, key), pos)
  }

  predicate ClearOutputField(v: Value, key: string, allow: set<string>, pos: seq<Hop>)
    decreases |pos|, 1
  {
    && Allowed("output." + key, key, allow, false)
    && if key in STRUCTURED then At(v, pos).Some? && IsLeaf(At(v, pos).value)
       else Clear(v, allow, "output." + key, pos)
  }

  /** A disclosed position shows the original leaf, unchanged. */
  lemma {:induction false} ClearIsOriginal(v: Value, allow: set<string>, path: string, digest: Digest, pos: seq<Hop>)
    requires Clear(v, allow, path, pos)
    ensures At(v, pos).Some? && IsLeaf(At(v, pos).value)
    ensures At(ProjectValue(v, allow, path, digest), pos) == At(v, pos)
    decreases |pos|, 0
  {
    if pos != [] {
      if pos[0].Key? {
        ClearFieldIsOriginal(v.fields[pos[0].k], pos[0].k, allow, path, digest, pos[1..]);
      } else {
        ClearIsOriginal(v.items[pos[0].i], allow, path, digest, pos[1..]);
      }
    }
  }

  lemma {:induction false} ClearFieldIsOriginal(v: Value, key: string, allow: set<string>, path: string, digest: Digest, pos: seq<Hop>)
    requires ClearField(v, key, allow, path, pos)
    ensures At(v, pos).Some? && IsLeaf(At(v, pos).value)
    ensures At(ProjectField(v, key, allow, path, digest), pos) == At(v, pos)
    decreases |pos|, 1
  {
    if key == "output" && v.Dict? {
      var k := pos[0].k;
      var p := ProjectOutput(v, allow, digest);
      assert p == ProjectField(v, key, allow, path, digest);
      assert p.fields[k] == ProjectOutputField(v.fields[k], k, allow, digest);
      assert At(p, pos) == At(p.fields[k], pos[1..]);
      if k !in STRUCTURED {
        ClearIsOriginal(v.fields[k], allow, "output." + k, digest, pos[1..]);
      }
    } else {
      ClearIsOriginal(v, allow, ChildPath(path, key), digest, pos);
    }
  }

  predicate LeafAt(v: Value, pos: seq<Hop>) {
    At(v, pos).Some? && IsLeaf(At(v, pos).value)
  }

  /** A field of a digest record. */
  predicate InRecord(pos: seq<Hop>) {
    |pos| == 1 && pos[0].Key? && pos[0].k in {"schema", "projection", "digest"}
  }

  /** The position lies in the digest record put in place of a subtree that is not allowed. */
  predicate Masked(v: Value, allow: set<string>, path: string, pos: seq<Hop>)
    decreases |pos|, 0
  {
    pos != [] && match pos[0]
      case Key(k) => v.Dict? && k in v.fields && MaskedField(v.fields[k], k, allow, path, pos[1..])
      case Index(i) => v.List? && i < |v.items| && Masked(v.items[i], allow, path, pos[1..])
  }

  predicate MaskedField(v: Value, key: string, allow: set<string>, path: string, pos: seq<Hop>)
    decreases |pos|, 1
  {
    if key == "output" && v.Dict? then
      && pos != [] && pos[0].Key? && pos[0].k in v.fields
      && MaskedOutputField(v.fields[pos[0].k], pos[0].k, allow, pos[1..])
    else if Allowed(ChildPath(path, key), key, allow, path == "") then Masked(v, allow, ChildPath(path, key), pos)
    else InRecord(pos)
  }

  predicate MaskedOutputField(v: Value, key: string, allow: set<string>, pos: seq<Hop>)
    decreases |pos|, 1
  {
    if !Allowed("output." + key, key, allow, false) then InRecord(pos)
    else key !in STRUCTURED && Masked(v, allow, "output." + key, pos)
  }

  lemma {:induction false} RecordLeaves(v: Value, digest: Digest, pos: seq<Hop>)
    ensures LeafAt(DigestOnly(v, digest), pos) <==> InRecord(pos)
  {
    if pos != [] {
      var record := DigestOnly(v, digest);
      if pos[0].Key? && pos[0].k in record.fields {
        var field := record.fields[pos[0].k];
        assert field.Str?;
        assert At(record, pos) == At(field, pos[1..]);
        if |pos| > 1 { assert At(field, pos[1..]) == None; }
      }
    }
  }

  /** The leaves of a projection are exactly the positions disclosed in clear and the fields of the
      digest records, and no position is both. */
  lemma {:induction false} LeavesAreClearOrMasked(v: Value, allow: set<string>, path: string, digest: Digest, pos: seq<Hop>)
    ensures (LeafAt(ProjectValue(v, allow, path, digest), pos) <==>
      Clear(v, allow, path, pos) || Masked(v, allow, path, pos))
    ensures !(Clear(v, allow, path, pos) && Masked(v, allow, path, pos))
    decreases |pos|, 0
  {
    var p := ProjectValue(v, allow, path, digest);
    if v.Dict? { assert p == ProjectMapping(v, allow, path, digest); }
    if pos == [] {
      assert IsLeaf(p) <==> IsLeaf(v);
    } else if pos[0].Key? {
      var k := pos[0].k;
      if v.Dict? && k in v.fields {
        assert p.fields[k] == ProjectField(v.fields[k], k, allow, path, digest);
        FieldLeaves(v.fields[k], k, allow, path, digest, pos[1..]);
      }
    } else if v.List? && pos[0].i < |v.items| {
      assert p.items[pos[0].i] == ProjectValue(v.items[pos[0].i], allow, path, digest);
      LeavesAreClearOrMasked(v.items[pos[0].i], allow, path, digest, pos[1..]);
    }
  }

  lemma {:induction false} FieldLeaves(v: Value, key: string, allow: set<string>, path: string, digest: Digest, pos: seq<Hop>)
    ensures (LeafAt(ProjectField(v, key, allow, path, digest), pos) <==>
      ClearField(v, key, allow, path, pos) || MaskedField(v, key, allow, path, pos))
    ensures !(ClearField(v, key, allow, path, pos) && MaskedField(v, key, allow, path, pos))
    decreases |pos|, 1
  {
    if key == "output" && v.Dict? {
      OutputLeaves(v, allow, digest, pos);
    } else if Allowed(ChildPath(path, key), key, allow, path == "") {
      LeavesAreClearOrMasked(v, allow, ChildPath(path, key), digest, pos);
    } else {
      RecordLeaves(v, digest, pos);
    }
  }

  lemma {:induction false} OutputLeaves(v: Value, allow: set<string>, digest: Digest, pos: seq<Hop>)
    requires v.Dict?
    ensures var named := pos != [] && pos[0].Key? && pos[0].k in v.fields;
      && (LeafAt(ProjectOutput(v, allow, digest), pos) <==>
            named && (ClearOutputField(v.fields[pos[0].k], pos[0].k, allow, pos[1..])
                      || MaskedOutputField(v.fields[pos[0].k], pos[0].k, allow, pos[1..])))
      && !(named && ClearOutputField(v.fields[pos[0].k], pos[0].k, allow, pos[1..])
           && MaskedOutputField(v.fields[pos[0].k], pos[0].k, allow, pos[1..]))
    decreases |pos|, 0
  {
    var p := ProjectOutput(v, allow, digest);
    if pos != [] && pos[0].Key? && pos[0].k in v.fields {
      var k := pos[0].k;
      assert p.fields[k] == ProjectOutputField(v.fields[k], k, allow, digest);
      OutputFieldLeaves(v.fields[k], k, allow, digest, pos[1..]);
    }
  }

  lemma {:induction false} OutputFieldLeaves(v: Value, key: string, allow: set<string>, digest: Digest, pos: seq<Hop>)
    ensures (LeafAt(ProjectOutputField(v, key, allow, digest), pos) <==>
      ClearOutputField(v, key, allow, pos) || MaskedOutputField(v, key, allow, pos))
    ensures !(ClearOutputField(v, key, allow, pos) && MaskedOutputField(v, key, allow, pos))
    decreases |pos|, 1
  {
    if !Allowed("output." + key, key, allow, false) {
      RecordLeaves(v, digest, pos);
    } else if key !in STRUCTURED {
      LeavesAreClearOrMasked(v, allow, "output." + key, digest, pos);
    }
  }

  /** The record around a masked position stands for the subtree that was there. */
  ghost predicate Replaced(v: Value, p: Value, digest: Digest, pos: seq<Hop>) {
    At(v, pos).Some? && At(p, pos) == Some(DigestOnly(At(v, pos).value, digest))
  }

  lemma {:induction false} MaskedIsDigest(v: Value, allow: set<string>, path: string, digest: Digest, pos: seq<Hop>)
    requires Masked(v, allow, path, pos)
    ensures Replaced(v, ProjectValue(v, allow, path, digest), digest, pos[..|pos| - 1])
    decreases |pos|, 0
  {
    var p := ProjectValue(v, allow, path, digest);
    if pos[0].Key? {
      var k := pos[0].k;
      assert p == ProjectMapping(v, allow, path, digest);
      assert p.fields[k] == ProjectField(v.fields[k], k, allow, path, digest);
      MaskedFieldIsDigest(v.fields[k], k, allow, path, digest, pos[1..]);
    } else {
      assert p.items[pos[0].i] == ProjectValue(v.items[pos[0].i], allow, path, digest);
      MaskedIsDigest(v.items[pos[0].i], allow, path, digest, pos[1..]);
    }
    Deeper(v, p, digest, pos);
  }

  /** Replacement one level down is replacement here. */
  lemma {:induction false} Deeper(v: Value, p: Value, digest: Digest, pos: seq<Hop>)
    requires |pos| > 1
    requires match pos[0]
      case Key(k) =>
        && v.Dict? && p.Dict? && k in v.fields && k in p.fields
        && Replaced(v.fields[k], p.fields[k], digest, pos[1..][..|pos| - 2])
      case Index(i) =>
        && v.List? && p.List? && i < |v.items| && i < |p.items|
        && Replaced(v.items[i], p.items[i], digest, pos[1..][..|pos| - 2])
    ensures Replaced(v, p, digest, pos[..|pos| - 1])
  {
    var q := pos[..|pos| - 1];
    assert q[0] == pos[0] && q[1..] == pos[1..][..|pos| - 2];
  }

  lemma {:induction false} MaskedFieldIsDigest(v: Value, key: string, allow: set<string>, path: string, digest: Digest, pos: seq<Hop>)
    requires MaskedField(v, key, allow, path, pos)
    ensures pos != [] && Replaced(v, ProjectField(v, key, allow, path, digest), digest, pos[..|pos| - 1])
    decreases |pos|, 1
  {
    var p := ProjectField(v, key, allow, path, digest);
    if key == "output" && v.Dict? {
      var k := pos[0].k;
      assert p == ProjectOutput(v, allow, digest);
      assert p.fields[k] == ProjectOutputField(v.fields[k], k, allow, digest);
      MaskedOutputIsDigest(v.fields[k], k, allow, digest, pos[1..]);
      Deeper(v, p, digest, pos);
    } else if Allowed(ChildPath(path, key), key, allow, path == "") {
      MaskedIsDigest(v, allow, ChildPath(path, key), digest, pos);
    } else {
      assert pos[..|pos| - 1] == [];
    }
  }

  lemma {:induction false} MaskedOutputIsDigest(v: Value, key: string, allow: set<string>, digest: Digest, pos: seq<Hop>)
    requires MaskedOutputField(v, key, allow, pos)
    ensures pos != [] && Replaced(v, ProjectOutputField(v, key, allow, digest), digest, pos[..|pos| - 1])
    decreases |pos|, 1
  {
    if !Allowed("output." + key, key, allow, false) {
      assert pos[..|pos| - 1] == [];
    } else {
      MaskedIsDigest(v, allow, "output." + key, digest, pos);
    }
  }

  /** A larger allowlist never hides what a smaller one disclosed. */
  lemma {:induction false} DisclosureGrows(v: Value, small: set<string>, large: set<string>, path: string, pos: seq<Hop>)
    requires small <= large && Clear(v, small, path, pos)
    ensures Clear(v, large, path, pos)
    decreases |pos|, 0
  {
    if pos != [] {
      if pos[0].Key? {
        FieldDisclosureGrows(v.fields[pos[0].k], pos[0].k, small, large, path, pos[1..]);
      } else {
        DisclosureGrows(v.items[pos[0].i], small, large, path, pos[1..]);
      }
    }
  }

  lemma {:induction false} FieldDisclosureGrows(v: Value, key: string, small: set<string>, large: set<string>, path: string, pos: seq<Hop>)
    requires small <= large && ClearField(v, key, small, path, pos)
    ensures ClearField(v, key, large, path, pos)
    decreases |pos|, 1
  {
    if key == "output" && v.Dict? {
      var k := pos[0].k;
      if k !in STRUCTURED {
        DisclosureGrows(v.fields[k], small, large, "output." + k, pos[1..]);
      }
    } else {
      DisclosureGrows(v, small, large, ChildPath(path, key), pos);
    }
  }

  // ---------------------------------------------------------------- payloads

  /** Two payload mappings project to the same public record exactly when they agree on keys, on
      the values at allowed paths and on the digests of everything else. */
  lemma {:induction false} PublicNonInterference(a: Value, b: Value, allow: set<string>, digest: Digest)
    requires a.Dict? && b.Dict?
    ensures Agree(a, b, allow, "", digest) <==> ProjectPayload(a, allow, digest) == ProjectPayload(b, allow, digest)
  {
    ProjectionDecides(a, b, allow, "", digest);
  }
}
