/** Execution receipts: how they are built from step results, serialised with optional fields
    left out, and sealed by a digest of that serialisation. */
module Receipt {
  import opened Values

  /** The digest of a record's canonical JSON. */
  type Digest = Value -> string

  // ---------------------------------------------------------------- serialising with optional fields

  /** When a key of a record is written. */
  datatype Presence = Always | UnlessBlank | UnlessEmpty

  datatype Slot = Slot(key: string, presence: Presence)

  predicate Omitted(presence: Presence, v: Value) {
    match presence
    case Always => false
    case UnlessBlank => v == Str("")
    case UnlessEmpty => v == Dict(map[])
  }

  /** The record of a schema and one value for each of its slots. */
  function Rendered(schema: seq<Slot>, values: seq<Value>): Mapping
    requires |schema| == |values|
  {
    if schema == [] then map[]
    else
      var n := |schema| - 1;
      var m := Rendered(schema[..n], values[..n]);
      if Omitted(schema[n].presence, values[n]) then m else m[schema[n].key := values[n]]
  }

  predicate DistinctKeys(schema: seq<Slot>) {
    forall i, j :: 0 <= i < j < |schema| ==> schema[i].key != schema[j].key
  }

  lemma {:induction false} RenderedKeys(schema: seq<Slot>, values: seq<Value>, k: string)
    requires |schema| == |values|
    requires forall i :: 0 <= i < |schema| ==> schema[i].key != k
    ensures k !in Rendered(schema, values)
  {
    if schema != [] { RenderedKeys(schema[..|schema| - 1], values[..|schema| - 1], k); }
  }

  lemma {:induction false} RenderedAt(schema: seq<Slot>, values: seq<Value>, i: nat)
    requires i < |schema| == |values| && DistinctKeys(schema)
    ensures schema[i].key in Rendered(schema, values) <==> !Omitted(schema[i].presence, values[i])
    ensures (schema[i].key in Rendered(schema, values) ==>
               Rendered(schema, values)[schema[i].key] == values[i])
  {
    var n := |schema| - 1;
    if i == n {
      RenderedKeys(schema[..n], values[..n], schema[n].key);
    } else {
      RenderedAt(schema[..n], values[..n], i);
    }
  }

  /** Leaving empty optional fields out loses nothing. */
  lemma {:induction false} RenderingIsFaithful(schema: seq<Slot>, a: seq<Value>, b: seq<Value>)
    requires |schema| == |a| == |b| && DistinctKeys(schema) && Rendered(schema, a) == Rendered(schema, b)
    ensures a == b
  {
    forall i | 0 <= i < |a| ensures a[i] == b[i] {
      RenderedAt(schema, a, i);
      RenderedAt(schema, b, i);
    }
  }

  // ---------------------------------------------------------------- the records

  const STEP_SCHEMA: seq<Slot> :=
    [Slot("step_id", Always), Slot("success", Always), Slot("error_class", Always),
     Slot("output_digest_refs", Always), Slot("output_truncated", Always),
     Slot("execution_spec_digest", UnlessBlank), Slot("capability_descriptor_digest", UnlessBlank),
     Slot("planned_destination_binding", UnlessEmpty), Slot("observed_destination_binding", UnlessEmpty),
     Slot("runtime_receipt_binding", UnlessEmpty), Slot("receipt_conformance", UnlessEmpty)]

  datatype StepReceipt = StepReceipt(
    stepId: string, success: bool, errorClass: string, digestRefs: Mapping, truncated: Mapping,
    specDigest: string, capabilityDigest: string, planned: Mapping, observed: Mapping,
    runtimeBinding: Mapping, conformance: Mapping)
  {
    function Fields(): (values: seq<Value>)
      ensures |values| == |STEP_SCHEMA|
    {
      [Str(stepId), Bool(success), Str(errorClass), Dict(digestRefs), Dict(truncated), Str(specDigest),
       Str(capabilityDigest), Dict(planned), Dict(observed), Dict(runtimeBinding), Dict(conformance)]
    }

    function AsDict(): Mapping { Rendered(STEP_SCHEMA, Fields()) }
  }

  const POLICY_SCHEMA: seq<Slot> :=
    [Slot("schema_version", Always), Slot("enforcement_plan_id", Always),
     Slot("enforcement_plan_digest", Always), Slot("admission_id", Always), Slot("admission_digest", Always),
     Slot("policy_pack_id", Always), Slot("policy_pack_version", Always), Slot("policy_pack_digest", Always),
     Slot("verdict_id", Always), Slot("verdict_digest", Always)]

  datatype PolicyBinding = PolicyBinding(
    schemaVersion: string, planId: string, planDigest: string, admissionId: string, admissionDigest: string,
    packId: string, packVersion: string, packDigest: string, verdictId: string, verdictDigest: string)
  {
    function Fields(): (values: seq<Value>)
      ensures |values| == |POLICY_SCHEMA|
    {
      [Str(schemaVersion), Str(planId), Str(planDigest), Str(admissionId), Str(admissionDigest), Str(packId),
       Str(packVersion), Str(packDigest), Str(verdictId), Str(verdictDigest)]
    }

    function AsDict(): Mapping { Rendered(POLICY_SCHEMA, Fields()) }
  }

  const RECEIPT_SCHEMA: seq<Slot> :=
    [Slot("receipt_id", Always), Slot("request_id", Always), Slot("request_digest", Always),
     Slot("operation_id", Always), Slot("schema_version", Always), Slot("receipt_digest", Always),
     Slot("policy_binding", Always), Slot("enforcement", Always), Slot("success", Always),
     Slot("executed_steps", Always), Slot("step_receipts", Always), Slot("error", Always),
     Slot("error_class", Always), Slot("typed_execution_binding", UnlessEmpty),
     Slot("governance_bindings", UnlessEmpty)]

  datatype ExecutionReceipt = ExecutionReceipt(
    receiptId: string, requestId: string, requestDigest: string, operationId: string, success: bool,
    schemaVersion: string, receiptDigest: string, policy: PolicyBinding, enforcement: Mapping,
    executedSteps: seq<string>, stepReceipts: seq<StepReceipt>, typedBinding: Mapping, governance: Mapping,
    error: string, errorClass: string)
  {
    function Fields(): (values: seq<Value>)
      ensures |values| == |RECEIPT_SCHEMA|
    {
      [Str(receiptId), Str(requestId), Str(requestDigest), Str(operationId), Str(schemaVersion),
       Str(receiptDigest), Dict(policy.AsDict()), Dict(enforcement), Bool(success), Strings(executedSteps),
       StepDicts(stepReceipts), Str(error), Str(errorClass), Dict(typedBinding), Dict(governance)]
    }

    function AsDict(): Mapping { Rendered(RECEIPT_SCHEMA, Fields()) }
  }

  function Strings(ss: seq<string>): Value {
    List(seq(|ss|, i requires 0 <= i < |ss| => Str(ss[i])))
  }

  function StepDicts(rs: seq<StepReceipt>): Value {
    List(seq(|rs|, i requires 0 <= i < |rs| => Dict(rs[i].AsDict())))
  }

  // ---------------------------------------------------------------- sealing

  /** A receipt's record with its own digest field blanked: what the digest covers. */
  function Sealable(r: ExecutionReceipt): Value {
    Dict(r.(receiptDigest := "").AsDict())
  }

  function ReceiptDigest(r: ExecutionReceipt, digest: Digest): string {
    digest(Sealable(r))
  }

  function Seal(r: ExecutionReceipt, digest: Digest): ExecutionReceipt {
    r.(receiptDigest := ReceiptDigest(r, digest))
  }

  predicate Verifies(r: ExecutionReceipt, digest: Digest) {
    r.receiptDigest == ReceiptDigest(r, digest)
  }

  /** Recomputing the digest of a sealed receipt gives the stored one. */
  lemma {:induction false} SealedVerifies(r: ExecutionReceipt, digest: Digest)
    ensures Verifies(Seal(r, digest), digest)
  {
    assert Seal(r, digest).(receiptDigest := "") == r.(receiptDigest := "");
  }

  lemma {:induction false} StepFieldsFaithful(a: StepReceipt, b: StepReceipt)
    requires a.Fields() == b.Fields()
    ensures a == b
  {
    var f, g := a.Fields(), b.Fields();
    assert f[0] == g[0] && f[1] == g[1] && f[2] == g[2] && f[3] == g[3] && f[4] == g[4] && f[5] == g[5];
    assert f[6] == g[6] && f[7] == g[7] && f[8] == g[8] && f[9] == g[9] && f[10] == g[10];
  }

  lemma {:induction false} StepDictFaithful(a: StepReceipt, b: StepReceipt)
    requires a.AsDict() == b.AsDict()
    ensures a == b
  {
    RenderingIsFaithful(STEP_SCHEMA, a.Fields(), b.Fields());
    StepFieldsFaithful(a, b);
  }

  lemma {:induction false} PolicyDictFaithful(a: PolicyBinding, b: PolicyBinding)
    requires a.AsDict() == b.AsDict()
    ensures a == b
  {
    RenderingIsFaithful(POLICY_SCHEMA, a.Fields(), b.Fields());
    var f, g := a.Fields(), b.Fields();
    assert f[0] == g[0] && f[1] == g[1] && f[2] == g[2] && f[3] == g[3] && f[4] == g[4];
    assert f[5] == g[5] && f[6] == g[6] && f[7] == g[7] && f[8] == g[8] && f[9] == g[9];
  }

  lemma {:induction false} StringsFaithful(a: seq<string>, b: seq<string>)
    requires Strings(a) == Strings(b)
    ensures a == b
  {
    assert |a| == |Strings(a).items| == |b|;
    forall i | 0 <= i < |a| ensures a[i] == b[i] {
      assert Strings(a).items[i] == Str(a[i]) && Strings(b).items[i] == Str(b[i]);
    }
  }

  lemma {:induction false} StepDictsFaithful(a: seq<StepReceipt>, b: seq<StepReceipt>)
    requires StepDicts(a) == StepDicts(b)
    ensures a == b
  {
    assert |a| == |StepDicts(a).items| == |b|;
    forall i | 0 <= i < |a| ensures a[i] == b[i] {
      assert StepDicts(a).items[i] == Dict(a[i].AsDict()) && StepDicts(b).items[i] == Dict(b[i].AsDict());
      StepDictFaithful(a[i], b[i]);
    }
  }

  lemma {:induction false} ReceiptFieldsFaithful(a: ExecutionReceipt, b: ExecutionReceipt)
    requires a.Fields() == b.Fields()
    ensures a == b
  {
    var f, g := a.Fields(), b.Fields();
    assert f[0] == g[0] && f[1] == g[1] && f[2] == g[2] && f[3] == g[3] && f[4] == g[4] && f[5] == g[5];
    assert f[6] == g[6] && f[7] == g[7] && f[8] == g[8] && f[9] == g[9] && f[10] == g[10] && f[11] == g[11];
    assert f[12] == g[12] && f[13] == g[13] && f[14] == g[14];
    PolicyDictFaithful(a.policy, b.policy);
    StringsFaithful(a.executedSteps, b.executedSteps);
    StepDictsFaithful(a.stepReceipts, b.stepReceipts);
  }

  /** Nothing about a receipt is lost in its serialisation. */
  lemma {:induction false} ReceiptDictFaithful(a: ExecutionReceipt, b: ExecutionReceipt)
    requires a.AsDict() == b.AsDict()
    ensures a == b
  {
    RenderingIsFaithful(RECEIPT_SCHEMA, a.Fields(), b.Fields());
    ReceiptFieldsFaithful(a, b);
  }

  /** A seal binds the whole receipt: two receipts that verify under one digest are the same
      receipt, although empty optional fields are not serialised, unless their serialisations
      are two different records with one digest. */
  lemma {:induction false} SealBindsReceipt(a: ExecutionReceipt, b: ExecutionReceipt, digest: Digest)
    requires Verifies(a, digest) && Verifies(b, digest) && a.receiptDigest == b.receiptDigest
    ensures a == b || (Sealable(a) != Sealable(b) && digest(Sealable(a)) == digest(Sealable(b)))
  {
    if Sealable(a) == Sealable(b) {
      ReceiptDictFaithful(a.(receiptDigest := ""), b.(receiptDigest := ""));
    }
  }
}
