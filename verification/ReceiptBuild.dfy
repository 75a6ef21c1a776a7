/** Building an execution receipt from the results of a run. */
module ReceiptBuild {
  import opened Values
  import opened Outcomes
  import opened Receipt

  const BINDING_SCHEMA := "rexecop.typed_execution_binding.v0.1"
  const GOVERNED_SCHEMA := "rexecop.governed_admission_binding.v0.1"
  const ORIGIN := "origin_binding_digest"
  const DRIFT := ValidationError("observed destination binding drift")
  const NO_DIGEST := ValidationError("required execution output digest missing")

  // ---------------------------------------------------------------- reading loosely typed results

  /** A mapping, or the empty one in place of anything else. */
  function Table(v: Value): Mapping {
    if v.Dict? then v.fields else map[]
  }

  function Lookup(m: Mapping, key: string): Mapping {
    Table(Get(m, key))
  }

  function Trimmed(m: Mapping, key: string): string {
    Strip(TextOr(Get(m, key)))
  }

  function Origin(destination: Mapping): string {
    TextOr(Get(destination, ORIGIN))
  }

  /** `str(value)`. */
  function Shown(v: Value): string {
    match v
    case Null => "None"
    case Bool(b) => if b then "True" else "False"
    case Int(n) => DecimalInt(n)
    case List(items) => "[...]"
    case Dict(fields) => "{...}"
    case _ => TextOr(v)
  }

  function Texts(m: Mapping): Mapping {
    map k | k in m :: Str(Shown(m[k]))
  }

  function Flags(m: Mapping): Mapping {
    map k | k in m :: Bool(Truthy(m[k]))
  }

  // ---------------------------------------------------------------- one step

  /** What a step result and the run's execution specs say, before any check. */
  function StepRecord(id: string, result: Mapping, specs: Value, digest: Digest): StepReceipt {
    var output := Lookup(result, "output");
    var data := Lookup(output, "data");
    var entry := Lookup(Table(specs), id);
    var digests := Texts(Lookup(data, "output_digests")) + Texts(Lookup(output, "output_digests"));
    var failure := Get(output, "error_class");
    StepReceipt(
      id, Truthy(Get(result, "success")),
      if Truthy(failure) then TextOr(failure) else TextOr(Get(data, "error_class")),
      if digests == map[] then map["record" := Str(digest(Dict(output)))] else digests,
      Flags(Lookup(data, "output_truncated")) + Flags(Lookup(output, "output_truncated")),
      Trimmed(entry, "digest"), Trimmed(entry, "capability_descriptor_digest"),
      Lookup(entry, "destination_binding"), Lookup(data, "observed_destination_binding"),
      Lookup(result, "runtime_receipt_binding"), Lookup(result, "receipt_conformance"))
  }

  /** The destination a step was planned for and the one it was seen to reach have one origin. */
  predicate SameOrigin(s: StepReceipt) {
    s.planned != map[] && s.observed != map[] ==> Origin(s.planned) == Origin(s.observed)
  }

  /** The results of a run's steps, in order. */
  type Results = seq<(string, Mapping)>

  type Recorder = (string, Mapping) -> StepReceipt

  function StepReceipts(results: Results, record: Recorder): Outcome<seq<StepReceipt>> {
    if results == [] then Returns([])
    else
      var last := results[|results| - 1];
      var s := record(last.0, last.1);
      match StepReceipts(results[..|results| - 1], record)
      case Raises(e) => Raises(e)
      case Returns(earlier) => if SameOrigin(s) then Returns(earlier + [s]) else Raises(DRIFT)
  }

  // ---------------------------------------------------------------- the typed execution binding

  /** A step whose spec entry carries a digest. */
  predicate Bound(specs: Value, id: string) {
    && specs.Dict? && Get(specs.fields, id).Dict?
    && var entry := Get(specs.fields, id).fields;
       Trimmed(entry, "digest") != "" || Trimmed(entry, "capability_descriptor_digest") != ""
  }

  /** The digests every bound step keeps, with the planned origin where there is one. */
  function CoreDigests(entry: Mapping): Mapping {
    var base := map["execution_spec_digest" := Str(Trimmed(entry, "digest")),
                    "capability_descriptor_digest" := Str(Trimmed(entry, "capability_descriptor_digest")),
                    "schema" := Str(Trimmed(entry, "schema"))];
    var destination := Get(entry, "destination_binding");
    if destination.Dict? then base[ORIGIN := Str(Origin(destination.fields))] else base
  }

  function WithText(m: Mapping, key: string, text: string): Mapping {
    if text == "" then m else m[key := Str(text)]
  }

  /** The digests kept of a spec entry. */
  function EntryDigests(entry: Mapping): Mapping {
    WithText(WithText(CoreDigests(entry), "admission_digest", Trimmed(entry, "admission_digest")),
             "governance_request_digest", Trimmed(entry, "governance_request_digest"))
  }

  function KeptFor(specs: Value, id: string): Value {
    Dict(EntryDigests(Lookup(Table(specs), id)))
  }

  /** The digests of exactly the executed steps that carry one. */
  function StepDigests(executed: seq<string>, specs: Value): Mapping {
    Collected(executed, id => Bound(specs, id), id => KeptFor(specs, id))
  }

  function Collected(ids: seq<string>, keep: string -> bool, kept: string -> Value): Mapping {
    map id | id in ids && keep(id) :: kept(id)
  }

  lemma {:induction false} CollectedExtend(ids: seq<string>, id: string, keep: string -> bool, kept: string -> Value)
    ensures (Collected(ids + [id], keep, kept) ==
              if keep(id) then Collected(ids, keep, kept)[id := kept(id)] else Collected(ids, keep, kept))
  {
  }

  function TypedBinding(stepDigests: Mapping, digest: Digest): Mapping {
    if stepDigests == map[] then map[]
    else
      map["schema" := Str(BINDING_SCHEMA),
          "step_digests" := Dict(stepDigests),
          "non_claims" := List([Str("Runtime projection only; not a SCLite truth artifact."),
                                Str("Binds digests only; does not embed typed execution payloads.")]),
          "binding_digest" := Str(digest(Dict(map["schema" := Str(BINDING_SCHEMA),
                                                  "step_digests" := Dict(stepDigests)])))]
  }

  method KeepDigests(entry: Mapping) returns (kept: Mapping)
    ensures kept == EntryDigests(entry)
  {
    kept := map["execution_spec_digest" := Str(Trimmed(entry, "digest")),
                "capability_descriptor_digest" := Str(Trimmed(entry, "capability_descriptor_digest")),
                "schema" := Str(Trimmed(entry, "schema"))];
    var destination := Get(entry, "destination_binding");
    if destination.Dict? {
      kept := kept[ORIGIN := Str(Origin(destination.fields))];
    }
    var admission := Trimmed(entry, "admission_digest");
    if admission != "" {
      kept := kept["admission_digest" := Str(admission)];
    }
    var request := Trimmed(entry, "governance_request_digest");
    if request != "" {
      kept := kept["governance_request_digest" := Str(request)];
    }
  }

  method BuildTypedBinding(executed: seq<string>, specs: Value, digest: Digest) returns (binding: Mapping)
    ensures binding == TypedBinding(StepDigests(executed, specs), digest)
  {
    var stepDigests: Mapping := map[];
    ghost var keep, kept := id => Bound(specs, id), id => KeptFor(specs, id);
    for i := 0 to |executed|
      invariant stepDigests == Collected(executed[..i], keep, kept)
    {
      assert executed[..i + 1] == executed[..i] + [executed[i]];
      CollectedExtend(executed[..i], executed[i], keep, kept);
      if Bound(specs, executed[i]) {
        var digests := KeepDigests(Lookup(Table(specs), executed[i]));
        stepDigests := stepDigests[executed[i] := Dict(digests)];
      }
    }
    assert executed[..|executed|] == executed;
    assert stepDigests == StepDigests(executed, specs);
    binding := TypedBinding(stepDigests, digest);
  }

  // ---------------------------------------------------------------- governance bindings

  predicate IsHex(c: char) {
    '0' <= c <= '9' || 'a' <= c <= 'f' || 'A' <= c <= 'F'
  }

  predicate IsShaReference(s: string) {
    |s| == 71 && s[..7] == "sha256:" && forall i :: 7 <= i < 71 ==> IsHex(s[i])
  }

  const GOVERNED_FIELDS: set<string> :=
    {"schema", "actual_operation_mode", "composite_admission_digest", "governance_request_digest",
     "governance_decision_digest", "approval_attestation_digest", "decision_expires_at"}

  /** A governed admission binding a receipt may carry. */
  predicate GovernedOk(v: Value) {
    && v.Dict? && v.fields.Keys == GOVERNED_FIELDS
    && TextOr(Get(v.fields, "schema")) == GOVERNED_SCHEMA
    && TextOr(Get(v.fields, "actual_operation_mode")) in {"apply", "recovery"}
    && IsShaReference(TextOr(Get(v.fields, "composite_admission_digest")))
    && IsShaReference(TextOr(Get(v.fields, "governance_request_digest")))
    && IsShaReference(TextOr(Get(v.fields, "governance_decision_digest")))
    && IsShaReference(TextOr(Get(v.fields, "approval_attestation_digest")))
    && TextOr(Get(v.fields, "decision_expires_at")) != ""
  }

  /** What of a step receipt the governance bindings speak about. */
  predicate Governs(s: StepReceipt) {
    s.runtimeBinding != map[] && s.conformance != map[]
  }

  function GovernedOf(s: StepReceipt, specs: Value): Value {
    Get(Lookup(Table(specs), s.stepId), "governed_admission_binding")
  }

  predicate GovernanceOk(s: StepReceipt, specs: Value) {
    Governs(s) ==> GovernedOf(s, specs) == Null || GovernedOk(GovernedOf(s, specs))
  }

  function GovernanceItem(s: StepReceipt, specs: Value): Mapping {
    var item := map["runtime_receipt_binding" := Dict(s.runtimeBinding),
                    "receipt_conformance" := Dict(s.conformance)];
    var governed := GovernedOf(s, specs);
    if governed.Dict? then
      item["governed_admission_binding" := Dict(map k | k in governed.fields :: Str(TextOr(governed.fields[k])))]
    else item
  }

  function GovernanceBindings(steps: seq<StepReceipt>, specs: Value): Outcome<Mapping> {
    if steps == [] then Returns(map[])
    else
      var s := steps[|steps| - 1];
      match GovernanceBindings(steps[..|steps| - 1], specs)
      case Raises(e) => Raises(e)
      case Returns(m) =>
        if !Governs(s) then Returns(m)
        else if GovernanceOk(s, specs) then Returns(m[s.stepId := Dict(GovernanceItem(s, specs))])
        else Raises(ValidationError("invalid governed admission receipt binding"))
  }

  // ---------------------------------------------------------------- the receipt

  datatype Request = Request(requestId: string, operationId: string, digest: string, policy: PolicyBinding,
                             limits: Mapping)

  predicate Present(p: PolicyBinding) {
    p != PolicyBinding("", "", "", "", "", "", "", "", "", "")
  }

  /** Every executed step that has a receipt has an output digest in it. */
  predicate DigestsPresent(steps: seq<StepReceipt>, executed: seq<string>) {
    forall i :: 0 <= i < |steps| && steps[i].stepId in executed ==> steps[i].digestRefs != map[]
  }

  function Unsealed(request: Request, success: bool, executed: seq<string>, steps: seq<StepReceipt>,
                    binding: Mapping, governance: Mapping, error: string, errorClass: string): ExecutionReceipt {
    ExecutionReceipt(
      "exec-receipt:" + request.operationId, request.requestId, request.digest, request.operationId, success,
      "v0.2", "", request.policy,
      map["status" := Str(if Present(request.policy) then "enforced" else "not_required"),
          "receipt_emitted" := Bool(true),
          "output_digests_verified" := Bool(DigestsPresent(steps, executed)),
          "typed_execution_specs_bound" := Bool(Truthy(Get(binding, "step_digests"))),
          "resource_limits" := Dict(request.limits)],
      executed, steps, binding, governance, error, errorClass)
  }

  function FromResults(request: Request, success: bool, executed: seq<string>, results: Results, specs: Value,
                       required: bool, error: string, errorClass: string, digest: Digest): Outcome<ExecutionReceipt> {
    match StepReceipts(results, Recording(specs, digest))
    case Raises(e) => Raises(e)
    case Returns(steps) =>
      if required && !DigestsPresent(steps, executed) then Raises(NO_DIGEST)
      else
        match GovernanceBindings(steps, specs)
        case Raises(e) => Raises(e)
        case Returns(governance) =>
          var binding := TypedBinding(StepDigests(executed, specs), digest);
          Returns(Seal(Unsealed(request, success, executed, steps, binding, governance, error, errorClass), digest))
  }

  function Recording(specs: Value, digest: Digest): Recorder {
    (id, result) => StepRecord(id, result, specs, digest)
  }

  // ---------------------------------------------------------------- properties

  ghost predicate NoDrift(results: Results, record: Recorder) {
    forall i :: 0 <= i < |results| ==> SameOrigin(record(results[i].0, results[i].1))
  }

  ghost predicate GovernanceAcceptable(results: Results, record: Recorder, specs: Value) {
    forall i :: 0 <= i < |results| ==> GovernanceOk(record(results[i].0, results[i].1), specs)
  }

  /** The step receipts are the results' records, one each and in order. */
  ghost predicate RecordsOf(steps: seq<StepReceipt>, results: Results, record: Recorder) {
    |steps| == |results| && forall i :: 0 <= i < |results| ==> steps[i] == record(results[i].0, results[i].1)
  }

  lemma {:induction false} StepReceiptsFacts(results: Results, record: Recorder)
    ensures StepReceipts(results, record).Returns? <==> NoDrift(results, record)
    ensures (StepReceipts(results, record).Returns? ==>
              RecordsOf(StepReceipts(results, record).value, results, record))
  {
    if results != [] {
      var n := |results| - 1;
      StepReceiptsFacts(results[..n], record);
      assert results == results[..n] + [results[n]];
    }
  }

  lemma {:induction false} GovernanceFacts(steps: seq<StepReceipt>, specs: Value)
    ensures (GovernanceBindings(steps, specs).Returns? <==>
              forall i :: 0 <= i < |steps| ==> GovernanceOk(steps[i], specs))
  {
    if steps != [] {
      GovernanceFacts(steps[..|steps| - 1], specs);
      assert steps == steps[..|steps| - 1] + [steps[|steps| - 1]];
    }
  }

  lemma {:induction false} StepAlwaysHasDigest(id: string, result: Mapping, specs: Value, digest: Digest)
    ensures StepRecord(id, result, specs, digest).digestRefs != map[]
  {
    assert "record" in map["record" := Str(digest(Dict(Lookup(result, "output"))))];
  }

  lemma {:induction false} DigestsAlwaysPresent(results: Results, steps: seq<StepReceipt>, executed: seq<string>,
                                                specs: Value, digest: Digest)
    requires RecordsOf(steps, results, Recording(specs, digest))
    ensures DigestsPresent(steps, executed)
  {
    forall i | 0 <= i < |steps| && steps[i].stepId in executed ensures steps[i].digestRefs != map[] {
      StepAlwaysHasDigest(results[i].0, results[i].1, specs, digest);
    }
  }

  /** A receipt is built exactly when no step was seen to reach another origin than planned and
      every governed admission binding is well formed. */
  lemma {:induction false} BuiltExactly(request: Request, success: bool, executed: seq<string>, results: Results,
                                        specs: Value, required: bool, error: string, errorClass: string,
                                        digest: Digest)
    ensures (FromResults(request, success, executed, results, specs, required, error, errorClass, digest).Returns? <==>
              NoDrift(results, Recording(specs, digest)) &&
              GovernanceAcceptable(results, Recording(specs, digest), specs))
  {
    var record := Recording(specs, digest);
    StepReceiptsFacts(results, record);
    if NoDrift(results, record) {
      var steps := StepReceipts(results, record).value;
      DigestsAlwaysPresent(results, steps, executed, specs, digest);
      GovernanceFacts(steps, specs);
      GovernanceOfRecords(steps, results, record, specs);
    }
  }

  lemma {:induction false} GovernanceOfRecords(steps: seq<StepReceipt>, results: Results, record: Recorder, specs: Value)
    requires RecordsOf(steps, results, record)
    ensures (GovernanceAcceptable(results, record, specs) <==>
              forall i :: 0 <= i < |steps| ==> GovernanceOk(steps[i], specs))
  {
    if GovernanceAcceptable(results, record, specs) {
      forall i | 0 <= i < |steps| ensures GovernanceOk(steps[i], specs) {
        assert steps[i] == record(results[i].0, results[i].1);
      }
    } else {
      var i :| 0 <= i < |results| && !GovernanceOk(record(results[i].0, results[i].1), specs);
      assert !GovernanceOk(steps[i], specs);
    }
  }

  /** Asking for output digests changes nothing: a step without any gets the digest of its own
      record, so the refusal for a missing digest is never reached. */
  lemma {:induction false} RequiringDigestsIsIdle(request: Request, success: bool, executed: seq<string>,
                                                  results: Results, specs: Value, error: string,
                                                  errorClass: string, digest: Digest)
    ensures FromResults(request, success, executed, results, specs, true, error, errorClass, digest)
         == FromResults(request, success, executed, results, specs, false, error, errorClass, digest)
  {
    StepReceiptsFacts(results, Recording(specs, digest));
    match StepReceipts(results, Recording(specs, digest))
    case Raises(_) =>
    case Returns(steps) => DigestsAlwaysPresent(results, steps, executed, specs, digest);
  }

  lemma {:induction false} BindingDigests(stepDigests: Mapping, digest: Digest)
    ensures Lookup(TypedBinding(stepDigests, digest), "step_digests") == stepDigests
  {
  }

  /** What a built receipt is made of. */
  lemma {:induction false} BuiltParts(request: Request, success: bool, executed: seq<string>, results: Results,
                                      specs: Value, required: bool, error: string, errorClass: string,
                                      digest: Digest, r: ExecutionReceipt)
    requires (FromResults(request, success, executed, results, specs, required, error, errorClass, digest)
              == Returns(r))
    ensures Verifies(r, digest)
    ensures RecordsOf(r.stepReceipts, results, Recording(specs, digest))
    ensures r.typedBinding == TypedBinding(StepDigests(executed, specs), digest)
    ensures NoDrift(results, Recording(specs, digest))
  {
    StepReceiptsFacts(results, Recording(specs, digest));
    var steps := StepReceipts(results, Recording(specs, digest)).value;
    var governance := GovernanceBindings(steps, specs).value;
    var binding := TypedBinding(StepDigests(executed, specs), digest);
    SealedVerifies(Unsealed(request, success, executed, steps, binding, governance, error, errorClass), digest);
  }

  /** Every receipt that is built verifies, records each result in order, and binds exactly the
      executed steps that carry a digest. */
  lemma {:induction false} BuiltReceipt(request: Request, success: bool, executed: seq<string>, results: Results,
                                        specs: Value, required: bool, error: string, errorClass: string,
                                        digest: Digest, r: ExecutionReceipt)
    requires (FromResults(request, success, executed, results, specs, required, error, errorClass, digest)
              == Returns(r))
    ensures Verifies(r, digest)
    ensures RecordsOf(r.stepReceipts, results, Recording(specs, digest))
    ensures Lookup(r.typedBinding, "step_digests").Keys == set id | id in executed && Bound(specs, id)
  {
    BuiltParts(request, success, executed, results, specs, required, error, errorClass, digest, r);
    BindingDigests(StepDigests(executed, specs), digest);
  }

  /** The two places a receipt speaks of a step agree: the binding's spec digest is the step
      receipt's, and its origin is the planned one and, where one was observed, the observed one. */
  lemma {:induction false} BindingMatchesSteps(request: Request, success: bool, executed: seq<string>,
                                               results: Results, specs: Value, required: bool, error: string,
                                               errorClass: string, digest: Digest, r: ExecutionReceipt, i: nat)
    requires (FromResults(request, success, executed, results, specs, required, error, errorClass, digest)
              == Returns(r))
    requires i < |results| && results[i].0 in executed && Bound(specs, results[i].0)
    ensures i < |r.stepReceipts|
    ensures Matches(Lookup(Lookup(r.typedBinding, "step_digests"), results[i].0), r.stepReceipts[i])
  {
    BuiltParts(request, success, executed, results, specs, required, error, errorClass, digest, r);
    BindingDigests(StepDigests(executed, specs), digest);
    var id := results[i].0;
    assert Get(StepDigests(executed, specs), id) == KeptFor(specs, id);
    assert r.stepReceipts[i] == Recording(specs, digest)(id, results[i].1);
    KeptMatches(id, results[i].1, specs, digest);
  }

  ghost predicate Matches(kept: Mapping, s: StepReceipt) {
    && Get(kept, "execution_spec_digest") == Str(s.specDigest)
    && Get(kept, "capability_descriptor_digest") == Str(s.capabilityDigest)
    && (s.planned != map[] ==> Get(kept, ORIGIN) == Str(Origin(s.planned)))
    && (s.planned != map[] && s.observed != map[] ==> Get(kept, ORIGIN) == Str(Origin(s.observed)))
  }

  lemma {:induction false} CoreKept(entry: Mapping, key: string)
    requires key != "admission_digest" && key != "governance_request_digest"
    ensures Get(EntryDigests(entry), key) == Get(CoreDigests(entry), key)
  {
  }

  lemma {:induction false} KeptDigests(entry: Mapping)
    ensures Get(EntryDigests(entry), "execution_spec_digest") == Str(Trimmed(entry, "digest"))
    ensures (Get(EntryDigests(entry), "capability_descriptor_digest")
             == Str(Trimmed(entry, "capability_descriptor_digest")))
    ensures (Lookup(entry, "destination_binding") != map[] ==>
              Get(EntryDigests(entry), ORIGIN) == Str(Origin(Lookup(entry, "destination_binding"))))
  {
    CoreKept(entry, "execution_spec_digest");
    CoreKept(entry, "capability_descriptor_digest");
    CoreKept(entry, ORIGIN);
  }

  lemma {:induction false} RecordedEntry(id: string, result: Mapping, specs: Value, digest: Digest)
    ensures var s, entry := StepRecord(id, result, specs, digest), Lookup(Table(specs), id);
            && s.specDigest == Trimmed(entry, "digest")
            && s.capabilityDigest == Trimmed(entry, "capability_descriptor_digest")
            && s.planned == Lookup(entry, "destination_binding")
  {
  }

  lemma {:induction false} KeptMatches(id: string, result: Mapping, specs: Value, digest: Digest)
    requires SameOrigin(StepRecord(id, result, specs, digest))
    ensures Matches(EntryDigests(Lookup(Table(specs), id)), StepRecord(id, result, specs, digest))
  {
    KeptDigests(Lookup(Table(specs), id));
    RecordedEntry(id, result, specs, digest);
  }
}
