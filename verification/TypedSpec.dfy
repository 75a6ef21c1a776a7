/** Binding a step to its compiled execution spec in the shared state, and recording the
    admission decision beside it. */
module TypedSpec {
  import opened Values
  import opened Outcomes

  const SPECS := "typed_execution_specs"
  const ADMISSIONS := "typed_execution_admissions"

  type State = Mapping

  datatype Spec = Spec(stepId: string, digest: string, schema: string, payloadSchema: string,
                       capabilityDigest: string, destination: Option<Mapping>)

  datatype Admission = Admission(allowed: bool, reasonCode: string, blockers: seq<string>,
                                 admissionDigest: string, requestDigest: string, record: Mapping)

  /** The binding stored for a step, if there is one. */
  function Entry(s: State, stepId: string): Option<Mapping> {
    var specs := Get(s, SPECS);
    if specs.Dict? && stepId in specs.fields && specs.fields[stepId].Dict?
    then Some(specs.fields[stepId].fields) else None
  }

  /** The digest a step is bound to; empty when it has none. */
  function BoundDigest(s: State, stepId: string): string {
    match Entry(s, stepId)
    case Some(entry) => Strip(TextOr(Get(entry, "digest")))
    case None => ""
  }

  predicate Drifts(s: State, stepId: string, spec: Spec) {
    var expected, actual := BoundDigest(s, stepId), Strip(spec.digest);
    expected != "" && actual != "" && expected != actual
  }

  predicate Substring(key: string, s: string) {
    key <= s || (s != "" && Substring(key, s[1..]))
  }

  /** `key in value` for the container types; `None` when Python refuses the test. */
  function ContainsKey(v: Value, key: string): Option<bool> {
    match v
    case Dict(fields) => Some(key in fields)
    case List(items) => Some(Str(key) in items)
    case Str(s) => Some(Substring(key, s))
    case _ => None
  }

  function NewEntry(spec: Spec): Mapping {
    var entry: Mapping := map[
      "schema" := Str(spec.schema), "digest" := Str(spec.digest),
      "payload_schema" := Str(spec.payloadSchema),
      "capability_descriptor_digest" := Str(spec.capabilityDigest)];
    if spec.destination.Some? then entry["destination_binding" := Dict(spec.destination.value)] else entry
  }

  /** Bind the step: refuse a spec that drifts from the bound one, keep an existing entry, and
      otherwise write a new one. */
  function Bind(s: State, stepId: string, spec: Spec): Outcome<State> {
    if Drifts(s, stepId, spec) then Raises(ValidationError("typed execution spec drift detected for step " + stepId))
    else
      var specs := if SPECS in s then s[SPECS] else Dict(map[]);
      match ContainsKey(specs, stepId)
      case None => Raises(Unknown)
      case Some(true) => Returns(s)
      case Some(false) =>
        if specs.Dict? then Returns(s[SPECS := Dict(specs.fields[stepId := Dict(NewEntry(spec))])])
        else Raises(Unknown)
  }

  function RecordAdmission(s: State, stepId: string, a: Admission): Outcome<State> {
    var admissions := if ADMISSIONS in s then s[ADMISSIONS] else Dict(map[]);
    if !admissions.Dict? then Raises(Unknown)
    else
      var s1 := s[ADMISSIONS := Dict(admissions.fields[stepId := Dict(a.record)])];
      match Entry(s1, stepId)
      case None => Returns(s1)
      case Some(entry) =>
        var entry' := entry["admission_digest" := Str(a.admissionDigest)]["governance_request_digest" := Str(a.requestDigest)];
        Returns(s1[SPECS := Dict(s1[SPECS].fields[stepId := Dict(entry')])])
  }

  /** Two states bind every step that the first one binds to the same digest. */
  ghost predicate KeepsDigests(s: State, s': State) {
    forall x :: Entry(s, x).Some? ==> Entry(s', x).Some? && BoundDigest(s', x) == BoundDigest(s, x)
  }

  /** Binding never changes a bound digest, and after it the step is bound to the compiled
      digest unless an entry was already there. */
  lemma {:induction false} BindFacts(s: State, stepId: string, spec: Spec)
    requires Bind(s, stepId, spec).Returns?
    ensures var s' := Bind(s, stepId, spec).value;
      && KeepsDigests(s, s')
      && (Entry(s, stepId).Some? ==> s' == s)
      && (Entry(s, stepId).Some? && BoundDigest(s, stepId) != "" && Strip(spec.digest) != "" ==>
            BoundDigest(s, stepId) == Strip(spec.digest))
      && (s' != s ==> BoundDigest(s', stepId) == Strip(spec.digest))
  {
    var s' := Bind(s, stepId, spec).value;
    if s' != s {
      var specs := s'[SPECS].fields;
      assert Get(NewEntry(spec), "digest") == Str(spec.digest);
    }
  }

  /** Exactly when a bound step may be bound again: the digests are equal, or one of them is blank. */
  lemma {:induction false} BindsExactly(s: State, stepId: string, spec: Spec)
    requires Entry(s, stepId).Some?
    ensures (Bind(s, stepId, spec).Returns? <==>
      BoundDigest(s, stepId) == "" || Strip(spec.digest) == "" || Strip(spec.digest) == BoundDigest(s, stepId))
    ensures Bind(s, stepId, spec).Returns? ==> Bind(s, stepId, spec).value == s
  {
    assert ContainsKey(s[SPECS], stepId) == Some(true);
  }

  /** One such gap: a step whose entry has a blank digest takes any spec, and stays blank. */
  lemma {:induction false} BlankEntryTakesAnySpec(stepId: string, first: Spec, second: Spec)
    ensures var s := map[SPECS := Dict(map[stepId := Dict(map["digest" := Str("")])])];
      Bind(s, stepId, first) == Returns(s) == Bind(s, stepId, second)
  {
    var s := map[SPECS := Dict(map[stepId := Dict(map["digest" := Str("")])])];
    assert Entry(s, stepId) == Some(map["digest" := Str("")]);
    assert BoundDigest(s, stepId) == Strip("") == "";
    BindsExactly(s, stepId, first);
    BindsExactly(s, stepId, second);
  }

  /** The step has no entry yet and there is room for one. */
  predicate Unbound(s: State, stepId: string) {
    SPECS in s ==> s[SPECS].Dict? && stepId !in s[SPECS].fields
  }

  lemma {:induction false} BindFresh(s: State, stepId: string, spec: Spec)
    requires Unbound(s, stepId)
    ensures Bind(s, stepId, spec).Returns?
    ensures var s' := Bind(s, stepId, spec).value;
      Entry(s', stepId).Some? && BoundDigest(s', stepId) == Strip(spec.digest)
  {
    assert Get(NewEntry(spec), "digest") == Str(spec.digest);
  }

  lemma {:induction false} RecordFacts(s: State, stepId: string, a: Admission)
    requires RecordAdmission(s, stepId, a).Returns?
    ensures KeepsDigests(s, RecordAdmission(s, stepId, a).value)
  {
    var s' := RecordAdmission(s, stepId, a).value;
    forall x | Entry(s, x).Some?
      ensures Entry(s', x).Some? && BoundDigest(s', x) == BoundDigest(s, x)
    {
      if x == stepId {
        assert Get(Entry(s', x).value, "digest") == Get(Entry(s, x).value, "digest");
      }
    }
  }
}
