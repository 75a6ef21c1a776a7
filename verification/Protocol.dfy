/** The step-execution protocol: bind, admit, check the posture, start an attempt, check once
    more before I/O, invoke, bound the output, finish and receipt. Handlers, governance and
    the connector are an adversary that may return or raise anything. */
module Protocol {
  import opened Values
  import opened Outcomes
  import opened TypedSpec
  import Envelope
  import Evidence

  // ---------------------------------------------------------------- data

  datatype Step = Step(id: string, kind: string, action: string, connector: string, mode: string)

  datatype Result = Result(stepId: string, success: bool, output: Mapping, error: string,
                           receiptBinding: Mapping, conformance: Mapping)

  /** A connector's answer. Nothing makes a connector keep to a mapping as its data. */
  datatype Response = Response(connector: string, action: string, success: bool, data: Value, error: string)

  datatype Attempt = Attempt(sideEffectful: bool)

  datatype Status = Completed | Failed | Indeterminate

  /** Calls out of the executor, in order. `begun` tells whether the start handler returned an
      attempt, `returned` whether the finish handler came back normally. */
  datatype Event = Start(begun: bool) | PreIO | Invoke | Receipt | Finish(status: Status, returned: bool)

  /** Which handlers an executor was built with. */
  datatype Wiring = Wiring(start: bool, preIO: bool, finish: bool, receipt: bool, evidence: bool,
                           governed: bool, internalActions: set<string>)

  /** Everything one call does not control. */
  datatype World = World(
    compile: Outcome<Spec>,
    admit: Outcome<Admission>,
    precheck: Outcome<()>,
    posture: Outcome<()>,
    start: Outcome<Option<Attempt>>,
    startEffect: State -> State,
    preIO: Outcome<()>,
    invoke: Outcome<Response>,
    readOther: Value -> Outcome<Mapping>,
    finish: Status -> Outcome<()>,
    receipt: Result -> Outcome<Result>,
    handler: Outcome<Mapping>,
    handlerEffect: State -> State,
    encode: Mapping -> Outcome<Evidence.Record>,
    redact: Mapping -> Mapping,
    redactText: string -> string)

  datatype Deferred = NotDeferred | DeferFailed | DeferSuccess

  const INDETERMINATE := "outcome_indeterminate"

  function Failure(stepId: string, output: Mapping, error: string): Result {
    Result(stepId, false, output, error, map[], map[])
  }

  function Succeeded(stepId: string, output: Mapping): Result {
    Result(stepId, true, output, "", map[], map[])
  }

  /** A result turned into an explicit "the outcome is not known". */
  function IndeterminateOf(r: Result): Result {
    Result(r.stepId, false,
           r.output["error_class" := Str(INDETERMINATE)]["reason_code" := Str(INDETERMINATE)],
           "connector outcome is indeterminate and requires reconciliation",
           r.receiptBinding, r.conformance)
  }

  /** The failure a caught exception is reported as. */
  function ExceptionResult(stepId: string, x: Exn, fallback: string): Result {
    var reason := if x.Known? then x.reason else "internal_error";
    Failure(stepId, map["error_class" := Str(reason), "reason_code" := Str(reason)],
            if x.Known? then x.message else fallback)
  }

  // ---------------------------------------------------------------- before I/O

  datatype TypedContext = Inactive | MissingConnector | Active

  function TypedContextOf(s: State, connector: string): TypedContext {
    var context := Get(s, "execution_context");
    if !context.Dict? then Inactive
    else
      var connectors := Get(context.fields, "connectors");
      if Strip(TextOr(Get(context.fields, "profile_root"))) == "" || !connectors.Dict? then Inactive
      else if !Get(connectors.fields, Strip(connector)).Dict? then MissingConnector
      else Active
  }

  datatype Gate =
    | Pass(state: State)
    | Refuse(result: Result, state: State)
    | Abort(exn: Exn, state: State)

  /** Compile and bind; `None` when the state carries no typed execution context. */
  function BindSpec(e: World, step: Step, s: State): Outcome<(Option<Spec>, State)> {
    match TypedContextOf(s, step.connector)
    case Inactive => Returns((None, s))
    case MissingConnector => Raises(ValidationError("connector not configured: " + Strip(step.connector)))
    case Active =>
      match e.compile
      case Raises(x) => Raises(x)
      case Returns(spec) =>
        match Bind(s, step.id, spec)
        case Raises(x) => Raises(x)
        case Returns(s') => Returns((Some(spec), s'))
  }

  function PostureGate(e: World, s: State): Gate {
    match e.posture
    case Raises(x) => Abort(x, s)
    case Returns(_) => Pass(s)
  }

  predicate GovernedMutation(w: Wiring, step: Step) {
    w.governed && (step.mode == "apply" || step.mode == "recovery")
  }

  function Denied(e: World, stepId: string, a: Admission): Result {
    Failure(stepId,
            map["error_class" := Str("policy_denied"),
                "policy_reason_code" := Str(a.reasonCode),
                "policy_blockers" := List(seq(|a.blockers|, i requires 0 <= i < |a.blockers| => Str(a.blockers[i]))),
                "typed_execution_admission" := Dict(a.record)],
            e.redactText("typed execution governance denied: " + if a.reasonCode != "" then a.reasonCode else "denied"))
  }

  function AdmissionGate(w: Wiring, e: World, step: Step, spec: Spec, s: State): Gate {
    match e.admit
    case Raises(x) => Abort(x, s)
    case Returns(a) =>
      match RecordAdmission(s, spec.stepId, a)
      case Raises(x) => Abort(x, s)
      case Returns(s') =>
        if GovernedMutation(w, step) then
          match e.precheck
          case Raises(x) => Abort(x, s')
          case Returns(_) => PostureGate(e, s')
        else if !a.allowed then Refuse(Denied(e, step.id, a), s')
        else PostureGate(e, s')
  }

  /** Everything that must pass before an attempt is started. */
  function Gates(w: Wiring, e: World, step: Step, s: State): Gate {
    match BindSpec(e, step, s)
    case Raises(x) =>
      if x.Known? && x.validation
      then Refuse(Failure(step.id, map["error_class" := Str(Evidence.VALIDATION_FAILED)], e.redactText(x.text)), s)
      else Abort(x, s)
    case Returns((None, s')) => PostureGate(e, s')
    case Returns((Some(spec), s')) => AdmissionGate(w, e, step, spec, s')
  }

  // ---------------------------------------------------------------- the attempt

  /** What a branch of the protocol hands back, or raises, with what it changed and logged. */
  datatype Branch = Branch(outcome: Outcome<Result>, attempt: Option<Attempt>, deferred: Deferred,
                           state: State, log: seq<Event>)

  /** Call the finish handler if there is one to call. */
  function FinishLog(w: Wiring, e: World, a: Option<Attempt>, status: Status): seq<Event> {
    if a.Some? && w.finish then [Finish(status, e.finish(status).Returns?)] else []
  }

  function FinishOutcome(w: Wiring, e: World, a: Option<Attempt>, status: Status): Outcome<()> {
    if a.Some? && w.finish then e.finish(status) else Returns(())
  }

  /** Finish an attempt and then return the result; a raising handler wins. */
  function Finished(w: Wiring, e: World, a: Option<Attempt>, status: Status, r: Outcome<Result>,
                    reported: Option<Attempt>, s: State, log: seq<Event>): Branch
  {
    var o := FinishOutcome(w, e, a, status);
    Branch(if o.Raises? then Raises(o.exn) else r,
           if o.Raises? then None else reported, NotDeferred, s, log + FinishLog(w, e, a, status))
  }

  predicate OverflowCandidate(r: Response) {
    !r.success && r.data.Dict? && (Get(r.data.fields, "output_limit_exceeded") == Bool(true)
                                   || Get(r.data.fields, "error_class") == Str(Evidence.LIMIT_EXCEEDED))
  }

  /** Reading an answer's data as a mapping. Values that are no mappings raise; an object that is
      none of the built-in types does what it does. */
  function DataOf(e: World, r: Response): Outcome<Mapping> {
    match r.data
    case Dict(m) => Returns(m)
    case Other(_) => e.readOther(r.data)
    case _ => Raises(Unknown)
  }

  function ResponseOutput(e: World, r: Response, data: Mapping): Mapping {
    e.redact(map["connector" := Str(r.connector), "action" := Str(r.action), "success" := Bool(r.success),
                 "data" := Dict(data), "error" := Str(r.error)])
  }

  function FailedOutput(e: World, r: Response, data: Mapping): Mapping {
    var output, errorClass := ResponseOutput(e, r, data), TextOr(Get(data, "error_class"));
    if errorClass != "" then output["error_class" := Str(errorClass)] else output
  }

  function CompletedOutput(e: World, r: Response, data: Mapping): Mapping {
    var output := ResponseOutput(e, r, data);
    var before, after := Get(data, "before_state"), Get(data, "after_state");
    var output' := if before.Dict? then output["before_state" := before] else output;
    if after.Dict? then output'["after_state" := after] else output'
  }

  /** The step result an answer that could be read stands for. */
  function Answered(e: World, step: Step, r: Response, data: Mapping): Result {
    if r.success then Succeeded(step.id, CompletedOutput(e, r, data))
    else Failure(step.id, FailedOutput(e, r, data), e.redactText(r.error))
  }

  function AnswerStatus(r: Response): Status {
    if r.success then Completed else Failed
  }

  predicate DefersSuccess(a: Option<Attempt>, r: Response) {
    r.success && a.Some? && a.value.sideEffectful
  }

  /** An answer that cannot be read raises past the attempt, which is then out of reach. */
  function Responded(w: Wiring, e: World, step: Step, a: Option<Attempt>, r: Response, s: State, log: seq<Event>): Branch {
    if OverflowCandidate(r) then
      Branch(Returns(Failure(step.id, Evidence.CandidateOutput(r.data.fields), "connector output limit exceeded")),
             a, DeferFailed, s, log)
    else
      match DataOf(e, r)
      case Raises(x) => Branch(Raises(x), None, NotDeferred, s, log)
      case Returns(data) =>
        if DefersSuccess(a, r) then Branch(Returns(Answered(e, step, r, data)), a, DeferSuccess, s, log)
        else Finished(w, e, a, AnswerStatus(r), Returns(Answered(e, step, r, data)), a, s, log)
  }

  function Invoked(w: Wiring, e: World, step: Step, a: Option<Attempt>, s: State, log: seq<Event>): Branch {
    match e.invoke
    case Raises(x) => Finished(w, e, a, Indeterminate, Raises(x), None, s, log + [Invoke])
    case Returns(r) => Responded(w, e, step, a, r, s, log + [Invoke])
  }

  function Guarded(w: Wiring, e: World, step: Step, a: Option<Attempt>, s: State, log: seq<Event>): Branch {
    if a.Some? && w.preIO then
      match e.preIO
      case Returns(_) => Invoked(w, e, step, a, s, log + [PreIO])
      case Raises(x) =>
        if x.Fatal? then Branch(Raises(x), None, NotDeferred, s, log + [PreIO])
        else
          Finished(w, e, a, Failed, Returns(ExceptionResult(step.id, x, "pre-I/O execution validation failed")),
                   None, s, log + [PreIO])
    else Invoked(w, e, step, a, s, log)
  }

  function Attempted(w: Wiring, e: World, step: Step, s: State): Branch {
    if w.start then
      match e.start
      case Raises(x) => Branch(Raises(x), None, NotDeferred, e.startEffect(s), [Start(false)])
      case Returns(a) => Guarded(w, e, step, a, e.startEffect(s), [Start(a.Some?)])
    else Guarded(w, e, step, None, s, [])
  }

  function ConnectorStep(w: Wiring, e: World, step: Step, s: State): Branch {
    match Gates(w, e, step, s)
    case Refuse(r, s') => Branch(Returns(r), None, NotDeferred, s', [])
    case Abort(x, s') => Branch(Raises(x), None, NotDeferred, s', [])
    case Pass(s') => Attempted(w, e, step, s')
  }

  /** Steps without a connector: an in-process handler, or nothing to run. */
  function LocalStep(w: Wiring, e: World, step: Step, s: State): Branch {
    if step.kind == "evidence" && !(step.action == "produce_receipt" && w.evidence) then
      Branch(Returns(Succeeded(step.id, map["action" := Str(step.action), "status" := Str("recorded")])),
             None, NotDeferred, s, [])
    else if step.kind != "evidence" && step.action !in w.internalActions then
      Branch(Returns(Failure(step.id, map[], "internal_action_not_registered:" + step.action)),
             None, NotDeferred, s, [])
    else
      Branch(match e.handler case Raises(x) => Raises(x) case Returns(m) => Returns(Succeeded(step.id, m)),
             None, NotDeferred, e.handlerEffect(s), [])
  }

  function Dispatch(w: Wiring, e: World, step: Step, s: State): Branch {
    if step.kind == "connector" then ConnectorStep(w, e, step, s) else LocalStep(w, e, step, s)
  }

  // ---------------------------------------------------------------- bounding the output

  /** The output limit in force: an exact positive integer in the controls, or the default. */
  function LimitOf(s: State): Option<nat> {
    var controls := Get(s, "execution_controls");
    Evidence.ActiveLimit(
      if controls.Dict? && "max_output_bytes" in controls.fields then Some(controls.fields["max_output_bytes"]) else None)
  }

  predicate IsCandidate(r: Result) {
    !r.success && Get(r.output, "error_class") == Str(Evidence.LIMIT_EXCEEDED) && Get(r.output, "data").Dict?
  }

  const EXCLUDED_DELTA_KEYS: set<string> :=
    {"execution_context", "execution_controls", "execution_request", "typed_execution_governance", SPECS, ADMISSIONS}

  /** What a step changed in the state, as far as it counts as output. */
  function StateDelta(before: State, after: State): Mapping {
    map k | k in after && k !in EXCLUDED_DELTA_KEYS && (k !in before || before[k] != after[k]) :: after[k]
  }

  function InvalidEvidenceResult(stepId: string): Outcome<Result> {
    match Evidence.InvalidEvidence()
    case None => Raises(ValidationError("overflow evidence envelope exceeds fixed limit"))
    case Some(m) => Returns(Failure(stepId, m, "execution output failed overflow evidence validation"))
  }

  /** The record of a redacted overflow report. */
  function OverflowEncoded(e: World, r: Result): Outcome<Evidence.Record> {
    e.encode(map["output" := Dict(e.redact(r.output)), "state_delta" := Dict(map[])])
  }

  /** Rebuild a connector's overflow report, with the digest of the redacted record; anything
      wrong with it, short of a signal, is reported as invalid evidence. */
  function OverflowResult(e: World, r: Result, limit: nat): Outcome<Result> {
    CheckedOverflow(r.stepId, OverflowCheck(r.output, limit), OverflowEncoded(e, r))
  }

  /** The evidence a report comes to, with or without a record of it. */
  function OverflowCheck(output: Mapping, limit: nat): Option<Evidence.Record> -> Option<Mapping> {
    record => Evidence.BoundedEvidence(output, limit, record)
  }

  function CheckedOverflow(stepId: string, check: Option<Evidence.Record> -> Option<Mapping>,
                           encoded: Outcome<Evidence.Record>): Outcome<Result>
  {
    if check(None).None? then InvalidEvidenceResult(stepId)
    else
      match encoded
      case Raises(x) => if x.Fatal? then Raises(x) else InvalidEvidenceResult(stepId)
      case Returns(record) =>
        match check(Some(record))
        case None => InvalidEvidenceResult(stepId)
        case Some(m) => Returns(Failure(stepId, m, "connector output limit exceeded"))
  }

  function GenericOverflowResult(stepId: string, record: Evidence.Record, limit: nat): Outcome<Result> {
    match Envelope.Enveloped(Evidence.GenericOverflow(record, limit))
    case None => Raises(ValidationError("overflow evidence envelope exceeds fixed limit"))
    case Some(m) => Returns(Failure(stepId, m, "execution output exceeds policy limit"))
  }

  function WithRecord(r: Result, record: Evidence.Record): Result {
    var digests := Get(r.output, "output_digests");
    var merged := (if digests.Dict? then digests.fields else map[])["record" := Str(record.digest)];
    r.(output := r.output["output_digests" := Dict(merged)]
                         ["output_sizes" := Dict(map["record_bytes" := Int(record.bytes)])],
       receiptBinding := map[], conformance := map[])
  }

  /** Whether the step's record passed the limit. */
  predicate Overflows(e: World, r: Result, before: State, s: State) {
    && LimitOf(s).Some?
    && (IsCandidate(r) || (var o := e.encode(RecordOf(r, before, s)); o.Returns? && o.value.bytes > LimitOf(s).value))
  }

  function RecordOf(r: Result, before: State, s: State): Mapping {
    map["output" := Dict(r.output), "state_delta" := Dict(StateDelta(before, s))]
  }

  /** Bound one result. */
  function BoundedOutcome(e: World, r: Result, before: State, s: State): Outcome<Result> {
    match LimitOf(s)
    case None => Raises(ValidationError("invalid execution resource limits"))
    case Some(limit) =>
      if IsCandidate(r) then OverflowResult(e, r, limit)
      else
        match e.encode(RecordOf(r, before, s))
        case Raises(x) => Raises(x)
        case Returns(record) =>
          if record.bytes > limit then GenericOverflowResult(r.stepId, record, limit)
          else Returns(WithRecord(r, record))
  }

  /** An overflow undoes what the step did to the state. */
  function BoundedState(e: World, r: Result, before: State, s: State): State {
    if Overflows(e, r, before, s) then before else s
  }

  // ---------------------------------------------------------------- settling the step

  /** `state.setdefault(key, {})[name] = value`. */
  function PutUnder(s: State, key: string, name: string, value: Value): Outcome<State> {
    var slot := if key in s then s[key] else Dict(map[]);
    if slot.Dict? then Returns(s[key := Dict(slot.fields[name := value])]) else Raises(Unknown)
  }

  /** Keep a successful result in the state. */
  function Store(kind: string, r: Result, s: State): Outcome<State> {
    if kind == "internal" then PutUnder(s, "internal_results", r.stepId, Dict(r.output))
    else if kind != "connector" then Returns(s)
    else
      var data := Get(r.output, "data");
      var bounded := if data.Dict? then data.fields else map[];
      match PutUnder(s, "connector_results", r.stepId, Dict(bounded))
      case Raises(x) => Raises(x)
      case Returns(s') =>
        var before, after := Get(bounded, "before_state"), Get(bounded, "after_state");
        if before.Dict? && after.Dict?
        then PutUnder(s', "mutation_states", r.stepId, Dict(map["before_state" := before, "after_state" := after]))
        else Returns(s')
  }

  datatype Ending = Done(result: Result) | Escapes(exn: Exn)

  /** One call, as its caller and its handlers see it; `caught` is the exception the step
      boundary turned into a failure, if any. */
  datatype Trace = Trace(ending: Ending, state: State, log: seq<Event>, caught: Option<Exn>)

  function SideEffectStatus(r: Result): Status {
    if r.success then Completed else Indeterminate
  }

  /** What finishing a side-effectful attempt makes of its result. */
  function SideEffectResult(e: World, r: Result): Outcome<Result> {
    var final := if r.success then r else IndeterminateOf(r);
    match e.finish(SideEffectStatus(r))
    case Returns(_) => Returns(final)
    case Raises(x) => if x.Fatal? then Raises(x) else Returns(IndeterminateOf(final))
  }

  /** The step boundary: a signal passes through, everything else becomes a failure over the
      restored state, after a pending side-effectful attempt has been finished. */
  function Boundary(w: Wiring, e: World, step: Step, before: State, x: Exn, a: Option<Attempt>,
                    d: Deferred, s: State, log: seq<Event>): Trace
  {
    if x.Fatal? then Trace(Escapes(x), s, log, None)
    else
      var failure := ExceptionResult(step.id, x, "connector execution failed");
      if d == DeferSuccess && a.Some? && w.finish then
        var log' := log + FinishLog(w, e, a, SideEffectStatus(failure));
        match SideEffectResult(e, failure)
        case Raises(y) => Trace(Escapes(y), before, log', Some(x))
        case Returns(r) => Trace(Done(r), before, log', Some(x))
      else Trace(Done(failure), before, log, Some(x))
  }

  /** The copy of the state a call restores from. Once an overflow has put it back, its nested
      mappings are the live state's own. */
  datatype Saved = Saved(state: State, shared: bool)

  /** The state with a result under `connector_results`, where there is such a mapping. */
  function HalfStored(s: State, r: Result): State {
    var slot, data := Get(s, "connector_results"), Get(r.output, "data");
    if slot.Dict?
    then s["connector_results" := Dict(slot.fields[r.stepId := Dict(if data.Dict? then data.fields else map[])])]
    else s
  }

  /** What is restored after storing a result raised: a shared copy has the part already written. */
  function Restored(saved: Saved, kind: string, r: Result): State {
    if saved.shared && kind == "connector" then HalfStored(saved.state, r) else saved.state
  }

  function Stored(w: Wiring, e: World, step: Step, saved: Saved, r: Result, s: State, log: seq<Event>): Trace {
    if !r.success then Trace(Done(r), s, log, None)
    else
      match Store(step.kind, r, s)
      case Raises(x) => Boundary(w, e, step, Restored(saved, step.kind, r), x, None, NotDeferred, s, log)
      case Returns(s') => Trace(Done(r), s', log, None)
  }

  function SideEffects(w: Wiring, e: World, step: Step, saved: Saved, r: Result, a: Option<Attempt>,
                       d: Deferred, s: State, log: seq<Event>): Trace
  {
    if d == DeferSuccess && a.Some? && w.finish then
      var log' := log + FinishLog(w, e, a, SideEffectStatus(r));
      match SideEffectResult(e, r)
      case Raises(x) => Boundary(w, e, step, saved.state, x, a, d, s, log')
      case Returns(r') => Stored(w, e, step, saved, r', s, log')
    else Stored(w, e, step, saved, r, s, log)
  }

  function Receipted(w: Wiring, e: World, step: Step, saved: Saved, r: Result, a: Option<Attempt>,
                     d: Deferred, s: State, log: seq<Event>): Trace
  {
    if a.Some? && w.receipt then
      match e.receipt(r)
      case Raises(x) => Boundary(w, e, step, saved.state, x, a, d, s, log + [Receipt])
      case Returns(r') => SideEffects(w, e, step, saved, r', a, d, s, log + [Receipt])
    else SideEffects(w, e, step, saved, r, a, d, s, log)
  }

  function Settled(w: Wiring, e: World, step: Step, saved: Saved, r: Result, a: Option<Attempt>,
                   d: Deferred, s: State, log: seq<Event>): Trace
  {
    if d == DeferFailed && a.Some? && w.finish then
      var log' := log + FinishLog(w, e, a, Failed);
      match e.finish(Failed)
      case Raises(x) => Boundary(w, e, step, saved.state, x, a, d, s, log')
      case Returns(_) => Receipted(w, e, step, saved, r, a, NotDeferred, s, log')
    else Receipted(w, e, step, saved, r, a, d, s, log)
  }

  /** One call of `execute`. */
  function Execute(w: Wiring, e: World, step: Step, before: State): Trace {
    var b := Dispatch(w, e, step, before);
    match b.outcome
    case Raises(x) => Boundary(w, e, step, before, x, None, NotDeferred, b.state, b.log)
    case Returns(r) =>
      var s := BoundedState(e, r, before, b.state);
      match BoundedOutcome(e, r, before, b.state)
      case Raises(x) => Boundary(w, e, step, before, x, b.attempt, b.deferred, s, b.log)
      case Returns(bounded) =>
        Settled(w, e, step, Saved(before, Overflows(e, r, before, b.state)), bounded, b.attempt, b.deferred, s, b.log)
  }
}
