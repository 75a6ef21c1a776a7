/** From the capture loop to the step's result: what a caller sees when a shell command passes
    its output ceiling. */
module ShellOverflow {
  import opened Values
  import opened Outcomes
  import opened TypedSpec
  import opened Protocol
  import opened StepProperties
  import opened Capture
  import CaptureLoop
  import Envelope
  import Evidence

  /** The policy limit in the execution controls, as the connector receives them. */
  function PolicyOf(s: State): Option<Value> {
    var controls := Get(s, "execution_controls");
    if controls.Dict? && "max_output_bytes" in controls.fields then Some(controls.fields["max_output_bytes"]) else None
  }

  /** A capture that passed the ceiling resolved from the connector's configuration and the
      controls in force, together with everything its report is rendered with. */
  datatype Overflow = Overflow(result: BoundedResult, configured: Value, sha: seq<Byte> -> string,
                               text: seq<Byte> -> string, redact: string -> string)
  {
    function Limit(s: State): Option<nat> { ResolveLimit(configured, PolicyOf(s)) }

    ghost predicate Sound(s: State) {
      Limit(s).Some? && Coherent(result, Limit(s).value) && result.exceeded
    }

    function Data(s: State): Mapping
      requires Limit(s).Some?
    {
      Evidence.ShellData(result, Limit(s).value, sha, text, redact)
    }

    /** The evidence the executor makes of the report, with this record. */
    function Rebuilt(s: State, record: Option<Evidence.Record>): Option<Mapping>
      requires Limit(s).Some?
    {
      Envelope.Enveloped(Evidence.Rebuilt(
        Evidence.ReportedFacts(result, Limit(s).value, Evidence.Shown(sha, redact)), record))
    }

    /** The report is readable and the limits agree: a policy limit is in force, or the configured
        one is not above the executor's default. */
    predicate Agrees(s: State)
      requires Limit(s).Some?
    {
      && Evidence.Spelled(result, sha, redact)
      && (PolicyOf(s).Some? || ValidateLimit(configured).value <= Evidence.DEFAULT_LIMIT)
    }
  }

  /** Every child run under the resolved limit that finishes past its ceiling gives such a capture. */
  lemma {:induction false} CapturedOverflow(c: CaptureLoop.Child, limit: nat, deadline: int, passes: nat,
                                            o: Overflow, s: State)
    requires o.Limit(s) == Some(limit) && CaptureLoop.ReadsBounded(c) && o.result.exceeded
    requires CaptureLoop.Ends(CaptureLoop.Passes(c, limit, deadline), passes)
    requires CaptureLoop.OutcomeOf(c, limit, deadline, CaptureLoop.Finished(o.result))
    ensures ValidateLimit(Int(limit)) == Some(limit) && o.Sound(s)
    ensures CaptureLoop.Tripped(CaptureLoop.After(CaptureLoop.Passes(c, limit, deadline), passes).log)
  {
    CaptureLoop.FinishedRun(c, limit, deadline, passes, o.result);
  }

  lemma {:induction false} OverflowChecks(o: Overflow, s: State, record: Option<Evidence.Record>)
    requires o.Sound(s)
    ensures LimitOf(s).Some?
    ensures (Evidence.BoundedEvidence(Evidence.CandidateOutput(o.Data(s)), LimitOf(s).value, record)
             == if o.Agrees(s) then o.Rebuilt(s, record) else None)
  {
    Evidence.OverflowReportAccepted(o.result, o.configured, PolicyOf(s), record, o.sha, o.text, o.redact);
  }

  function Candidate(o: Overflow, stepId: string, s: State): Result
    requires o.Limit(s).Some?
  {
    Failure(stepId, Evidence.CandidateOutput(o.Data(s)), "connector output limit exceeded")
  }

  /** The record the executor takes of the redacted report. */
  function CandidateRecord(e: World, o: Overflow, s: State): Outcome<Evidence.Record>
    requires o.Limit(s).Some?
  {
    OverflowEncoded(e, Candidate(o, "", s))
  }

  /** The evidence of the report, if it is accepted: the limits agree, it fits its envelope with and
      without the record, and the record can be taken. */
  function Accepted(e: World, o: Overflow, s: State): Option<Mapping>
    requires o.Limit(s).Some?
  {
    if !o.Agrees(s) || o.Rebuilt(s, None).None? || CandidateRecord(e, o, s).Raises? then None
    else o.Rebuilt(s, Some(CandidateRecord(e, o, s).value))
  }

  /** A failure that carries the measured facts if the report is accepted, and is marked as
      invalid evidence if it is not. */
  ghost predicate Reports(e: World, o: Overflow, s: State, r: Result)
    requires o.Limit(s).Some?
  {
    && !r.success
    && match Accepted(e, o, s)
       case Some(evidence) => r.output == evidence
       case None => Get(r.output, "error_class") == Str(Evidence.VALIDATION_FAILED)
  }

  lemma {:induction false} CheckedReport(stepId: string, check: Option<Evidence.Record> -> Option<Mapping>,
                                         encoded: Outcome<Evidence.Record>)
    requires NotFatal(encoded)
    ensures var o := CheckedOverflow(stepId, check, encoded);
      && o.Returns? && !o.value.success
      && if check(None).Some? && encoded.Returns? && check(Some(encoded.value)).Some?
         then o.value.output == check(Some(encoded.value)).value
         else Get(o.value.output, "error_class") == Str(Evidence.VALIDATION_FAILED)
  {
    InvalidReported(stepId);
  }

  lemma {:induction false} InvalidReported(stepId: string)
    ensures var o := InvalidEvidenceResult(stepId);
      o.Returns? && !o.value.success && Get(o.value.output, "error_class") == Str(Evidence.VALIDATION_FAILED)
  {
    Evidence.InvalidEvidenceFits();
  }

  lemma {:induction false} OverflowRendered(e: World, o: Overflow, stepId: string, s: State)
    requires o.Sound(s) && NotFatal(CandidateRecord(e, o, s))
    ensures LimitOf(s).Some?
    ensures var outcome := OverflowResult(e, Candidate(o, stepId, s), LimitOf(s).value);
      outcome.Returns? && Reports(e, o, s, outcome.value)
  {
    var encoded := CandidateRecord(e, o, s);
    OverflowChecks(o, s, None);
    if encoded.Returns? { OverflowChecks(o, s, Some(encoded.value)); }
    var output, limit := Candidate(o, stepId, s).output, LimitOf(s).value;
    CheckedReport(stepId, OverflowCheck(output, limit), encoded);
  }

  /** The report of an overflowing shell command, as the executor bounds it. */
  lemma {:induction false} OverflowBounded(e: World, o: Overflow, stepId: string, before: State, s: State)
    requires o.Sound(s) && NotFatal(CandidateRecord(e, o, s))
    ensures var r := Candidate(o, stepId, s);
      && IsCandidate(r) && BoundedState(e, r, before, s) == before
      && BoundedOutcome(e, r, before, s).Returns?
      && Reports(e, o, s, BoundedOutcome(e, r, before, s).value)
  {
    OverflowRendered(e, o, stepId, s);
    CandidateOutcome(e, Candidate(o, stepId, s), before, s);
  }

  lemma {:induction false} CandidateOutcome(e: World, r: Result, before: State, s: State)
    requires IsCandidate(r) && LimitOf(s).Some?
    ensures BoundedState(e, r, before, s) == before
    ensures BoundedOutcome(e, r, before, s) == OverflowResult(e, r, LimitOf(s).value)
  {
  }

  // ---------------------------------------------------------------- from the report to the caller

  function Boundaried(step: Step, x: Exn): Ending {
    if x.Fatal? then Escapes(x) else Done(ExceptionResult(step.id, x, "connector execution failed"))
  }

  /** A receipt handler's answer: a failure is passed on, a success is stored over the old state. If
      that raises, what was stored so far stays: the old state has been put back as it is. */
  function ReceiptAnswer(step: Step, before: State, r: Result): (Ending, State) {
    if !r.success then (Done(r), before)
    else
      match Store("connector", r, before)
      case Raises(x) => (Boundaried(step, x), HalfStored(before, r))
      case Returns(s) => (Done(r), s)
  }

  /** What becomes of a failed result once it is handed on: the finish handler may raise, and a
      receipt handler may put any answer in its place. */
  function HandedOn(w: Wiring, e: World, step: Step, before: State, a: Option<Attempt>, r: Result): (Ending, State) {
    if a.Some? && w.finish && e.finish(Failed).Raises? then (Boundaried(step, e.finish(Failed).exn), before)
    else if a.Some? && w.receipt then
      match e.receipt(r)
      case Raises(x) => (Boundaried(step, x), before)
      case Returns(r') => ReceiptAnswer(step, before, r')
    else (Done(r), before)
  }

  lemma {:induction false} FailedSettles(w: Wiring, e: World, step: Step, before: State, r: Result, a: Option<Attempt>, log: seq<Event>)
    requires step.kind == "connector" && !r.success
    ensures var t := Settled(w, e, step, Saved(before, true), r, a, DeferFailed, before, log);
      (t.ending, t.state) == HandedOn(w, e, step, before, a, r)
  {
    if a.Some? && w.receipt && e.receipt(r).Returns? && e.receipt(r).value.success {
      StoreReturns(e.receipt(r).value, before);
    }
  }

  /** End to end, for every wiring: when a shell command passes its ceiling, the result handed on is
      a failure with the measured sizes, flags and digests if the report is accepted, and one
      marked as invalid evidence if not. The caller gets that result, or what the receipt handler
      made of it, or the exception that came instead; the shared state is as it was unless a
      receipt handler turned the failure into a success. */
  lemma {:induction false} ShellOverflowReported(w: Wiring, e: World, step: Step, before: State, o: Overflow)
    returns (handed: Result)
    requires Cleared(w, e, step, before)
    requires var s := StartedState(w, e, Gates(w, e, step, before).state);
      && o.Sound(s) && NotFatal(CandidateRecord(e, o, s))
      && e.invoke.Returns? && !e.invoke.value.success && e.invoke.value.data == Dict(o.Data(s))
    ensures Reports(e, o, StartedState(w, e, Gates(w, e, step, before).state), handed)
    ensures var t := Execute(w, e, step, before);
      (t.ending, t.state) == HandedOn(w, e, step, before, AttemptOf(w, e), handed)
  {
    var g := Gates(w, e, step, before).state;
    var s := StartedState(w, e, g);
    var b := Dispatch(w, e, step, before);
    ReachingBranch(w, e, step, g);
    assert OverflowCandidate(e.invoke.value) by {
      assert Get(o.Data(s), "output_limit_exceeded") == Bool(true);
    }
    var r := Candidate(o, step.id, s);
    assert b.outcome == Returns(r) && b.state == s && b.deferred == DeferFailed && b.attempt == AttemptOf(w, e);
    OverflowBounded(e, o, step.id, before, s);
    handed := BoundedOutcome(e, r, before, s).value;
    FailedSettles(w, e, step, before, handed, b.attempt, b.log);
  }
}
