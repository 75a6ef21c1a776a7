/** What holds over whole runs: any sequence of step executions over one shared state. */
module RunProperties {
  import opened Values
  import opened Outcomes
  import opened TypedSpec
  import opened Protocol
  import opened StepProperties

  // ---------------------------------------------------------------- bindings within one call

  /** The extension handlers leave the recorded spec bindings alone. */
  ghost predicate RespectsBindings(e: World) {
    forall s :: KeepsDigests(s, e.startEffect(s)) && KeepsDigests(s, e.handlerEffect(s))
  }

  lemma {:induction false} KeepsTransitive(a: State, b: State, c: State)
    requires KeepsDigests(a, b) && KeepsDigests(b, c)
    ensures KeepsDigests(a, c)
  {
  }

  lemma {:induction false} AdmissionKeepsDigests(w: Wiring, e: World, step: Step, spec: Spec, s: State)
    ensures KeepsDigests(s, AdmissionGate(w, e, step, spec, s).state)
  {
    if e.admit.Returns? && RecordAdmission(s, spec.stepId, e.admit.value).Returns? {
      RecordFacts(s, spec.stepId, e.admit.value);
    }
  }

  lemma {:induction false} BindKeepsDigests(e: World, step: Step, s: State)
    ensures var bound := BindSpec(e, step, s); bound.Returns? ==> KeepsDigests(s, bound.value.1)
  {
    if TypedContextOf(s, step.connector) == Active && e.compile.Returns? && Bind(s, step.id, e.compile.value).Returns? {
      BindFacts(s, step.id, e.compile.value);
    }
  }

  lemma {:induction false} GatesKeepDigests(w: Wiring, e: World, step: Step, s: State)
    ensures KeepsDigests(s, Gates(w, e, step, s).state)
  {
    BindKeepsDigests(e, step, s);
    match BindSpec(e, step, s) {
      case Raises(_) =>
      case Returns((None, _)) =>
      case Returns((Some(spec), s')) =>
        AdmissionKeepsDigests(w, e, step, spec, s');
        KeepsTransitive(s, s', AdmissionGate(w, e, step, spec, s').state);
    }
  }

  lemma {:induction false} DispatchKeepsDigests(w: Wiring, e: World, step: Step, s: State)
    requires RespectsBindings(e)
    ensures KeepsDigests(s, Dispatch(w, e, step, s).state)
  {
    if step.kind == "connector" {
      GatesKeepDigests(w, e, step, s);
      var g := Gates(w, e, step, s);
      if g.Pass? {
        AttemptedShape(w, e, step, g.state);
        KeepsTransitive(s, g.state, StartedState(w, e, g.state));
      }
    }
  }

  lemma {:induction false} StoreKeepsDigests(kind: string, r: Result, s: State)
    requires Store(kind, r, s).Returns?
    ensures KeepsDigests(s, Store(kind, r, s).value)
  {
    var s' := Store(kind, r, s).value;
    assert Get(s', SPECS) == Get(s, SPECS);
  }

  lemma {:induction false} HalfStoredKeepsDigests(s: State, r: Result)
    ensures Get(HalfStored(s, r), SPECS) == Get(s, SPECS) && KeepsDigests(s, HalfStored(s, r))
  {
  }

  /** Whatever happens in a call, and whether it returns, raises or is rolled back, a binding
      that was there before is there after with the same digest. */
  lemma {:induction false} BindingsSurvive(w: Wiring, e: World, step: Step, before: State)
    requires RespectsBindings(e)
    ensures KeepsDigests(before, Execute(w, e, step, before).state)
  {
    var t := Execute(w, e, step, before);
    var b := Dispatch(w, e, step, before);
    StepIsAtomic(w, e, step, before);
    DispatchKeepsDigests(w, e, step, before);
    var half := HalfWritten(w, e, step, before);
    if half.Some? { HalfStoredKeepsDigests(before, half.value); }
    if t.caught.None? && t.ending.Done? && t.ending.result.success {
      var s := if b.outcome.Returns? && Overflows(e, b.outcome.value, before, b.state) then before else b.state;
      StoreKeepsDigests(step.kind, t.ending.result, s);
      KeepsTransitive(before, s, t.state);
    }
  }

  /** The connector is called for a typed step only with the spec the step is bound to; a step
      bound to a blank digest is the exception the drift check leaves open. */
  lemma {:induction false} InvokedWithBoundSpec(w: Wiring, e: World, step: Step, before: State)
    requires Invoke in Execute(w, e, step, before).log
    requires TypedContextOf(before, step.connector) == Active
    ensures e.compile.Returns?
    ensures BoundDigest(before, step.id) == "" || Strip(e.compile.value.digest) == ""
      || Strip(e.compile.value.digest) == BoundDigest(before, step.id)
  {
    InvokedExactlyWhenCleared(w, e, step, before);
    assert BindSpec(e, step, before).Returns?;
  }

  // ---------------------------------------------------------------- runs

  datatype Call = Call(step: Step, world: World)

  /** The shared state after a run. */
  function StateAfter(w: Wiring, calls: seq<Call>, s: State): State {
    if calls == [] then s
    else StateAfter(w, calls[1..], Execute(w, calls[0].world, calls[0].step, s).state)
  }

  /** Everything a run called, in order. */
  function RunLog(w: Wiring, calls: seq<Call>, s: State): seq<Event> {
    if calls == [] then []
    else
      var t := Execute(w, calls[0].world, calls[0].step, s);
      t.log + RunLog(w, calls[1..], t.state)
  }

  lemma {:induction false} RunKeepsDigests(w: Wiring, calls: seq<Call>, s: State)
    requires forall c :: c in calls ==> RespectsBindings(c.world)
    ensures KeepsDigests(s, StateAfter(w, calls, s))
  {
    if calls != [] {
      var t := Execute(w, calls[0].world, calls[0].step, s);
      BindingsSurvive(w, calls[0].world, calls[0].step, s);
      RunKeepsDigests(w, calls[1..], t.state);
      KeepsTransitive(s, t.state, StateAfter(w, calls, s));
    }
  }

  /** Over a whole run: once a step is bound, every later invocation for it that compiles a
      spec compiles the bound one. */
  lemma {:induction false} RunInvokesBoundSpec(w: Wiring, calls: seq<Call>, s: State, next: Call)
    requires forall c :: c in calls ==> RespectsBindings(c.world)
    requires Entry(s, next.step.id).Some? && BoundDigest(s, next.step.id) != ""
    requires var s' := StateAfter(w, calls, s);
      && TypedContextOf(s', next.step.connector) == Active
      && Invoke in Execute(w, next.world, next.step, s').log
    ensures next.world.compile.Returns?
    ensures Strip(next.world.compile.value.digest) != "" ==>
      Strip(next.world.compile.value.digest) == BoundDigest(s, next.step.id)
  {
    var s' := StateAfter(w, calls, s);
    RunKeepsDigests(w, calls, s);
    InvokedWithBoundSpec(w, next.world, next.step, s');
  }

  /** Attempts a run opens and never finishes. */
  function LeftOpen(w: Wiring, calls: seq<Call>, s: State): nat {
    if calls == [] then 0
    else
      var c := calls[0];
      One(Opens(w, c.world, c.step, s) && Unfinished(w, c.world, c.step, s))
      + LeftOpen(w, calls[1..], Execute(w, c.world, c.step, s).state)
  }

  /** Over a whole run, signals included, every attempt opened is finished once, apart from those
      left open in one of the known ways. */
  lemma {:induction false} RunLedger(w: Wiring, calls: seq<Call>, s: State)
    requires w.finish
    ensures Opened(RunLog(w, calls, s)) == Finishes(RunLog(w, calls, s)) + LeftOpen(w, calls, s)
  {
    if calls != [] {
      var c := calls[0];
      var t := Execute(w, c.world, c.step, s);
      FinishedExactly(w, c.world, c.step, s);
      RunLedger(w, calls[1..], t.state);
      CountsAdd(t.log, RunLog(w, calls[1..], t.state));
    }
  }

  /** Attempts abandoned in one of the two calm ways. */
  function Abandoned(w: Wiring, calls: seq<Call>, s: State): nat {
    if calls == [] then 0
    else
      var c := calls[0];
      One(Opens(w, c.world, c.step, s) && Abandons(w, c.world, Gates(w, c.world, c.step, s).state))
      + Abandoned(w, calls[1..], Execute(w, c.world, c.step, s).state)
  }

  /** Over a run without signals those are the abandoned ones. */
  lemma {:induction false} CalmRunLedger(w: Wiring, calls: seq<Call>, s: State)
    requires w.finish && forall c :: c in calls ==> Calm(c.world)
    ensures Opened(RunLog(w, calls, s)) == Finishes(RunLog(w, calls, s)) + Abandoned(w, calls, s)
  {
    RunLedger(w, calls, s);
    LeftOpenWhenCalm(w, calls, s);
  }

  lemma {:induction false} LeftOpenWhenCalm(w: Wiring, calls: seq<Call>, s: State)
    requires forall c :: c in calls ==> Calm(c.world)
    ensures LeftOpen(w, calls, s) == Abandoned(w, calls, s)
  {
    if calls != [] {
      var c := calls[0];
      LeftOpenWhenCalm(w, calls[1..], Execute(w, c.world, c.step, s).state);
      if Opens(w, c.world, c.step, s) { UnfinishedWhenCalm(w, c.world, c.step, s); }
    }
  }

  // ---------------------------------------------------------------- where a binding is lost

  /** The exception a branch is left with once its finish handler was called. */
  function FinishedExn(w: Wiring, e: World, a: Option<Attempt>, status: Status, x: Exn): Exn {
    if FinishOutcome(w, e, a, status).Raises? then FinishOutcome(w, e, a, status).exn else x
  }

  /** Storing the result raises. */
  predicate StoreFails(r: Result, s: State) {
    r.success && !StorableIn(s, r)
  }

  /** From the bounded result on, the call is rolled back: the receipt handler raises, or the
      result that is left cannot be stored. */
  predicate SettlesBack(w: Wiring, e: World, a: Option<Attempt>, deferred: bool, r: Result, s: State) {
    match AfterReceipt(w, e, a, r)
    case Raises(x) => !x.Fatal?
    case Returns(r') =>
      if !(deferred && w.finish) then StoreFails(r', s)
      else
        match SideEffectResult(e, r')
        case Raises(_) => false
        case Returns(r'') => StoreFails(r'', s)
  }

  /** From an answer that could be read on: the finish handler raises, the limit in the controls is
      invalid, the record is an overflow or cannot be encoded, or settling goes back. */
  predicate AnswerGoesBack(w: Wiring, e: World, a: Option<Attempt>, deferred: bool, status: Status, r: Result,
                           before: State, s: State)
  {
    if !deferred && FinishOutcome(w, e, a, status).Raises? then !FinishOutcome(w, e, a, status).exn.Fatal?
    else if LimitOf(s).None? || IsCandidate(r) then true
    else
      match e.encode(RecordOf(r, before, s))
      case Raises(x) => !x.Fatal?
      case Returns(record) =>
        record.bytes > LimitOf(s).value || SettlesBack(w, e, a, deferred, WithRecord(r, record), s)
  }

  /** A call that invokes its connector is rolled back, in terms of what its handlers do. */
  predicate RollsBack(w: Wiring, e: World, step: Step, before: State) {
    var a, s := AttemptOf(w, e), StartedState(w, e, Gates(w, e, step, before).state);
    match e.invoke
    case Raises(x) => !FinishedExn(w, e, a, Indeterminate, x).Fatal?
    case Returns(r) =>
      if OverflowCandidate(r) then true
      else
        match DataOf(e, r)
        case Raises(x) => !x.Fatal?
        case Returns(data) =>
          AnswerGoesBack(w, e, a, DefersSuccess(a, r), AnswerStatus(r), Answered(e, step, r, data), before, s)
  }

  /** The state was put back: an exception was caught, or the output was over the limit. */
  predicate PutBack(w: Wiring, e: World, step: Step, before: State) {
    var b := Dispatch(w, e, step, before);
    || Execute(w, e, step, before).caught.Some?
    || (b.outcome.Returns? && Overflows(e, b.outcome.value, before, b.state))
  }

  lemma {:induction false} StoredBack(w: Wiring, e: World, step: Step, saved: Saved, r: Result, s: State, log: seq<Event>)
    requires step.kind == "connector"
    ensures Stored(w, e, step, saved, r, s, log).caught.Some? <==> StoreFails(r, s)
  {
    StoreReturns(r, s);
  }

  lemma {:induction false} SideEffectsBack(w: Wiring, e: World, step: Step, saved: Saved, r: Result,
                                           a: Option<Attempt>, d: Deferred, s: State, log: seq<Event>)
    requires step.kind == "connector" && (d == DeferSuccess ==> a.Some?)
    ensures (SideEffects(w, e, step, saved, r, a, d, s, log).caught.Some? <==>
      if !(d == DeferSuccess && w.finish) then StoreFails(r, s)
      else SideEffectResult(e, r).Returns? && StoreFails(SideEffectResult(e, r).value, s))
  {
    if d == DeferSuccess && w.finish {
      var log' := log + FinishLog(w, e, a, SideEffectStatus(r));
      if SideEffectResult(e, r).Returns? {
        StoredBack(w, e, step, saved, SideEffectResult(e, r).value, s, log');
      }
    } else {
      StoredBack(w, e, step, saved, r, s, log);
    }
  }

  lemma {:induction false} ReceiptedBack(w: Wiring, e: World, step: Step, saved: Saved, r: Result,
                                         a: Option<Attempt>, d: Deferred, s: State, log: seq<Event>)
    requires step.kind == "connector" && (d == DeferSuccess ==> a.Some?)
    ensures (Receipted(w, e, step, saved, r, a, d, s, log).caught.Some? <==>
      SettlesBack(w, e, a, d == DeferSuccess, r, s))
  {
    if a.Some? && w.receipt {
      match e.receipt(r) {
        case Raises(x) => BoundaryLog(w, e, step, saved.state, x, a, d, s, log + [Receipt]);
        case Returns(r') => SideEffectsBack(w, e, step, saved, r', a, d, s, log + [Receipt]);
      }
    } else {
      SideEffectsBack(w, e, step, saved, r, a, d, s, log);
    }
  }

  /** From a dispatched branch that returned an answer. */
  lemma {:induction false} AnsweredBack(w: Wiring, e: World, step: Step, before: State, b: Branch, status: Status)
    requires step.kind == "connector" && b.outcome.Returns? && Dispatch(w, e, step, before) == b
    requires b.deferred != DeferFailed && (b.deferred == DeferSuccess ==> b.attempt.Some?)
    requires b.deferred == NotDeferred ==> FinishOutcome(w, e, b.attempt, status).Returns?
    ensures (PutBack(w, e, step, before) <==>
      AnswerGoesBack(w, e, b.attempt, b.deferred == DeferSuccess, status, b.outcome.value, before, b.state))
  {
    var r, s := b.outcome.value, b.state;
    var back := BoundedState(e, r, before, s);
    match BoundedOutcome(e, r, before, s) {
      case Raises(x) => BoundaryLog(w, e, step, before, x, b.attempt, b.deferred, back, b.log);
      case Returns(r') =>
        ReceiptedBack(w, e, step, Saved(before, Overflows(e, r, before, s)), r', b.attempt, b.deferred, back, b.log);
    }
  }

  lemma {:induction false} RaisedIsCaught(w: Wiring, e: World, step: Step, before: State)
    requires Dispatch(w, e, step, before).outcome.Raises?
    ensures PutBack(w, e, step, before) <==> !Dispatch(w, e, step, before).outcome.exn.Fatal?
  {
    var b := Dispatch(w, e, step, before);
    BoundaryLog(w, e, step, before, b.outcome.exn, None, NotDeferred, b.state, b.log);
  }

  /** What an invocation that returned is left with. */
  lemma {:induction false} ReturnedBranch(w: Wiring, e: World, step: Step, a: Option<Attempt>, s: State, log: seq<Event>)
    requires Invoked(w, e, step, a, s, log).outcome.Returns?
    ensures e.invoke.Returns? && Invoked(w, e, step, a, s, log).state == s
    ensures OverflowCandidate(e.invoke.value) ==> IsCandidate(Invoked(w, e, step, a, s, log).outcome.value)
    ensures !OverflowCandidate(e.invoke.value) ==>
      var r, b := e.invoke.value, Invoked(w, e, step, a, s, log);
      && DataOf(e, r).Returns? && b.outcome.value == Answered(e, step, r, DataOf(e, r).value)
      && b.attempt == a && b.deferred == (if DefersSuccess(a, r) then DeferSuccess else NotDeferred)
      && (b.deferred == NotDeferred ==> FinishOutcome(w, e, a, AnswerStatus(r)).Returns?)
  {
  }

  /** The guards say exactly when a call that invokes its connector is put back. */
  lemma {:induction false} BackExactly(w: Wiring, e: World, step: Step, before: State)
    requires Cleared(w, e, step, before)
    ensures PutBack(w, e, step, before) <==> RollsBack(w, e, step, before)
  {
    var g := Gates(w, e, step, before).state;
    var a, s := AttemptOf(w, e), StartedState(w, e, g);
    ReachingBranch(w, e, step, g);
    var b := Dispatch(w, e, step, before);
    assert b == Invoked(w, e, step, a, s, Prelude(w, e));
    if b.outcome.Raises? {
      RaisedIsCaught(w, e, step, before);
      RaisingBack(w, e, step, a, s, Prelude(w, e));
    } else {
      ReturnedBranch(w, e, step, a, s, Prelude(w, e));
      if OverflowCandidate(e.invoke.value) {
        CandidateBack(w, e, step, before, b);
      } else {
        AnsweredBack(w, e, step, before, b, AnswerStatus(e.invoke.value));
      }
    }
  }

  /** The branches that raise instead of answering. */
  lemma {:induction false} RaisingBack(w: Wiring, e: World, step: Step, a: Option<Attempt>, s: State, log: seq<Event>)
    requires Invoked(w, e, step, a, s, log).outcome.Raises?
    ensures var x := Invoked(w, e, step, a, s, log).outcome.exn;
      match e.invoke
      case Raises(y) => x == FinishedExn(w, e, a, Indeterminate, y)
      case Returns(r) =>
        && !OverflowCandidate(r)
        && match DataOf(e, r)
           case Raises(y) => x == y
           case Returns(_) => !DefersSuccess(a, r) && FinishOutcome(w, e, a, AnswerStatus(r)) == Raises(x)
  {
  }

  /** An overflow report always puts the state back. */
  lemma {:induction false} CandidateBack(w: Wiring, e: World, step: Step, before: State, b: Branch)
    requires Dispatch(w, e, step, before) == b && b.outcome.Returns? && IsCandidate(b.outcome.value)
    ensures PutBack(w, e, step, before)
  {
    if LimitOf(b.state).None? {
      var x := ValidationError("invalid execution resource limits");
      BoundaryLog(w, e, step, before, x, b.attempt, b.deferred, b.state, b.log);
    }
  }

  /** Passing the gates of a typed step means its admission was recorded over its binding. */
  lemma {:induction false} TypedGates(w: Wiring, e: World, step: Step, s: State)
    requires Gates(w, e, step, s).Pass? && TypedContextOf(s, step.connector) == Active
    ensures e.compile.Returns? && Bind(s, step.id, e.compile.value).Returns? && e.admit.Returns?
    ensures RecordAdmission(Bind(s, step.id, e.compile.value).value, e.compile.value.stepId, e.admit.value)
         == Returns(Gates(w, e, step, s).state)
  {
    var bound := BindSpec(e, step, s);
    assert bound.Returns?;
    var spec, s' := e.compile.value, Bind(s, step.id, e.compile.value).value;
    assert Gates(w, e, step, s) == AdmissionGate(w, e, step, spec, s');
  }

  lemma {:induction false} GatesBind(w: Wiring, e: World, step: Step, s: State)
    requires Gates(w, e, step, s).Pass? && TypedContextOf(s, step.connector) == Active && Unbound(s, step.id)
    ensures e.compile.Returns?
    ensures var s' := Gates(w, e, step, s).state;
      Entry(s', step.id).Some? && BoundDigest(s', step.id) == Strip(e.compile.value.digest)
  {
    TypedGates(w, e, step, s);
    var spec := e.compile.value;
    BindFresh(s, step.id, spec);
    RecordFacts(Bind(s, step.id, spec).value, spec.stepId, e.admit.value);
  }

  lemma {:induction false} DispatchBinds(w: Wiring, e: World, step: Step, before: State)
    requires RespectsBindings(e) && Unbound(before, step.id)
    requires TypedContextOf(before, step.connector) == Active && Cleared(w, e, step, before)
    ensures e.compile.Returns?
    ensures var s := Dispatch(w, e, step, before).state;
      Entry(s, step.id).Some? && BoundDigest(s, step.id) == Strip(e.compile.value.digest)
  {
    GatesBind(w, e, step, before);
    DispatchShape(w, e, step, before);
    var g := Gates(w, e, step, before).state;
    assert KeepsDigests(g, StartedState(w, e, g));
  }

  /** The exact condition: the first invocation of a typed step leaves it bound to its spec if
      and only if the call is not rolled back. */
  lemma {:induction false} BoundUnlessRolledBack(w: Wiring, e: World, step: Step, before: State)
    requires RespectsBindings(e) && Unbound(before, step.id)
    requires TypedContextOf(before, step.connector) == Active
    requires Invoke in Execute(w, e, step, before).log
    ensures e.compile.Returns?
    ensures var t := Execute(w, e, step, before);
      && (Entry(t.state, step.id).Some? <==> !RollsBack(w, e, step, before))
      && (!RollsBack(w, e, step, before) ==> BoundDigest(t.state, step.id) == Strip(e.compile.value.digest))
  {
    InvokedExactlyWhenCleared(w, e, step, before);
    BackExactly(w, e, step, before);
    BoundUnlessPutBack(w, e, step, before);
  }

  lemma {:induction false} BoundUnlessPutBack(w: Wiring, e: World, step: Step, before: State)
    requires RespectsBindings(e) && Unbound(before, step.id)
    requires TypedContextOf(before, step.connector) == Active && Cleared(w, e, step, before)
    ensures e.compile.Returns?
    ensures var t := Execute(w, e, step, before);
      && (Entry(t.state, step.id).Some? <==> !PutBack(w, e, step, before))
      && (!PutBack(w, e, step, before) ==> BoundDigest(t.state, step.id) == Strip(e.compile.value.digest))
  {
    var b := Dispatch(w, e, step, before);
    DispatchBinds(w, e, step, before);
    StepIsAtomic(w, e, step, before);
    BoundAsLeft(step.kind, before, b.state, Execute(w, e, step, before),
                b.outcome.Returns? && Overflows(e, b.outcome.value, before, b.state), step.id,
                HalfWritten(w, e, step, before));
  }

  /** What a call leaves of the binding its branch made. */
  lemma {:induction false} BoundAsLeft(kind: string, before: State, bound: State, t: Trace, overflow: bool, stepId: string,
                                       half: Option<Result>)
    requires Unbound(before, stepId) && Entry(bound, stepId).Some?
    requires t.caught.Some? ==> t.state == if half.Some? then HalfStored(before, half.value) else before
    requires var s := if overflow then before else bound;
      && (t.caught.None? && t.ending.Done? && t.ending.result.success ==> Store(kind, t.ending.result, s) == Returns(t.state))
      && (t.caught.None? && !(t.ending.Done? && t.ending.result.success) ==> t.state == s)
    ensures Entry(t.state, stepId).Some? <==> t.caught.None? && !overflow
    ensures t.caught.None? && !overflow ==> BoundDigest(t.state, stepId) == BoundDigest(bound, stepId)
  {
    if half.Some? { HalfStoredKeepsDigests(before, half.value); }
    if t.caught.None? && t.ending.Done? && t.ending.result.success {
      StoreSparesSpecs(kind, t.ending.result, if overflow then before else bound);
    }
  }

  lemma {:induction false} StoreSparesSpecs(kind: string, r: Result, s: State)
    requires Store(kind, r, s).Returns?
    ensures Get(Store(kind, r, s).value, SPECS) == Get(s, SPECS)
  {
  }

  // ---------------------------------------------------------------- two specs for one step

  const TYPED_STATE: State :=
    map["execution_context" := Dict(map["profile_root" := Str("p"), "connectors" := Dict(map["db" := Dict(map[])])])]

  function SpecOf(digest: string): Spec {
    Spec("s1", digest, "", "", "", None)
  }

  /** Handlers that all return, for a step compiled to this digest. */
  function TypedWorld(digest: string, invoke: Outcome<Response>): World {
    SmoothWorld().(compile := Returns(SpecOf(digest)),
                   admit := Returns(Admission(true, "", [], "", "", map[])), invoke := invoke)
  }

  lemma {:induction false} TypedStateIsActive()
    ensures TypedContextOf(TYPED_STATE, "db") == Active && Unbound(TYPED_STATE, "s1") && ADMISSIONS !in TYPED_STATE
  {
    var context := Get(TYPED_STATE, "execution_context").fields;
    assert Get(context, "profile_root") == Str("p");
    StripOfUnpadded("p");
    StripOfUnpadded("db");
  }

  lemma {:induction false} TypedWorldClears(digest: string, invoke: Outcome<Response>)
    ensures Cleared(FULL_WIRING, TypedWorld(digest, invoke), WRITE, TYPED_STATE)
  {
    var e, s := TypedWorld(digest, invoke), TYPED_STATE;
    TypedStateIsActive();
    BindFresh(s, "s1", SpecOf(digest));
    var s' := Bind(s, "s1", SpecOf(digest)).value;
    assert BindSpec(e, WRITE, s) == Returns((Some(SpecOf(digest)), s'));
    assert ADMISSIONS !in s';
  }

  /** Two specs with different digests, both taken to the connector for one step: the first call
      raises after the invocation, so the binding it made is forgotten. */
  lemma {:induction false} TwoSpecsInvoked()
    ensures var first, second := TypedWorld("a", Raises(Unknown)), TypedWorld("b", Raises(Unknown));
      var t := Execute(FULL_WIRING, first, WRITE, TYPED_STATE);
      && first.compile.value.digest != second.compile.value.digest
      && Invoke in t.log && t.state == TYPED_STATE
      && Invoke in Execute(FULL_WIRING, second, WRITE, t.state).log
  {
    TypedWorldClears("a", Raises(Unknown));
    TypedWorldClears("b", Raises(Unknown));
    RollbackForgetsBinding(FULL_WIRING, TypedWorld("a", Raises(Unknown)), WRITE, TYPED_STATE);
    InvokedExactlyWhenCleared(FULL_WIRING, TypedWorld("b", Raises(Unknown)), WRITE, TYPED_STATE);
  }

  /** A call whose connector raised, with an exception the boundary catches, leaves no binding,
      whatever it compiled. */
  lemma {:induction false} RollbackForgetsBinding(w: Wiring, e: World, step: Step, s: State)
    requires Cleared(w, e, step, s) && e.invoke.Raises?
    requires !FinishedExn(w, e, AttemptOf(w, e), Indeterminate, e.invoke.exn).Fatal?
    ensures Invoke in Execute(w, e, step, s).log && Execute(w, e, step, s).state == s
    ensures Unbound(s, step.id) ==> Entry(Execute(w, e, step, s).state, step.id) == None
  {
    InvokedExactlyWhenCleared(w, e, step, s);
    BackExactly(w, e, step, s);
    ReachingBranch(w, e, step, Gates(w, e, step, s).state);
    assert Dispatch(w, e, step, s).outcome.Raises?;
    StepIsAtomic(w, e, step, s);
  }
}
