/** The step executor itself: it mutates one shared state in place, calls its handlers in
    sequence, and restores the state where the protocol says so. Every method is proved to do
    what the protocol's functions say. */
module Executor {
  import opened Values
  import opened Outcomes
  import opened TypedSpec
  import opened Protocol
  import Evidence

  class StepContext {
    var shared: State
    ghost var log: seq<Event>

    constructor (shared: State)
      ensures this.shared == shared && log == []
    {
      this.shared, log := shared, [];
    }
  }

  class StepExecutor {
    const w: Wiring

    constructor (w: Wiring)
      ensures this.w == w
    {
      this.w := w;
    }

    /** Call the finish handler for an attempt, if both are there. */
    method CallFinish(ctx: StepContext, e: World, a: Option<Attempt>, status: Status) returns (o: Outcome<()>)
      modifies ctx
      ensures o == FinishOutcome(w, e, a, status)
      ensures ctx.shared == old(ctx.shared) && ctx.log == old(ctx.log) + FinishLog(w, e, a, status)
    {
      o := Returns(());
      if a.Some? && w.finish {
        o := e.finish(status);
        ctx.log := ctx.log + [Finish(status, o.Returns?)];
      }
    }

    /** Compile and bind the step's spec in the shared state. */
    method BindTypedSpec(ctx: StepContext, step: Step, e: World) returns (o: Outcome<Option<Spec>>)
      modifies ctx
      ensures ctx.log == old(ctx.log)
      ensures match BindSpec(e, step, old(ctx.shared))
        case Raises(x) => o == Raises(x) && ctx.shared == old(ctx.shared)
        case Returns((spec, s)) => o == Returns(spec) && ctx.shared == s
    {
      var typed := TypedContextOf(ctx.shared, step.connector);
      if typed.Inactive? {
        return Returns(None);
      }
      if typed.MissingConnector? {
        return Raises(ValidationError("connector not configured: " + Strip(step.connector)));
      }
      if e.compile.Raises? {
        return Raises(e.compile.exn);
      }
      var bound := Bind(ctx.shared, step.id, e.compile.value);
      if bound.Raises? {
        return Raises(bound.exn);
      }
      ctx.shared := bound.value;
      o := Returns(Some(e.compile.value));
    }

    /** Bind, admit and check the posture; `None` when the step may start. */
    method PassGates(ctx: StepContext, step: Step, e: World) returns (stop: Option<Outcome<Result>>)
      modifies ctx
      ensures ctx.log == old(ctx.log)
      ensures match Gates(w, e, step, old(ctx.shared))
        case Pass(s) => stop == None && ctx.shared == s
        case Refuse(r, s) => stop == Some(Returns(r)) && ctx.shared == s
        case Abort(x, s) => stop == Some(Raises(x)) && ctx.shared == s
    {
      var bound := BindTypedSpec(ctx, step, e);
      if bound.Raises? {
        var x := bound.exn;
        if x.Known? && x.validation {
          return Some(Returns(Failure(step.id, map["error_class" := Str(Evidence.VALIDATION_FAILED)], e.redactText(x.text))));
        }
        return Some(Raises(x));
      }
      if bound.value.Some? {
        if e.admit.Raises? {
          return Some(Raises(e.admit.exn));
        }
        var admission := e.admit.value;
        var recorded := RecordAdmission(ctx.shared, bound.value.value.stepId, admission);
        if recorded.Raises? {
          return Some(Raises(recorded.exn));
        }
        ctx.shared := recorded.value;
        if GovernedMutation(w, step) {
          if e.precheck.Raises? {
            return Some(Raises(e.precheck.exn));
          }
        } else if !admission.allowed {
          return Some(Returns(Denied(e, step.id, admission)));
        }
      }
      if e.posture.Raises? {
        return Some(Raises(e.posture.exn));
      }
      stop := None;
    }

    /** Call the connector and classify its answer. */
    method InvokeConnector(ctx: StepContext, step: Step, e: World, a: Option<Attempt>)
      returns (o: Outcome<Result>, attempt: Option<Attempt>, deferred: Deferred)
      modifies ctx
      ensures Branch(o, attempt, deferred, ctx.shared, ctx.log)
           == Invoked(w, e, step, a, old(ctx.shared), old(ctx.log))
    {
      ctx.log := ctx.log + [Invoke];
      attempt, deferred := a, NotDeferred;
      if e.invoke.Raises? {
        var finished := CallFinish(ctx, e, a, Indeterminate);
        return Raises(if finished.Raises? then finished.exn else e.invoke.exn), None, NotDeferred;
      }
      var r := e.invoke.value;
      if OverflowCandidate(r) {
        o := Returns(Failure(step.id, Evidence.CandidateOutput(r.data.fields), "connector output limit exceeded"));
        deferred := DeferFailed;
        return;
      }
      var data := DataOf(e, r);
      if data.Raises? {
        return Raises(data.exn), None, NotDeferred;
      }
      var status: Status;
      if !r.success {
        o, status := Returns(Failure(step.id, FailedOutput(e, r, data.value), e.redactText(r.error))), Failed;
      } else {
        o, status := Returns(Succeeded(step.id, CompletedOutput(e, r, data.value))), Completed;
        if a.Some? && a.value.sideEffectful {
          deferred := DeferSuccess;
          return;
        }
      }
      var finished := CallFinish(ctx, e, a, status);
      if finished.Raises? {
        o, attempt := Raises(finished.exn), None;
      }
    }

    /** The last check before I/O, failing closed, and then the connector. */
    method GuardedInvoke(ctx: StepContext, step: Step, e: World, a: Option<Attempt>)
      returns (o: Outcome<Result>, attempt: Option<Attempt>, deferred: Deferred)
      modifies ctx
      ensures Branch(o, attempt, deferred, ctx.shared, ctx.log)
           == Guarded(w, e, step, a, old(ctx.shared), old(ctx.log))
    {
      if a.Some? && w.preIO {
        ctx.log := ctx.log + [PreIO];
        if e.preIO.Raises? {
          var x := e.preIO.exn;
          if x.Fatal? {
            return Raises(x), None, NotDeferred;
          }
          o, attempt, deferred :=
            Returns(ExceptionResult(step.id, x, "pre-I/O execution validation failed")), None, NotDeferred;
          var finished := CallFinish(ctx, e, a, Failed);
          if finished.Raises? {
            o := Raises(finished.exn);
          }
          return;
        }
      }
      o, attempt, deferred := InvokeConnector(ctx, step, e, a);
    }

    method ExecuteConnector(ctx: StepContext, step: Step, e: World)
      returns (o: Outcome<Result>, attempt: Option<Attempt>, deferred: Deferred)
      requires ctx.log == []
      modifies ctx
      ensures Branch(o, attempt, deferred, ctx.shared, ctx.log) == ConnectorStep(w, e, step, old(ctx.shared))
    {
      var stop := PassGates(ctx, step, e);
      if stop.Some? {
        return stop.value, None, NotDeferred;
      }
      var a: Option<Attempt> := None;
      if w.start {
        ctx.shared := e.startEffect(ctx.shared);
        ctx.log := [Start(e.start.Returns? && e.start.value.Some?)];
        if e.start.Raises? {
          return Raises(e.start.exn), None, NotDeferred;
        }
        a := e.start.value;
      }
      o, attempt, deferred := GuardedInvoke(ctx, step, e, a);
    }

    /** Bound the output; an overflow restores the state. */
    method ApplyOutputControls(ctx: StepContext, e: World, r: Result, before: State)
      returns (o: Outcome<Result>, shared: bool)
      modifies ctx
      ensures ctx.log == old(ctx.log)
      ensures o == BoundedOutcome(e, r, before, old(ctx.shared))
      ensures ctx.shared == BoundedState(e, r, before, old(ctx.shared))
      ensures shared == Overflows(e, r, before, old(ctx.shared))
    {
      shared := false;
      var limit := LimitOf(ctx.shared);
      if limit.None? {
        o := Raises(ValidationError("invalid execution resource limits"));
        return;
      }
      if IsCandidate(r) {
        ctx.shared, shared := before, true;
        o := OverflowResult(e, r, limit.value);
        return;
      }
      var encoded := e.encode(RecordOf(r, before, ctx.shared));
      if encoded.Raises? {
        o := Raises(encoded.exn);
        return;
      }
      if encoded.value.bytes > limit.value {
        ctx.shared, shared := before, true;
        o := GenericOverflowResult(r.stepId, encoded.value, limit.value);
        return;
      }
      o := Returns(WithRecord(r, encoded.value));
    }

    method FinishSideEffectful(ctx: StepContext, e: World, a: Option<Attempt>, r: Result) returns (o: Outcome<Result>)
      requires a.Some? && w.finish
      modifies ctx
      ensures o == SideEffectResult(e, r)
      ensures ctx.shared == old(ctx.shared) && ctx.log == old(ctx.log) + FinishLog(w, e, a, SideEffectStatus(r))
    {
      var final := if r.success then r else IndeterminateOf(r);
      var finished := CallFinish(ctx, e, a, if final.success then Completed else Indeterminate);
      if finished.Raises? {
        return if finished.exn.Fatal? then Raises(finished.exn) else Returns(IndeterminateOf(final));
      }
      o := Returns(final);
    }

    /** The `except` clause of the step boundary. */
    method Rescue(ctx: StepContext, step: Step, e: World, before: State, x: Exn, a: Option<Attempt>, d: Deferred)
      returns (ending: Ending)
      modifies ctx
      ensures var t := Boundary(w, e, step, before, x, a, d, old(ctx.shared), old(ctx.log));
        ending == t.ending && ctx.shared == t.state && ctx.log == t.log
    {
      if x.Fatal? {
        return Escapes(x);
      }
      ctx.shared := before;
      var failure := ExceptionResult(step.id, x, "connector execution failed");
      if d == DeferSuccess && a.Some? && w.finish {
        var finished := FinishSideEffectful(ctx, e, a, failure);
        return if finished.Raises? then Escapes(finished.exn) else Done(finished.value);
      }
      ending := Done(failure);
    }

    /** From the bounded result to the end of the `try` block. */
    method Settle(ctx: StepContext, step: Step, e: World, saved: Saved, r: Result, a: Option<Attempt>, d: Deferred)
      returns (ending: Ending)
      modifies ctx
      ensures var t := Settled(w, e, step, saved, r, a, d, old(ctx.shared), old(ctx.log));
        ending == t.ending && ctx.shared == t.state && ctx.log == t.log
    {
      var bounded, deferred := r, d;
      if deferred == DeferFailed && a.Some? && w.finish {
        var finished := CallFinish(ctx, e, a, Failed);
        if finished.Raises? {
          ending := Rescue(ctx, step, e, saved.state, finished.exn, a, deferred);
          return;
        }
        deferred := NotDeferred;
      }
      if a.Some? && w.receipt {
        ctx.log := ctx.log + [Receipt];
        var receipt := e.receipt(bounded);
        if receipt.Raises? {
          ending := Rescue(ctx, step, e, saved.state, receipt.exn, a, deferred);
          return;
        }
        bounded := receipt.value;
      }
      if deferred == DeferSuccess && a.Some? && w.finish {
        var finished := FinishSideEffectful(ctx, e, a, bounded);
        if finished.Raises? {
          ending := Rescue(ctx, step, e, saved.state, finished.exn, a, deferred);
          return;
        }
        bounded, deferred := finished.value, NotDeferred;
      }
      if bounded.success {
        var stored := Store(step.kind, bounded, ctx.shared);
        if stored.Raises? {
          ending := Rescue(ctx, step, e, Restored(saved, step.kind, bounded), stored.exn, None, NotDeferred);
          return;
        }
        ctx.shared := stored.value;
      }
      ending := Done(bounded);
    }

    /** Execute one step. */
    method Execute(ctx: StepContext, step: Step, e: World) returns (ending: Ending)
      requires ctx.log == []
      modifies ctx
      ensures var t := Protocol.Execute(w, e, step, old(ctx.shared));
        ending == t.ending && ctx.shared == t.state && ctx.log == t.log
    {
      var before := ctx.shared;
      var o: Outcome<Result>;
      var attempt: Option<Attempt>, deferred := None, NotDeferred;
      if step.kind == "connector" {
        o, attempt, deferred := ExecuteConnector(ctx, step, e);
      } else {
        var local := LocalStep(w, e, step, ctx.shared);
        ctx.shared, o := local.state, local.outcome;
      }
      if o.Raises? {
        ending := Rescue(ctx, step, e, before, o.exn, None, NotDeferred);
        return;
      }
      var bounded, shared := ApplyOutputControls(ctx, e, o.value, before);
      if bounded.Raises? {
        ending := Rescue(ctx, step, e, before, bounded.exn, attempt, deferred);
        return;
      }
      ending := Settle(ctx, step, e, Saved(before, shared), bounded.value, attempt, deferred);
    }
  }
}
