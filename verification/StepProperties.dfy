/** What one step execution guarantees, whatever its handlers do. */
module StepProperties {
  import opened Values
  import opened Outcomes
  import opened TypedSpec
  import opened Protocol
  import Evidence

  // ---------------------------------------------------------------- reading a log

  function Rank(v: Event): nat {
    match v
    case Start(_) => 0
    case PreIO => 1
    case Invoke => 2
    case Finish(_, _) => 3
    case Receipt => 4
  }

  /** Start, pre-I/O check, invocation and finish come in this order and each at most once; a
      receipt is asked for at most once and never before the invocation. */
  ghost predicate Ordered(log: seq<Event>) {
    && (forall i, j :: 0 <= i < j < |log| && log[i] != Receipt && log[j] != Receipt ==> Rank(log[i]) < Rank(log[j]))
    && (forall i, j :: 0 <= i < j < |log| && log[i] == Receipt ==> log[j] != Receipt)
    && (forall i :: 0 <= i < |log| && log[i] == Receipt ==> Invoke in log[..i])
  }

  function Finishes(log: seq<Event>): nat {
    if log == [] then 0 else (if log[0].Finish? then 1 else 0) + Finishes(log[1..])
  }

  function Opened(log: seq<Event>): nat {
    if log == [] then 0 else (if log[0] == Start(true) then 1 else 0) + Opened(log[1..])
  }

  lemma {:induction false} CountsAdd(a: seq<Event>, b: seq<Event>)
    ensures Finishes(a + b) == Finishes(a) + Finishes(b)
    ensures Opened(a + b) == Opened(a) + Opened(b)
  {
    if a == [] {
      assert a + b == b;
    } else {
      CountsAdd(a[1..], b);
      assert (a + b)[1..] == a[1..] + b;
    }
  }

  lemma {:induction false} CountsOne(v: Event)
    ensures Finishes([v]) == if v.Finish? then 1 else 0
    ensures Opened([v]) == if v == Start(true) then 1 else 0
  {
    assert [v][1..] == [];
  }

  /** A receipt-free log in strictly ascending order, every event of a rank below `k`. */
  ghost predicate Upto(log: seq<Event>, k: nat) {
    && (forall i :: 0 <= i < |log| ==> Rank(log[i]) < k && log[i] != Receipt)
    && (forall i, j :: 0 <= i < j < |log| ==> Rank(log[i]) < Rank(log[j]))
  }

  // ---------------------------------------------------------------- the attempt stage

  /** The attempt in force once the start handler has returned. */
  function AttemptOf(w: Wiring, e: World): Option<Attempt> {
    if w.start && e.start.Returns? then e.start.value else None
  }

  /** The state once the start handler has returned. */
  function StartedState(w: Wiring, e: World, s: State): State {
    if w.start then e.startEffect(s) else s
  }

  /** The attempt stage goes as far as the connector. */
  predicate ReachesInvoke(w: Wiring, e: World) {
    && (w.start ==> e.start.Returns?)
    && (AttemptOf(w, e).Some? && w.preIO ==> e.preIO.Returns?)
  }

  function One(b: bool): nat { if b then 1 else 0 }

  lemma {:induction false} FinishedShape(w: Wiring, e: World, a: Option<Attempt>, status: Status, r: Outcome<Result>,
                                         reported: Option<Attempt>, s: State, log: seq<Event>)
    requires Upto(log, 3)
    ensures var b := Finished(w, e, a, status, r, reported, s, log);
      && Upto(b.log, 4) && log <= b.log
      && Finishes(b.log) == Finishes(log) + One(a.Some? && w.finish) && Opened(b.log) == Opened(log)
  {
    CountsAdd(log, FinishLog(w, e, a, status));
    CountsOne(Finish(status, e.finish(status).Returns?));
  }

  /** An answer nothing can be read from. */
  predicate Unreadable(e: World, r: Response) {
    !OverflowCandidate(r) && DataOf(e, r).Raises?
  }

  /** The connector answered with something nothing can be read from. */
  predicate Lost(e: World) {
    e.invoke.Returns? && Unreadable(e, e.invoke.value)
  }

  /** What the rest of the call needs to know of the attempt stage from the invocation on: an
      attempt whose finish is not deferred has had it exactly once, unless the answer was lost. */
  ghost predicate Shaped(w: Wiring, b: Branch, a: Option<Attempt>, s: State, log: seq<Event>, lost: bool) {
    && Upto(b.log, 4) && log <= b.log && b.state == s
    && (b.attempt.Some? ==> b.attempt == a)
    && (lost ==> b.outcome.Raises? && b.attempt == None && b.deferred == NotDeferred && Upto(b.log, 3))
    && (b.deferred != NotDeferred ==> Upto(b.log, 3) && b.outcome.Returns? && b.attempt == a)
    && (b.deferred == DeferFailed ==> IsCandidate(b.outcome.value))
    && (b.deferred == DeferSuccess ==> b.outcome.value.success)
    && Opened(b.log) == Opened(log)
    && Finishes(b.log) == Finishes(log) + One(a.Some? && w.finish && b.deferred == NotDeferred && !lost)
  }

  lemma {:induction false} RespondedShape(w: Wiring, e: World, step: Step, a: Option<Attempt>, r: Response,
                                          s: State, log: seq<Event>)
    requires Upto(log, 3)
    ensures var b := Responded(w, e, step, a, r, s, log);
      && Shaped(w, b, a, s, log, Unreadable(e, r))
      && (b.deferred == DeferFailed <==> OverflowCandidate(r))
      && (b.deferred == DeferSuccess <==> !Unreadable(e, r) && DefersSuccess(a, r))
  {
    if !OverflowCandidate(r) && DataOf(e, r).Returns? {
      FinishedShape(w, e, a, AnswerStatus(r), Returns(Answered(e, step, r, DataOf(e, r).value)), a, s, log);
    }
  }

  lemma {:induction false} InvokedShape(w: Wiring, e: World, step: Step, a: Option<Attempt>, s: State, log: seq<Event>)
    requires Upto(log, 2)
    ensures var b := Invoked(w, e, step, a, s, log);
      && Shaped(w, b, a, s, log + [Invoke], Lost(e)) && Opened(b.log) == Opened(log)
      && Finishes(b.log) == Finishes(log) + One(a.Some? && w.finish && b.deferred == NotDeferred && !Lost(e))
      && (b.deferred == DeferFailed <==> e.invoke.Returns? && OverflowCandidate(e.invoke.value))
      && (b.deferred == DeferSuccess <==> e.invoke.Returns? && !Lost(e) && DefersSuccess(a, e.invoke.value))
  {
    CountsAdd(log, [Invoke]);
    CountsOne(Invoke);
    match e.invoke {
      case Raises(x) => FinishedShape(w, e, a, Indeterminate, Raises(x), None, s, log + [Invoke]);
      case Returns(r) => RespondedShape(w, e, step, a, r, s, log + [Invoke]);
    }
  }

  /** Calls made before the connector. */
  function Prelude(w: Wiring, e: World): seq<Event> {
    (if w.start then [Start(AttemptOf(w, e).Some?)] else [])
    + (if AttemptOf(w, e).Some? && w.preIO then [PreIO] else [])
  }

  lemma {:induction false} PreludeShape(w: Wiring, e: World)
    ensures Upto(Prelude(w, e), 2) && Invoke !in Prelude(w, e)
    ensures Opened(Prelude(w, e)) == One(AttemptOf(w, e).Some?) && Finishes(Prelude(w, e)) == 0
  {
    var a := AttemptOf(w, e);
    var first: seq<Event> := if w.start then [Start(a.Some?)] else [];
    var second: seq<Event> := if a.Some? && w.preIO then [PreIO] else [];
    CountsAdd(first, second);
    CountsOne(Start(a.Some?));
    CountsOne(PreIO);
  }

  lemma {:induction false} ReachingBranch(w: Wiring, e: World, step: Step, s: State)
    requires ReachesInvoke(w, e)
    ensures Attempted(w, e, step, s) == Invoked(w, e, step, AttemptOf(w, e), StartedState(w, e, s), Prelude(w, e))
  {
    var a := AttemptOf(w, e);
    var first: seq<Event> := if w.start then [Start(a.Some?)] else [];
    assert Attempted(w, e, step, s) == Guarded(w, e, step, a, StartedState(w, e, s), first);
    if a.Some? && w.preIO {
      assert Prelude(w, e) == first + [PreIO];
    } else {
      assert Prelude(w, e) == first;
    }
  }

  lemma {:induction false} StoppingBranch(w: Wiring, e: World, step: Step, s: State)
    requires !ReachesInvoke(w, e)
    ensures var b := Attempted(w, e, step, s); var a := AttemptOf(w, e);
      && b.attempt == None && b.deferred == NotDeferred && b.state == StartedState(w, e, s)
      && b.log == Prelude(w, e) + if a.Some? && !e.preIO.exn.Fatal? then FinishLog(w, e, a, Failed) else []
  {
    var a := AttemptOf(w, e);
    if a.Some? {
      assert Prelude(w, e) == [Start(true)] + [PreIO];
      assert Attempted(w, e, step, s) == Guarded(w, e, step, a, StartedState(w, e, s), [Start(true)]);
    }
  }

  /** The attempt stage as a whole: the order of its calls, whether the connector is reached,
      when a finish is deferred, and how often an attempt is opened and finished. */
  ghost predicate Staged(w: Wiring, e: World, s: State, b: Branch) {
    var a := AttemptOf(w, e);
    var reaches := ReachesInvoke(w, e);
    && Upto(b.log, 4) && b.state == StartedState(w, e, s)
    && (Invoke in b.log <==> reaches)
    && (b.attempt.Some? ==> reaches && b.attempt == a)
    && (reaches && Lost(e) ==> b.outcome.Raises? && b.attempt == None && b.deferred == NotDeferred && Upto(b.log, 3))
    && (b.deferred != NotDeferred ==> reaches && Upto(b.log, 3) && b.outcome.Returns? && b.attempt == a)
    && (b.deferred == DeferFailed ==> IsCandidate(b.outcome.value))
    && (b.deferred == DeferSuccess ==> b.outcome.value.success)
    && Opened(b.log) == One(a.Some?)
    && (Finishes(b.log)
        == One(a.Some? && w.finish && b.deferred == NotDeferred && if reaches then !Lost(e) else !e.preIO.exn.Fatal?))
    && (b.deferred == DeferFailed <==> reaches && e.invoke.Returns? && OverflowCandidate(e.invoke.value))
    && (b.deferred == DeferSuccess <==>
          reaches && e.invoke.Returns? && !Lost(e) && DefersSuccess(a, e.invoke.value))
  }

  lemma {:induction false} ReachingShape(w: Wiring, e: World, s: State, b: Branch)
    requires ReachesInvoke(w, e)
    requires Shaped(w, b, AttemptOf(w, e), StartedState(w, e, s), Prelude(w, e) + [Invoke], Lost(e))
    requires Opened(b.log) == Opened(Prelude(w, e))
    requires (Finishes(b.log) == Finishes(Prelude(w, e))
                + One(AttemptOf(w, e).Some? && w.finish && b.deferred == NotDeferred && !Lost(e)))
    requires b.deferred == DeferFailed <==> e.invoke.Returns? && OverflowCandidate(e.invoke.value)
    requires (b.deferred == DeferSuccess <==>
      e.invoke.Returns? && !Lost(e) && DefersSuccess(AttemptOf(w, e), e.invoke.value))
    ensures Staged(w, e, s, b)
  {
    PreludeShape(w, e);
    assert b.log[|Prelude(w, e)|] == Invoke;
  }

  lemma {:induction false} StoppingShape(w: Wiring, e: World, s: State, b: Branch)
    requires !ReachesInvoke(w, e)
    requires b.attempt == None && b.deferred == NotDeferred && b.state == StartedState(w, e, s)
    requires b.log == Prelude(w, e) +
      if AttemptOf(w, e).Some? && !e.preIO.exn.Fatal? then FinishLog(w, e, AttemptOf(w, e), Failed) else []
    ensures Staged(w, e, s, b)
  {
    PreludeShape(w, e);
    var a := AttemptOf(w, e);
    var tail := if a.Some? && !e.preIO.exn.Fatal? then FinishLog(w, e, a, Failed) else [];
    CountsAdd(Prelude(w, e), tail);
    CountsOne(Finish(Failed, e.finish(Failed).Returns?));
  }

  lemma {:induction false} AttemptedShape(w: Wiring, e: World, step: Step, s: State)
    ensures Staged(w, e, s, Attempted(w, e, step, s))
  {
    if ReachesInvoke(w, e) {
      PreludeShape(w, e);
      ReachingBranch(w, e, step, s);
      InvokedShape(w, e, step, AttemptOf(w, e), StartedState(w, e, s), Prelude(w, e));
      ReachingShape(w, e, s, Attempted(w, e, step, s));
    } else {
      StoppingBranch(w, e, step, s);
      StoppingShape(w, e, s, Attempted(w, e, step, s));
    }
  }

  // ---------------------------------------------------------------- settling

  function FinishEvent(e: World, status: Status): Event {
    Finish(status, e.finish(status).Returns?)
  }

  /** How a side-effectful attempt is finished, given the result or exception it is left with. */
  function SideTail(e: World, o: Outcome<Result>): seq<Event> {
    match o
    case Raises(x) => if x.Fatal? then [] else [FinishEvent(e, Indeterminate)]
    case Returns(r) => [FinishEvent(e, SideEffectStatus(r))]
  }

  function AfterReceipt(w: Wiring, e: World, a: Option<Attempt>, r: Result): Outcome<Result> {
    if a.Some? && w.receipt then e.receipt(r) else Returns(r)
  }

  /** Everything called after the attempt stage, given the bounded result. */
  function TailLog(w: Wiring, e: World, o: Outcome<Result>, a: Option<Attempt>, d: Deferred): seq<Event> {
    var receipt: seq<Event> := if w.receipt then [Receipt] else [];
    if a.None? then []
    else if o.Raises? then (if d == DeferSuccess && w.finish then SideTail(e, o) else [])
    else if d == DeferFailed && w.finish then
      [FinishEvent(e, Failed)] + if e.finish(Failed).Raises? then [] else receipt
    else receipt + if d == DeferSuccess && w.finish then SideTail(e, AfterReceipt(w, e, a, o.value)) else []
  }

  lemma {:induction false} BoundaryLog(w: Wiring, e: World, step: Step, before: State, x: Exn, a: Option<Attempt>,
                                       d: Deferred, s: State, log: seq<Event>)
    ensures var t := Boundary(w, e, step, before, x, a, d, s, log);
      && t.log == log + (if d == DeferSuccess && a.Some? && w.finish then SideTail(e, Raises(x)) else [])
      && t.caught == (if x.Fatal? then None else Some(x))
      && (!x.Fatal? ==> t.state == before)
  {
    var failure := ExceptionResult(step.id, x, "connector execution failed");
    assert !failure.success;
    assert log + [] == log;
  }

  lemma {:induction false} StoredLog(w: Wiring, e: World, step: Step, saved: Saved, r: Result, s: State, log: seq<Event>)
    ensures var t := Stored(w, e, step, saved, r, s, log);
      t.log == log
  {
    if r.success && Store(step.kind, r, s).Raises? {
      BoundaryLog(w, e, step, Restored(saved, step.kind, r), Store(step.kind, r, s).exn, None, NotDeferred, s, log);
      assert log + [] == log;
    }
  }

  lemma {:induction false} SideEffectsLog(w: Wiring, e: World, step: Step, saved: Saved, r: Result, a: Option<Attempt>,
                                          d: Deferred, s: State, log: seq<Event>)
    ensures var t := SideEffects(w, e, step, saved, r, a, d, s, log);
      && t.log == log + (if d == DeferSuccess && a.Some? && w.finish then SideTail(e, Returns(r)) else [])
  {
    assert log + [] == log;
    if d == DeferSuccess && a.Some? && w.finish {
      var log' := log + FinishLog(w, e, a, SideEffectStatus(r));
      match SideEffectResult(e, r) {
        case Raises(x) => BoundaryLog(w, e, step, saved.state, x, a, d, s, log'); assert log' + [] == log';
        case Returns(r') => StoredLog(w, e, step, saved, r', s, log');
      }
    } else {
      StoredLog(w, e, step, saved, r, s, log);
    }
  }

  lemma {:induction false} ReceiptedLog(w: Wiring, e: World, step: Step, saved: Saved, r: Result, a: Option<Attempt>,
                                        d: Deferred, s: State, log: seq<Event>)
    ensures var t := Receipted(w, e, step, saved, r, a, d, s, log);
      && t.log == log + (if a.Some? && w.receipt then [Receipt] else [])
                      + (if d == DeferSuccess && a.Some? && w.finish then SideTail(e, AfterReceipt(w, e, a, r)) else [])
  {
    if a.Some? && w.receipt {
      match e.receipt(r) {
        case Raises(x) => BoundaryLog(w, e, step, saved.state, x, a, d, s, log + [Receipt]);
        case Returns(r') => SideEffectsLog(w, e, step, saved, r', a, d, s, log + [Receipt]);
      }
    } else {
      SideEffectsLog(w, e, step, saved, r, a, d, s, log);
      assert log + [] == log;
    }
  }

  lemma {:induction false} SettledLog(w: Wiring, e: World, step: Step, saved: Saved, r: Result, a: Option<Attempt>,
                                      d: Deferred, s: State, log: seq<Event>)
    ensures var t := Settled(w, e, step, saved, r, a, d, s, log);
      && t.log == log + TailLog(w, e, Returns(r), a, d)
  {
    if d == DeferFailed && a.Some? && w.finish {
      var log' := log + FinishLog(w, e, a, Failed);
      match e.finish(Failed) {
        case Raises(x) => BoundaryLog(w, e, step, saved.state, x, a, d, s, log');
        case Returns(_) => ReceiptedLog(w, e, step, saved, r, a, NotDeferred, s, log');
      }
    } else {
      ReceiptedLog(w, e, step, saved, r, a, d, s, log);
    }
  }

  // ---------------------------------------------------------------- the whole call

  /** The bounded result of the dispatched branch, or the exception in its place. */
  function BranchBound(e: World, b: Branch, before: State): Outcome<Result> {
    match b.outcome
    case Raises(x) => Raises(x)
    case Returns(r) => BoundedOutcome(e, r, before, b.state)
  }

  lemma {:induction false} ExecuteLog(w: Wiring, e: World, step: Step, before: State)
    ensures var b := Dispatch(w, e, step, before); var t := Execute(w, e, step, before);
      && t.log == b.log + (if b.outcome.Raises? then [] else TailLog(w, e, BranchBound(e, b, before), b.attempt, b.deferred))
  {
    var b := Dispatch(w, e, step, before);
    assert b.log + [] == b.log;
    match b.outcome {
      case Raises(x) => BoundaryLog(w, e, step, before, x, None, NotDeferred, b.state, b.log);
      case Returns(r) =>
        var s := BoundedState(e, r, before, b.state);
        match BoundedOutcome(e, r, before, b.state) {
          case Raises(x) => BoundaryLog(w, e, step, before, x, b.attempt, b.deferred, s, b.log);
          case Returns(bounded) =>
            SettledLog(w, e, step, Saved(before, Overflows(e, r, before, b.state)), bounded, b.attempt, b.deferred, s, b.log);
        }
    }
  }

  /** Everything that has to hold for the connector to be called. */
  predicate Cleared(w: Wiring, e: World, step: Step, s: State) {
    step.kind == "connector" && Gates(w, e, step, s).Pass? && ReachesInvoke(w, e)
  }

  lemma {:induction false} DispatchShape(w: Wiring, e: World, step: Step, s: State)
    ensures var b := Dispatch(w, e, step, s);
      if step.kind == "connector" && Gates(w, e, step, s).Pass?
      then b == Attempted(w, e, step, Gates(w, e, step, s).state) && Staged(w, e, Gates(w, e, step, s).state, b)
      else b.log == [] && b.attempt == None && b.deferred == NotDeferred
  {
    if step.kind == "connector" && Gates(w, e, step, s).Pass? {
      AttemptedShape(w, e, step, Gates(w, e, step, s).state);
    }
  }

  /** After the attempt stage come at most one finish and at most one receipt. */
  ghost predicate TailForm(tail: seq<Event>, mayFinish: bool) {
    && |tail| <= 2
    && (forall i :: 0 <= i < |tail| ==> tail[i] == Receipt || (mayFinish && tail[i].Finish?))
    && (|tail| == 2 ==> (tail[0] == Receipt) != (tail[1] == Receipt))
  }

  lemma {:induction false} TailForms(w: Wiring, e: World, o: Outcome<Result>, a: Option<Attempt>, d: Deferred)
    ensures TailForm(TailLog(w, e, o, a, d), d != NotDeferred && w.finish)
    ensures a.None? ==> TailLog(w, e, o, a, d) == []
  {
  }

  lemma {:induction false} ConcatAt(a: seq<Event>, b: seq<Event>, i: nat)
    requires i < |a| + |b|
    ensures (a + b)[i] == if i < |a| then a[i] else b[i - |a|]
  {
  }

  lemma {:induction false} AppendTail(log: seq<Event>, tail: seq<Event>, mayFinish: bool)
    requires Upto(log, 4) && (mayFinish ==> Upto(log, 3)) && TailForm(tail, mayFinish)
    requires tail != [] ==> Invoke in log
    ensures Ordered(log + tail)
    ensures Invoke in log + tail <==> Invoke in log
  {
    var all, n := log + tail, |log|;
    forall i, j | 0 <= i < j < |all| && all[i] != Receipt && all[j] != Receipt ensures Rank(all[i]) < Rank(all[j]) {
      ConcatAt(log, tail, i);
      ConcatAt(log, tail, j);
    }
    forall i, j | 0 <= i < j < |all| && all[i] == Receipt ensures all[j] != Receipt {
      ConcatAt(log, tail, i);
      ConcatAt(log, tail, j);
    }
    forall i | 0 <= i < |all| && all[i] == Receipt ensures Invoke in all[..i] {
      ConcatAt(log, tail, i);
      assert all[..i] == log + tail[..i - n];
    }
  }

  lemma {:induction false} TailShape(w: Wiring, e: World, o: Outcome<Result>, a: Option<Attempt>, d: Deferred, log: seq<Event>)
    requires Upto(log, 4) && (d != NotDeferred ==> Upto(log, 3)) && (a.Some? ==> Invoke in log)
    ensures Ordered(log + TailLog(w, e, o, a, d))
    ensures Invoke in log + TailLog(w, e, o, a, d) <==> Invoke in log
  {
    TailForms(w, e, o, a, d);
    AppendTail(log, TailLog(w, e, o, a, d), d != NotDeferred && w.finish);
  }

  /** For every behaviour of every handler, the calls of one step come in protocol order. */
  lemma {:induction false} EventsInOrder(w: Wiring, e: World, step: Step, before: State)
    ensures Ordered(Execute(w, e, step, before).log)
  {
    var b := Dispatch(w, e, step, before);
    ExecuteLog(w, e, step, before);
    DispatchShape(w, e, step, before);
    assert b.log + [] == b.log;
    TailShape(w, e, BranchBound(e, b, before), b.attempt, b.deferred, b.log);
  }

  /** The connector is called exactly when every gate, the start handler and the pre-I/O check
      let the step through. */
  lemma {:induction false} InvokedExactlyWhenCleared(w: Wiring, e: World, step: Step, before: State)
    ensures Invoke in Execute(w, e, step, before).log <==> Cleared(w, e, step, before)
  {
    var b := Dispatch(w, e, step, before);
    ExecuteLog(w, e, step, before);
    DispatchShape(w, e, step, before);
    assert b.log + [] == b.log;
    TailShape(w, e, BranchBound(e, b, before), b.attempt, b.deferred, b.log);
  }

  // ---------------------------------------------------------------- finishing

  predicate NotFatal<T>(o: Outcome<T>) {
    o.Raises? ==> !o.exn.Fatal?
  }

  /** No signal arrives during the call: handlers may raise exceptions, but nothing that the
      step boundary does not catch. */
  ghost predicate Calm(e: World) {
    && NotFatal(e.compile) && NotFatal(e.admit) && NotFatal(e.precheck) && NotFatal(e.posture)
    && (forall v :: NotFatal(e.readOther(v)))
    && NotFatal(e.start) && NotFatal(e.preIO) && NotFatal(e.invoke) && NotFatal(e.handler)
    && (forall st :: NotFatal(e.finish(st)))
    && (forall r :: NotFatal(e.receipt(r)))
    && (forall m :: NotFatal(e.encode(m)))
  }

  /** A signal came instead of a value. */
  predicate Signalled<T>(o: Outcome<T>) {
    o.Raises? && o.exn.Fatal?
  }

  /** The result a deferred attempt is left with once its output is bounded and its receipt taken,
      or the exception that came instead. */
  function Concluded(w: Wiring, e: World, o: Outcome<Result>, a: Option<Attempt>): Outcome<Result> {
    match o
    case Raises(x) => Raises(x)
    case Returns(r) => AfterReceipt(w, e, a, r)
  }

  lemma {:induction false} TailFinishes(w: Wiring, e: World, o: Outcome<Result>, a: Option<Attempt>, d: Deferred)
    requires a.Some? && w.finish
    ensures (Finishes(TailLog(w, e, o, a, d))
      == One(if d == DeferSuccess then !Signalled(Concluded(w, e, o, a)) else d == DeferFailed && o.Returns?))
    ensures Opened(TailLog(w, e, o, a, d)) == 0
  {
    var receipt: seq<Event> := if w.receipt then [Receipt] else [];
    CountsOne(Receipt);
    CountsOne(FinishEvent(e, Failed));
    CountsOne(FinishEvent(e, Indeterminate));
    CountsOne(FinishEvent(e, Completed));
    if o.Returns? {
      CountsAdd([FinishEvent(e, Failed)], if e.finish(Failed).Raises? then [] else receipt);
      CountsAdd(receipt, if d == DeferSuccess then SideTail(e, AfterReceipt(w, e, a, o.value)) else []);
    }
  }

  /** Without signals an overflow report is bounded without raising exactly when the limit in force is
      an exact positive integer. */
  lemma {:induction false} CandidateBounds(e: World, r: Result, before: State, s: State)
    requires Calm(e) && IsCandidate(r)
    ensures BoundedOutcome(e, r, before, s).Raises? <==> LimitOf(s).None?
  {
    CalmEncodes(e, r, RecordOf(r, before, s));
    ReportRaisesExactly(e, r, before, s);
  }

  lemma {:induction false} CalmEncodes(e: World, r: Result, record: Mapping)
    requires Calm(e)
    ensures NotFatal(OverflowEncoded(e, r)) && NotFatal(e.encode(record)) && NotFatal(e.receipt(r))
  {
  }

  lemma {:induction false} BoundNotFatal(e: World, r: Result, before: State, s: State)
    requires !IsCandidate(r) && NotFatal(e.encode(RecordOf(r, before, s)))
    ensures NotFatal(BoundedOutcome(e, r, before, s))
  {
    var encoded := e.encode(RecordOf(r, before, s));
    if LimitOf(s).Some? && encoded.Returns? { GenericNotFatal(r.stepId, encoded.value, LimitOf(s).value); }
  }

  lemma {:induction false} GenericNotFatal(stepId: string, record: Evidence.Record, limit: nat)
    ensures NotFatal(GenericOverflowResult(stepId, record, limit))
  {
  }

  /** The step opened an attempt. */
  predicate Opens(w: Wiring, e: World, step: Step, s: State) {
    step.kind == "connector" && Gates(w, e, step, s).Pass? && AttemptOf(w, e).Some?
  }

  /** Bounding an overflow report raises: the output limit in the controls is not an exact positive
      integer, or a signal arrives while the record of an acceptable report is taken. */
  predicate ReportRaises(e: World, r: Result, s: State) {
    || LimitOf(s).None?
    || (OverflowCheck(r.output, LimitOf(s).value)(None).Some? && Signalled(OverflowEncoded(e, r)))
  }

  lemma {:induction false} CheckRaises(stepId: string, check: Option<Evidence.Record> -> Option<Mapping>,
                                       encoded: Outcome<Evidence.Record>)
    ensures CheckedOverflow(stepId, check, encoded).Raises? <==> check(None).Some? && Signalled(encoded)
  {
    Evidence.InvalidEvidenceFits();
  }

  lemma {:induction false} ReportRaisesExactly(e: World, r: Result, before: State, s: State)
    requires IsCandidate(r)
    ensures BoundedOutcome(e, r, before, s).Raises? <==> ReportRaises(e, r, s)
  {
    if LimitOf(s).Some? {
      CheckRaises(r.stepId, OverflowCheck(r.output, LimitOf(s).value), OverflowEncoded(e, r));
    }
  }

  /** The result an overflow report stands for until it is bounded. */
  function CandidateOf(step: Step, r: Response): Result
    requires OverflowCandidate(r)
  {
    Failure(step.id, Evidence.CandidateOutput(r.data.fields), "connector output limit exceeded")
  }

  /** Every way an opened attempt is left unfinished: a signal during the pre-I/O check; an answer
      that cannot be read; an overflow report whose bounding raises; a side-effectful success
      whose bounding or receipt raises a signal. */
  predicate Unfinished(w: Wiring, e: World, step: Step, before: State) {
    var a, s := AttemptOf(w, e), StartedState(w, e, Gates(w, e, step, before).state);
    if !ReachesInvoke(w, e) then Signalled(e.preIO)
    else if e.invoke.Raises? then false
    else if Lost(e) then true
    else if OverflowCandidate(e.invoke.value) then ReportRaises(e, CandidateOf(step, e.invoke.value), s)
    else
      && DefersSuccess(a, e.invoke.value)
      && Signalled(Concluded(w, e, BoundedOutcome(e, Answered(e, step, e.invoke.value, DataOf(e, e.invoke.value).value), before, s), a))
  }

  /** The dispatched branch of a call that got an answer it could read. */
  lemma {:induction false} AnsweredBranch(w: Wiring, e: World, step: Step, before: State)
    requires Cleared(w, e, step, before) && e.invoke.Returns? && !Lost(e)
    ensures var b := Dispatch(w, e, step, before); var r := e.invoke.value;
      && b.state == StartedState(w, e, Gates(w, e, step, before).state)
      && (OverflowCandidate(r) ==>
            b.outcome == Returns(CandidateOf(step, r)) && b.deferred == DeferFailed && b.attempt == AttemptOf(w, e))
      && (DefersSuccess(AttemptOf(w, e), r) ==>
            && b.outcome == Returns(Answered(e, step, r, DataOf(e, r).value))
            && b.deferred == DeferSuccess && b.attempt == AttemptOf(w, e))
  {
    ReachingBranch(w, e, step, Gates(w, e, step, before).state);
  }

  /** What a branch leaves to be finished, in terms of the guards. */
  lemma {:induction false} DeferredUnfinished(w: Wiring, e: World, step: Step, before: State)
    requires Cleared(w, e, step, before) && AttemptOf(w, e).Some? && e.invoke.Returns? && !Lost(e)
    ensures var b := Dispatch(w, e, step, before); var o := BranchBound(e, b, before);
      && (b.deferred == DeferSuccess ==> (Unfinished(w, e, step, before) <==> Signalled(Concluded(w, e, o, b.attempt))))
      && (b.deferred == DeferFailed ==> (Unfinished(w, e, step, before) <==> o.Raises?))
      && (b.deferred == NotDeferred ==> !Unfinished(w, e, step, before))
      && (b.deferred != NotDeferred ==> b.attempt.Some? && b.outcome.Returns?)
  {
    var b := Dispatch(w, e, step, before);
    DispatchShape(w, e, step, before);
    AnsweredBranch(w, e, step, before);
    if OverflowCandidate(e.invoke.value) {
      ReportRaisesExactly(e, b.outcome.value, before, b.state);
    }
  }

  /** For every behaviour of every handler, signals included: an attempt that was opened is finished
      exactly once, unless it is left unfinished in one of these ways; then it is never finished. */
  lemma {:induction false} FinishedExactly(w: Wiring, e: World, step: Step, before: State)
    requires w.finish
    ensures var log := Execute(w, e, step, before).log;
      && Opened(log) == One(Opens(w, e, step, before))
      && Finishes(log) == One(Opens(w, e, step, before) && !Unfinished(w, e, step, before))
  {
    var b := Dispatch(w, e, step, before);
    ExecuteLog(w, e, step, before);
    DispatchShape(w, e, step, before);
    assert b.log + [] == b.log;
    if b.outcome.Returns? && b.attempt.Some? {
      TailFinishes(w, e, BranchBound(e, b, before), b.attempt, b.deferred);
      CountsAdd(b.log, TailLog(w, e, BranchBound(e, b, before), b.attempt, b.deferred));
    }
    if Opens(w, e, step, before) && ReachesInvoke(w, e) && e.invoke.Returns? && !Lost(e) {
      DeferredUnfinished(w, e, step, before);
    }
  }

  /** A connector call that is interrupted, or raises anything else, is finished as indeterminate. */
  lemma {:induction false} RaisingInvocationIsRecorded(w: Wiring, e: World, step: Step, before: State)
    requires w.finish && Cleared(w, e, step, before) && AttemptOf(w, e).Some? && e.invoke.Raises?
    ensures Finish(Indeterminate, e.finish(Indeterminate).Returns?) in Execute(w, e, step, before).log
    ensures Signalled(e.invoke) && e.finish(Indeterminate).Returns? ==>
      Execute(w, e, step, before).ending == Escapes(e.invoke.exn)
  {
    var b := Dispatch(w, e, step, before);
    ExecuteLog(w, e, step, before);
    ReachingBranch(w, e, step, Gates(w, e, step, before).state);
    assert b.log[|b.log| - 1] == Finish(Indeterminate, e.finish(Indeterminate).Returns?);
    assert b.log + [] == b.log;
  }

  /** Without signals two ways are left: the connector's answer cannot be read, or it reports an
      output overflow while the output limit in the controls is not an exact positive integer. */
  predicate Abandons(w: Wiring, e: World, s: State) {
    && ReachesInvoke(w, e) && e.invoke.Returns?
    && (Lost(e) || (OverflowCandidate(e.invoke.value) && LimitOf(StartedState(w, e, s)).None?))
  }

  lemma {:induction false} UnfinishedWhenCalm(w: Wiring, e: World, step: Step, before: State)
    requires Calm(e) && Opens(w, e, step, before)
    ensures Unfinished(w, e, step, before) <==> Abandons(w, e, Gates(w, e, step, before).state)
  {
    var s := StartedState(w, e, Gates(w, e, step, before).state);
    if ReachesInvoke(w, e) && e.invoke.Returns? && !Lost(e) {
      var r := e.invoke.value;
      if OverflowCandidate(r) {
        CalmEncodes(e, CandidateOf(step, r), map[]);
      } else if DefersSuccess(AttemptOf(w, e), r) {
        var answer := Answered(e, step, r, DataOf(e, r).value);
        CalmConcludes(w, e, answer, before, s);
      }
    }
  }

  lemma {:induction false} CalmConcludes(w: Wiring, e: World, r: Result, before: State, s: State)
    requires Calm(e) && r.success
    ensures !Signalled(Concluded(w, e, BoundedOutcome(e, r, before, s), AttemptOf(w, e)))
  {
    CalmEncodes(e, r, RecordOf(r, before, s));
    BoundNotFatal(e, r, before, s);
    var o := BoundedOutcome(e, r, before, s);
    if o.Returns? { CalmEncodes(e, o.value, map[]); }
  }

  /** In a calm world an opened attempt is finished exactly once, unless it is abandoned; then it is
      never finished. */
  lemma {:induction false} FinishedExactlyOnce(w: Wiring, e: World, step: Step, before: State)
    requires Calm(e) && w.finish
    ensures var log := Execute(w, e, step, before).log;
      && Opened(log) == One(Opens(w, e, step, before))
      && Finishes(log) == One(Opens(w, e, step, before) && !Abandons(w, e, Gates(w, e, step, before).state))
  {
    FinishedExactly(w, e, step, before);
    if Opens(w, e, step, before) { UnfinishedWhenCalm(w, e, step, before); }
  }

  // ---------------------------------------------------------------- side effects are reported honestly

  /** The connector reported success for an attempt that may have changed something outside. */
  predicate SideEffectHappened(w: Wiring, e: World, step: Step, s: State) {
    && Cleared(w, e, step, s)
    && AttemptOf(w, e).Some? && AttemptOf(w, e).value.sideEffectful
    && e.invoke.Returns? && e.invoke.value.success
  }

  predicate SaysIndeterminate(r: Result) {
    && !r.success
    && Get(r.output, "error_class") == Str(INDETERMINATE) && Get(r.output, "reason_code") == Str(INDETERMINATE)
  }

  /** A successful result can be kept: the slots it is stored under are mappings or absent. */
  predicate StorableIn(s: State, r: Result) {
    var data := Get(r.output, "data");
    && ("connector_results" in s ==> s["connector_results"].Dict?)
    && ((data.Dict? && Get(data.fields, "before_state").Dict? && Get(data.fields, "after_state").Dict?
         && "mutation_states" in s) ==> s["mutation_states"].Dict?)
  }

  lemma {:induction false} StoreReturns(r: Result, s: State)
    ensures Store("connector", r, s).Returns? <==> StorableIn(s, r)
    ensures NotFatal(Store("connector", r, s))
  {
  }

  lemma {:induction false} IndeterminateSays(r: Result)
    ensures SaysIndeterminate(IndeterminateOf(r))
  {
  }

  /** The attempt was finished as indeterminate, and is reported so unless a signal came instead. */
  ghost predicate IndeterminateEnding(e: World, t: Trace) {
    if Signalled(e.finish(Indeterminate)) then t.ending == Escapes(e.finish(Indeterminate).exn)
    else t.ending.Done? && SaysIndeterminate(t.ending.result)
  }

  /** How a side-effectful attempt ends, given what it is left with. */
  ghost predicate HonestEnding(e: World, c: Outcome<Result>, s: State, t: Trace) {
    match c
    case Raises(x) => if x.Fatal? then t.ending == Escapes(x) else IndeterminateEnding(e, t)
    case Returns(r) =>
      if !r.success then IndeterminateEnding(e, t)
      else
        match e.finish(Completed)
        case Raises(x) => if x.Fatal? then t.ending == Escapes(x) else t.ending.Done? && SaysIndeterminate(t.ending.result)
        case Returns(_) =>
          && t.ending.Done? && (t.ending.result.success <==> StorableIn(s, r))
          && (!t.ending.result.success ==> Get(t.ending.result.output, "error_class") == Str("internal_error"))
  }

  lemma {:induction false} HonestBoundary(w: Wiring, e: World, step: Step, before: State, x: Exn, a: Option<Attempt>,
                                          s: State, log: seq<Event>)
    requires a.Some? && w.finish
    ensures HonestEnding(e, Raises(x), s, Boundary(w, e, step, before, x, a, DeferSuccess, s, log))
  {
    var failure := ExceptionResult(step.id, x, "connector execution failed");
    IndeterminateSays(failure);
    IndeterminateSays(IndeterminateOf(failure));
  }

  lemma {:induction false} HonestSideEffects(w: Wiring, e: World, step: Step, saved: Saved, r: Result, a: Option<Attempt>,
                                             s: State, log: seq<Event>)
    requires a.Some? && w.finish && step.kind == "connector"
    ensures HonestEnding(e, Returns(r), s, SideEffects(w, e, step, saved, r, a, DeferSuccess, s, log))
  {
    IndeterminateSays(r);
    IndeterminateSays(IndeterminateOf(r));
    StoreReturns(r, s);
  }

  lemma {:induction false} HonestSettled(w: Wiring, e: World, step: Step, saved: Saved, r: Result, a: Option<Attempt>,
                                         s: State, log: seq<Event>)
    requires a.Some? && w.finish && step.kind == "connector"
    ensures HonestEnding(e, AfterReceipt(w, e, a, r), s, Settled(w, e, step, saved, r, a, DeferSuccess, s, log))
  {
    if w.receipt {
      match e.receipt(r) {
        case Raises(x) => HonestBoundary(w, e, step, saved.state, x, a, s, log + [Receipt]);
        case Returns(r') => HonestSideEffects(w, e, step, saved, r', a, s, log + [Receipt]);
      }
    } else {
      HonestSideEffects(w, e, step, saved, r, a, s, log);
    }
  }

  /** The record a side-effectful attempt leaves behind, in terms of its log. */
  lemma {:induction false} RecordedTail(w: Wiring, e: World, o: Outcome<Result>, a: Option<Attempt>, log: seq<Event>)
    requires a.Some? && Upto(log, 3)
    ensures var all := log + TailLog(w, e, o, a, DeferSuccess); var c := Concluded(w, e, o, a);
      && (forall b :: Finish(Failed, b) !in all)
      && (w.finish ==>
            (Finish(Completed, true) in all <==> c.Returns? && c.value.success && e.finish(Completed).Returns?))
  {
    var tail := TailLog(w, e, o, a, DeferSuccess);
    assert forall i :: 0 <= i < |log| ==> !log[i].Finish?;
    var c := Concluded(w, e, o, a);
    assert tail == (if o.Returns? && w.receipt then [Receipt] else []) + if w.finish then SideTail(e, c) else [];
  }

  /** The attempt is recorded as completed: bounding and receipt end in success and the finish
      handler returns. */
  predicate Completes(w: Wiring, e: World, step: Step, before: State) {
    var c := SideEffectConclusion(w, e, step, before).0;
    c.Returns? && c.value.success && e.finish(Completed).Returns?
  }

  /** The completed result can be stored. */
  predicate Storable(w: Wiring, e: World, step: Step, before: State)
    requires Completes(w, e, step, before)
  {
    var c := SideEffectConclusion(w, e, step, before);
    StorableIn(c.1, c.0.value)
  }

  /** A signal reaches the caller: it came while reading, bounding or the receipt, or from the finish
      handler. */
  predicate Interrupted(w: Wiring, e: World, step: Step, before: State) {
    if Lost(e) then Signalled(DataOf(e, e.invoke.value))
    else
      match SideEffectConclusion(w, e, step, before).0
      case Raises(x) => x.Fatal? || Signalled(e.finish(Indeterminate))
      case Returns(r) => Signalled(e.finish(SideEffectStatus(r)))
  }

  /** A side effect whose answer could be read. */
  ghost predicate ReadHonestly(w: Wiring, e: World, step: Step, before: State, t: Trace) {
    var completes := Completes(w, e, step, before);
    && (forall b :: Finish(Failed, b) !in t.log)
    && (Finish(Completed, true) in t.log <==> completes)
    && (t.ending.Escapes? <==> Interrupted(w, e, step, before))
    && (t.ending.Done? ==>
          && (t.ending.result.success <==> completes && Storable(w, e, step, before))
          && (!completes ==> SaysIndeterminate(t.ending.result))
          && (completes && !t.ending.result.success ==>
                Get(t.ending.result.output, "error_class") == Str("internal_error")))
  }

  lemma {:induction false} ReadEnding(w: Wiring, e: World, step: Step, before: State, t: Trace)
    requires !Lost(e)
    requires HonestEnding(e, SideEffectConclusion(w, e, step, before).0, SideEffectConclusion(w, e, step, before).1, t)
    ensures t.ending.Escapes? <==> Interrupted(w, e, step, before)
    ensures t.ending.Done? ==>
      var completes := Completes(w, e, step, before);
      && (t.ending.result.success <==> completes && Storable(w, e, step, before))
      && (!completes ==> SaysIndeterminate(t.ending.result))
      && (completes && !t.ending.result.success ==>
            Get(t.ending.result.output, "error_class") == Str("internal_error"))
  {
  }

  lemma {:induction false} ReadSideEffects(w: Wiring, e: World, step: Step, before: State)
    requires w.finish && SideEffectHappened(w, e, step, before) && !Lost(e)
    ensures ReadHonestly(w, e, step, before, Execute(w, e, step, before))
  {
    var b := Dispatch(w, e, step, before);
    var t := Execute(w, e, step, before);
    ExecuteLog(w, e, step, before);
    DispatchShape(w, e, step, before);
    var o, r := BranchBound(e, b, before), b.outcome.value;
    RecordedTail(w, e, o, b.attempt, b.log);
    var s := BoundedState(e, r, before, b.state);
    match o {
      case Raises(x) => HonestBoundary(w, e, step, before, x, b.attempt, s, b.log);
      case Returns(r') => HonestSettled(w, e, step, Saved(before, Overflows(e, r, before, b.state)), r', b.attempt, s, b.log);
    }
    ReadEnding(w, e, step, before, t);
  }

  /** What an unreadable answer raises. */
  function LostExn(e: World): Exn
    requires Lost(e)
  {
    DataOf(e, e.invoke.value).exn
  }

  /** A lost answer, reported as the exception reading it raised, with nothing on record. */
  ghost predicate LostSilently(e: World, step: Step, t: Trace)
    requires Lost(e)
  {
    && (t.ending == if LostExn(e).Fatal? then Escapes(LostExn(e))
                    else Done(ExceptionResult(step.id, LostExn(e), "connector execution failed")))
    && (forall i :: 0 <= i < |t.log| ==> !t.log[i].Finish?)
  }

  lemma {:induction false} LostSideEffects(w: Wiring, e: World, step: Step, before: State)
    requires Cleared(w, e, step, before) && Lost(e)
    ensures LostSilently(e, step, Execute(w, e, step, before))
  {
    var b := Dispatch(w, e, step, before);
    ExecuteLog(w, e, step, before);
    DispatchShape(w, e, step, before);
    ReachingBranch(w, e, step, Gates(w, e, step, before).state);
    assert b.outcome == Raises(LostExn(e));
  }

  /** Whatever any handler does, signals included, and whatever the wiring, a side effect the
      connector reported as done is never recorded as failed. */
  lemma {:induction false} NeverRecordedFailed(w: Wiring, e: World, step: Step, before: State)
    requires SideEffectHappened(w, e, step, before)
    ensures forall b :: Finish(Failed, b) !in Execute(w, e, step, before).log
  {
    if Lost(e) {
      LostSideEffects(w, e, step, before);
    } else {
      var b := Dispatch(w, e, step, before);
      ExecuteLog(w, e, step, before);
      DispatchShape(w, e, step, before);
      RecordedTail(w, e, BranchBound(e, b, before), b.attempt, b.log);
    }
  }

  /** Whatever the output bounding, the receipt handler and the finish handler do, signals included,
      a side effect the connector reported as done is never recorded as failed. If its answer can
      be read, it is recorded as completed exactly when bounding and receipt end in success and the
      finish handler returns; unless a signal reaches the caller it is reported as success exactly
      when its result can then be stored too, and whatever is not recorded as completed is reported
      as indeterminate. If its answer cannot be read, nothing is recorded and the exception is what
      is reported. */
  lemma {:induction false} SideEffectsAreHonest(w: Wiring, e: World, step: Step, before: State)
    requires w.finish && SideEffectHappened(w, e, step, before)
    ensures var t := Execute(w, e, step, before);
      if Lost(e) then LostSilently(e, step, t) else ReadHonestly(w, e, step, before, t)
  {
    if Lost(e) { LostSideEffects(w, e, step, before); } else { ReadSideEffects(w, e, step, before); }
  }

  /** The promise: completion on record and reported success are one thing, and everything else is
      reported as indeterminate. */
  ghost predicate Honest(t: Trace) {
    && t.ending.Done?
    && (t.ending.result.success <==> Finish(Completed, true) in t.log)
    && (t.ending.result.success || SaysIndeterminate(t.ending.result))
  }

  /** Exactly when the promise is kept: no signal reaches the caller, and either the answer can be
      read and a completed result can be stored, or the answer cannot be read and the exception
      itself says indeterminate. */
  lemma {:induction false} HonestExactly(w: Wiring, e: World, step: Step, before: State)
    requires w.finish && SideEffectHappened(w, e, step, before)
    ensures (Honest(Execute(w, e, step, before)) <==>
      && !Interrupted(w, e, step, before)
      && if Lost(e) then LostExn(e).Known? && LostExn(e).reason == INDETERMINATE
         else Completes(w, e, step, before) ==> Storable(w, e, step, before))
  {
    var t := Execute(w, e, step, before);
    SideEffectsAreHonest(w, e, step, before);
    if Lost(e) { assert Finish(Completed, true) !in t.log; }
  }

  /** The result to be stored and the state it is to be stored in. */
  function SideEffectConclusion(w: Wiring, e: World, step: Step, before: State): (Outcome<Result>, State) {
    var b := Dispatch(w, e, step, before);
    if b.outcome.Returns? then
      (Concluded(w, e, BranchBound(e, b, before), b.attempt), BoundedState(e, b.outcome.value, before, b.state))
    else (Raises(b.outcome.exn), b.state)
  }

  /** The slots results are kept in are mappings or not there yet. */
  predicate SlotsReady(s: State) {
    && ("connector_results" in s ==> s["connector_results"].Dict?)
    && ("mutation_states" in s ==> s["mutation_states"].Dict?)
  }

  /** Unless a signal reaches the caller, a readable answer and ready slots are enough. */
  lemma {:induction false} HonestWhenSlotsReady(w: Wiring, e: World, step: Step, before: State)
    requires w.finish && SideEffectHappened(w, e, step, before) && !Lost(e)
    requires SlotsReady(before) && SlotsReady(StartedState(w, e, Gates(w, e, step, before).state))
    ensures Interrupted(w, e, step, before) || Honest(Execute(w, e, step, before))
  {
    HonestExactly(w, e, step, before);
    DispatchShape(w, e, step, before);
  }

  /** Without them the promise fails: when the slot for connector results holds something that
      is not a mapping, a side effect recorded as completed is reported as an internal error,
      not as success and not as indeterminate. */
  lemma {:induction false} CompletedButReportedFailed(w: Wiring, e: World, step: Step, before: State)
    requires w.finish && SideEffectHappened(w, e, step, before) && !Lost(e)
    requires Completes(w, e, step, before)
    requires var s := SideEffectConclusion(w, e, step, before).1;
      "connector_results" in s && !s["connector_results"].Dict?
    ensures var t := Execute(w, e, step, before);
      && Finish(Completed, true) in t.log
      && t.ending.Done? && !t.ending.result.success && !SaysIndeterminate(t.ending.result)
  {
    SideEffectsAreHonest(w, e, step, before);
  }

  /** Handlers that all return, and a connector that reports success. */
  function SmoothWorld(): World {
    World(Raises(Unknown), Raises(Unknown), Returns(()), Returns(()), Returns(Some(Attempt(true))), s => s,
          Returns(()), Returns(Response("db", "write", true, Dict(map[]), "")), _ => Raises(Unknown), _ => Returns(()), r => Returns(r),
          Returns(map[]), s => s, _ => Returns(Evidence.Record("", 1)), m => m, t => t)
  }

  const FULL_WIRING := Wiring(true, true, true, true, true, false, {})
  const WRITE := Step("s1", "connector", "write", "db", "apply")

  /** A side effect recorded as completed and reported as an internal error: the slot for
      connector results holds null. */
  lemma {:induction false} NullSlot()
    ensures var t := Execute(FULL_WIRING, SmoothWorld(), WRITE, map["connector_results" := Null]);
      && Finish(Completed, true) in t.log
      && t.ending.Done? && !t.ending.result.success && !SaysIndeterminate(t.ending.result)
  {
    var w, e, step, before := FULL_WIRING, SmoothWorld(), WRITE, map["connector_results" := Null];
    NullSlotConcludes(w, e, step, before);
    SideEffectsAreHonest(w, e, step, before);
  }

  /** The same handlers, with a connector that answers this. */
  function AnsweringWorld(r: Response): World {
    SmoothWorld().(invoke := Returns(r))
  }

  lemma {:induction false} AnsweringIsCalm(r: Response, before: State)
    requires before == map[] || before == map["execution_controls" := Dict(map["max_output_bytes" := Int(0)])]
    ensures Calm(AnsweringWorld(r)) && Cleared(FULL_WIRING, AnsweringWorld(r), WRITE, before)
    ensures Opens(FULL_WIRING, AnsweringWorld(r), WRITE, before)
    ensures Gates(FULL_WIRING, AnsweringWorld(r), WRITE, before).state == before
  {
    assert Gates(FULL_WIRING, AnsweringWorld(r), WRITE, before) == Pass(before);
  }

  /** An attempt opened and never finished, whose side effect is done and reported as an internal
      error: the connector answers with null for its data. */
  lemma {:induction false} NullDataAbandons()
    ensures var t := Execute(FULL_WIRING, AnsweringWorld(Response("db", "write", true, Null, "")), WRITE, map[]);
      && Opened(t.log) == 1 && Finishes(t.log) == 0
      && t.ending.Done? && !t.ending.result.success && !SaysIndeterminate(t.ending.result)
  {
    var e, before: State := AnsweringWorld(Response("db", "write", true, Null, "")), map[];
    AnsweringIsCalm(e.invoke.value, before);
    FinishedExactlyOnce(FULL_WIRING, e, WRITE, before);
    LostSideEffects(FULL_WIRING, e, WRITE, before);
  }

  /** An attempt opened and never finished: the connector reports an overflow while the limit in
      the controls is zero. */
  lemma {:induction false} ZeroLimitAbandons()
    ensures var r := Response("db", "write", false, Dict(map["output_limit_exceeded" := Bool(true)]), "");
      var t := Execute(FULL_WIRING, AnsweringWorld(r), WRITE,
                       map["execution_controls" := Dict(map["max_output_bytes" := Int(0)])]);
      Opened(t.log) == 1 && Finishes(t.log) == 0
  {
    var r := Response("db", "write", false, Dict(map["output_limit_exceeded" := Bool(true)]), "");
    var before := map["execution_controls" := Dict(map["max_output_bytes" := Int(0)])];
    AnsweringIsCalm(r, before);
    FinishedExactlyOnce(FULL_WIRING, AnsweringWorld(r), WRITE, before);
    assert LimitOf(before).None?;
  }

  /** An attempt opened and never finished although its side effect is done: an interrupt arrives
      during the receipt. */
  lemma {:induction false} InterruptedReceipt(w: Wiring, e: World, before: State)
    requires w == FULL_WIRING && e == SmoothWorld().(receipt := _ => Raises(Fatal)) && before == map[]
    ensures var t := Execute(w, e, WRITE, before); Opened(t.log) == 1 && Finishes(t.log) == 0
  {
    assert Gates(w, e, WRITE, before) == Pass(before);
    var answer := Answered(e, WRITE, e.invoke.value, map[]);
    assert LimitOf(before) == Some(Evidence.DEFAULT_LIMIT);
    SmallRecord(e, answer, before, before);
    assert AfterReceipt(w, e, AttemptOf(w, e), WithRecord(answer, Evidence.Record("", 1))) == Raises(Fatal);
    FinishedExactly(w, e, WRITE, before);
  }

  lemma {:induction false} NullSlotDispatched(w: Wiring, e: World, step: Step, before: State)
    requires w == FULL_WIRING && e == SmoothWorld() && step == WRITE && before == map["connector_results" := Null]
    ensures SideEffectHappened(w, e, step, before)
    ensures var b := Dispatch(w, e, step, before);
      b.state == before && b.outcome.Returns? && b.outcome.value.success && b.attempt == Some(Attempt(true))
  {
    assert Gates(w, e, step, before) == Pass(before);
    ReachingBranch(w, e, step, before);
  }

  lemma {:induction false} NullSlotConcludes(w: Wiring, e: World, step: Step, before: State)
    requires w == FULL_WIRING && e == SmoothWorld() && step == WRITE && before == map["connector_results" := Null]
    ensures SideEffectHappened(w, e, step, before)
    ensures Completes(w, e, step, before) && !Storable(w, e, step, before)
  {
    NullSlotDispatched(w, e, step, before);
    assert LimitOf(before) == Some(Evidence.DEFAULT_LIMIT);
    SmallRecord(e, Dispatch(w, e, step, before).outcome.value, before, before);
  }

  lemma {:induction false} SmallRecord(e: World, r: Result, before: State, s: State)
    requires r.success && LimitOf(s) == Some(Evidence.DEFAULT_LIMIT)
    requires e.encode(RecordOf(r, before, s)) == Returns(Evidence.Record("", 1))
    ensures BoundedOutcome(e, r, before, s) == Returns(WithRecord(r, Evidence.Record("", 1)))
    ensures BoundedState(e, r, before, s) == s
  {
  }

  // ---------------------------------------------------------------- the shared state

  /** The result that gets as far as being stored, if one does. */
  function Reaching(w: Wiring, e: World, a: Option<Attempt>, d: Deferred, r: Result): Option<Result> {
    if d == DeferFailed && a.Some? && w.finish && e.finish(Failed).Raises? then None
    else
      match AfterReceipt(w, e, a, r)
      case Raises(_) => None
      case Returns(r') =>
        if !(d == DeferSuccess && a.Some? && w.finish) then Some(r')
        else
          match SideEffectResult(e, r')
          case Raises(_) => None
          case Returns(r'') => Some(r'')
  }

  /** The state a settled call leaves: the restored one if an exception was caught, else the one it
      was given, with a successful result stored in it. */
  ghost predicate Leaves(kind: string, saved: Saved, reached: Option<Result>, s: State, t: Trace) {
    if t.caught.Some? then
      t.state == if reached.Some? then Restored(saved, kind, reached.value) else saved.state
    else if t.ending.Done? && t.ending.result.success then Store(kind, t.ending.result, s) == Returns(t.state)
    else t.state == s
  }

  lemma {:induction false} StoredLeaves(w: Wiring, e: World, step: Step, saved: Saved, r: Result, s: State, log: seq<Event>)
    ensures Leaves(step.kind, saved, Some(r), s, Stored(w, e, step, saved, r, s, log))
  {
    if r.success && Store(step.kind, r, s).Raises? {
      BoundaryLog(w, e, step, Restored(saved, step.kind, r), Store(step.kind, r, s).exn, None, NotDeferred, s, log);
    }
  }

  lemma {:induction false} BoundaryLeaves(w: Wiring, e: World, step: Step, saved: Saved, x: Exn, a: Option<Attempt>,
                                          d: Deferred, s: State, log: seq<Event>)
    ensures Leaves(step.kind, saved, None, s, Boundary(w, e, step, saved.state, x, a, d, s, log))
  {
    BoundaryLog(w, e, step, saved.state, x, a, d, s, log);
  }

  lemma {:induction false} SideEffectsLeave(w: Wiring, e: World, step: Step, saved: Saved, r: Result, a: Option<Attempt>,
                                            d: Deferred, s: State, log: seq<Event>)
    ensures var reached :=
        if !(d == DeferSuccess && a.Some? && w.finish) then Some(r)
        else if SideEffectResult(e, r).Raises? then None else Some(SideEffectResult(e, r).value);
      Leaves(step.kind, saved, reached, s, SideEffects(w, e, step, saved, r, a, d, s, log))
  {
    if d == DeferSuccess && a.Some? && w.finish {
      var log' := log + FinishLog(w, e, a, SideEffectStatus(r));
      match SideEffectResult(e, r) {
        case Raises(x) => BoundaryLeaves(w, e, step, saved, x, a, d, s, log');
        case Returns(r') => StoredLeaves(w, e, step, saved, r', s, log');
      }
    } else {
      StoredLeaves(w, e, step, saved, r, s, log);
    }
  }

  lemma {:induction false} ReceiptedLeaves(w: Wiring, e: World, step: Step, saved: Saved, r: Result, a: Option<Attempt>,
                                           d: Deferred, s: State, log: seq<Event>)
    requires d != DeferFailed
    ensures Leaves(step.kind, saved, Reaching(w, e, a, d, r), s, Receipted(w, e, step, saved, r, a, d, s, log))
  {
    if a.Some? && w.receipt {
      match e.receipt(r) {
        case Raises(x) => BoundaryLeaves(w, e, step, saved, x, a, d, s, log + [Receipt]);
        case Returns(r') => SideEffectsLeave(w, e, step, saved, r', a, d, s, log + [Receipt]);
      }
    } else {
      SideEffectsLeave(w, e, step, saved, r, a, d, s, log);
    }
  }

  lemma {:induction false} SettledLeaves(w: Wiring, e: World, step: Step, saved: Saved, r: Result, a: Option<Attempt>,
                                         d: Deferred, s: State, log: seq<Event>)
    ensures Leaves(step.kind, saved, Reaching(w, e, a, d, r), s, Settled(w, e, step, saved, r, a, d, s, log))
  {
    if d == DeferFailed && a.Some? && w.finish {
      var log' := log + FinishLog(w, e, a, Failed);
      match e.finish(Failed) {
        case Raises(x) => BoundaryLeaves(w, e, step, saved, x, a, d, s, log');
        case Returns(_) => ReceiptedLeaves(w, e, step, saved, r, a, NotDeferred, s, log');
      }
    } else if d == DeferFailed {
      DeferFailedIsIdle(w, e, step, saved, r, a, s, log);
      ReceiptedLeaves(w, e, step, saved, r, a, NotDeferred, s, log);
    } else {
      ReceiptedLeaves(w, e, step, saved, r, a, d, s, log);
    }
  }

  /** A deferred failure with nothing to finish goes the way of one that is not deferred. */
  lemma {:induction false} DeferFailedIsIdle(w: Wiring, e: World, step: Step, saved: Saved, r: Result, a: Option<Attempt>,
                                             s: State, log: seq<Event>)
    ensures (Receipted(w, e, step, saved, r, a, DeferFailed, s, log)
             == Receipted(w, e, step, saved, r, a, NotDeferred, s, log))
  {
  }

  /** A result that is stored only in part over this state: its data fits, its mutation states do not. */
  predicate StoresHalf(s: State, r: Result) {
    && r.success && Get(s, "connector_results").Dict? && !StorableIn(s, r)
  }

  /** The result, if any, that a call leaves half stored in the state it restores: after an overflow
      had put the saved copy back, a receipt handler answered with a success that could be stored
      only in part. */
  function HalfWritten(w: Wiring, e: World, step: Step, before: State): Option<Result> {
    var b := Dispatch(w, e, step, before);
    if step.kind != "connector" || b.outcome.Raises? || !Overflows(e, b.outcome.value, before, b.state) then None
    else
      match BoundedOutcome(e, b.outcome.value, before, b.state)
      case Raises(_) => None
      case Returns(r) =>
        var reached := Reaching(w, e, b.attempt, b.deferred, r);
        if reached.Some? && StoresHalf(before, reached.value) then reached else None
  }

  lemma {:induction false} RestoredHalf(before: State, r: Result)
    requires r.success && Store("connector", r, before).Raises?
    ensures StoresHalf(before, r) <==> Get(before, "connector_results").Dict?
    ensures !StoresHalf(before, r) ==> HalfStored(before, r) == before
  {
    StoreReturns(r, before);
  }

  lemma {:induction false} CaughtStoring(w: Wiring, e: World, step: Step, saved: Saved, r: Result, a: Option<Attempt>,
                                         d: Deferred, s: State, log: seq<Event>)
    requires Settled(w, e, step, saved, r, a, d, s, log).caught.Some? && Reaching(w, e, a, d, r).Some?
    ensures Reaching(w, e, a, d, r).value.success && Store(step.kind, Reaching(w, e, a, d, r).value, s).Raises?
  {
  }

  /** What a settled call leaves when its exception was caught. */
  lemma {:induction false} CaughtLeaves(w: Wiring, e: World, step: Step, before: State, shared: bool, r: Result,
                                        a: Option<Attempt>, d: Deferred, s: State, log: seq<Event>)
    requires Settled(w, e, step, Saved(before, shared), r, a, d, s, log).caught.Some? && (shared ==> s == before)
    ensures var reached := Reaching(w, e, a, d, r);
      var half := step.kind == "connector" && shared && reached.Some? && StoresHalf(before, reached.value);
      Settled(w, e, step, Saved(before, shared), r, a, d, s, log).state
        == if half then HalfStored(before, reached.value) else before
  {
    SettledLeaves(w, e, step, Saved(before, shared), r, a, d, s, log);
    if Reaching(w, e, a, d, r).Some? {
      CaughtStoring(w, e, step, Saved(before, shared), r, a, d, s, log);
      if step.kind == "connector" && shared { RestoredHalf(before, Reaching(w, e, a, d, r).value); }
    }
  }

  /** A step is atomic, with one exact exception: an exception caught at its boundary, and an output
      over the limit, put the shared state back as it was, except that a result stored in part
      after an overflow stays so; otherwise the state is what the step's own branch made it. On top
      of that a success stores its result, and nothing else is ever changed. */
  lemma {:induction false} StepIsAtomic(w: Wiring, e: World, step: Step, before: State)
    ensures var t := Execute(w, e, step, before); var b := Dispatch(w, e, step, before);
      var s := if b.outcome.Returns? && Overflows(e, b.outcome.value, before, b.state) then before else b.state;
      var half := HalfWritten(w, e, step, before);
      && (t.caught.Some? ==> t.state == if half.Some? then HalfStored(before, half.value) else before)
      && (t.caught.None? && t.ending.Done? && t.ending.result.success ==>
            Store(step.kind, t.ending.result, s) == Returns(t.state))
      && (t.caught.None? && !(t.ending.Done? && t.ending.result.success) ==> t.state == s)
  {
    var b := Dispatch(w, e, step, before);
    match b.outcome {
      case Raises(x) => BoundaryLeaves(w, e, step, Saved(before, false), x, None, NotDeferred, b.state, b.log);
      case Returns(r) =>
        var s, shared := BoundedState(e, r, before, b.state), Overflows(e, r, before, b.state);
        match BoundedOutcome(e, r, before, b.state) {
          case Raises(x) => BoundaryLeaves(w, e, step, Saved(before, shared), x, b.attempt, b.deferred, s, b.log);
          case Returns(r') =>
            SettledLeaves(w, e, step, Saved(before, shared), r', b.attempt, b.deferred, s, b.log);
            if Execute(w, e, step, before).caught.Some? {
              CaughtLeaves(w, e, step, before, shared, r', b.attempt, b.deferred, s, b.log);
            }
        }
    }
  }

  /** The exception happens: after an overflow report, a receipt handler answers with a success that
      can be stored only in part. The call reports a failure, and that result is in the state it
      restored. */
  lemma {:induction false} HalfStoreSurvives(w: Wiring, e: World, step: Step, before: State, r: Result)
    requires Cleared(w, e, step, before) && AttemptOf(w, e).Some? && w.receipt && (w.finish ==> e.finish(Failed).Returns?)
    requires e.invoke.Returns? && OverflowCandidate(e.invoke.value)
    requires !ReportRaises(e, CandidateOf(step, e.invoke.value), StartedState(w, e, Gates(w, e, step, before).state))
    requires (forall x :: e.receipt(x) == Returns(r)) && StoresHalf(before, r)
    ensures Execute(w, e, step, before).caught.Some? && Execute(w, e, step, before).state == HalfStored(before, r)
  {
    var b := Dispatch(w, e, step, before);
    AnsweredBranch(w, e, step, before);
    ReportRaisesExactly(e, b.outcome.value, before, b.state);
    var bounded := BoundedOutcome(e, b.outcome.value, before, b.state).value;
    assert Reaching(w, e, b.attempt, b.deferred, bounded) == Some(r);
    assert HalfWritten(w, e, step, before) == Some(r);
    StoreReturns(r, before);
    HalfStoreCaught(w, e, step, Saved(before, true), bounded, b.attempt, r, before, b.log);
    StepIsAtomic(w, e, step, before);
  }

  lemma {:induction false} HalfStoreCaught(w: Wiring, e: World, step: Step, saved: Saved, r: Result, a: Option<Attempt>,
                                           r': Result, s: State, log: seq<Event>)
    requires a.Some? && w.receipt && (w.finish ==> e.finish(Failed).Returns?) && e.receipt(r) == Returns(r')
    requires r'.success && Store(step.kind, r', s).Raises? && NotFatal(Store(step.kind, r', s))
    ensures Settled(w, e, step, saved, r, a, DeferFailed, s, log).caught.Some?
  {
  }

  const HALF_DATA: Mapping := map["before_state" := Dict(map[]), "after_state" := Dict(map[])]

  /** A success with both mutation states. */
  function HalfResult(): Result {
    Succeeded("s1", map["data" := Dict(HALF_DATA)])
  }

  /** An overflow report, and a receipt handler that answers with that success. */
  function HalfWorld(): World {
    AnsweringWorld(Response("db", "write", false, Dict(map["output_limit_exceeded" := Bool(true)]), ""))
      .(receipt := _ => Returns(HalfResult()))
  }

  /** One such input: a mapping for connector results, and null for mutation states. */
  lemma {:induction false} HalfStoreInput(w: Wiring, e: World, before: State)
    requires w == FULL_WIRING && e == HalfWorld()
    requires before == map["connector_results" := Dict(map[]), "mutation_states" := Null]
    ensures var t := Execute(w, e, WRITE, before);
      t.caught.Some? && t.state != before && Get(t.state, "connector_results") == Dict(map["s1" := Dict(HALF_DATA)])
  {
    assert Gates(w, e, WRITE, before) == Pass(before);
    assert LimitOf(before) == Some(Evidence.DEFAULT_LIMIT);
    HalfResultFits(before);
    HalfStoreSurvives(w, e, WRITE, before, HalfResult());
  }

  lemma {:induction false} HalfResultFits(before: State)
    requires before == map["connector_results" := Dict(map[]), "mutation_states" := Null]
    ensures StoresHalf(before, HalfResult())
    ensures Get(HalfStored(before, HalfResult()), "connector_results") == Dict(map["s1" := Dict(HALF_DATA)])
    ensures HalfStored(before, HalfResult()) != before
  {
    var r := HalfResult();
    assert Get(r.output, "data") == Dict(HALF_DATA);
    assert Get(HALF_DATA, "before_state").Dict? && Get(HALF_DATA, "after_state").Dict?;
    assert map[]["s1" := Dict(HALF_DATA)] == map["s1" := Dict(HALF_DATA)];
    assert "s1" in map["s1" := Dict(HALF_DATA)];
  }
}
