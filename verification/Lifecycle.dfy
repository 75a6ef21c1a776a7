/** The operation lifecycle: a fixed transition table and what every run through it obeys. */
module Lifecycle {
  import opened Values

  datatype State =
    | Created | Planned | Blocked | WaitingForApproval | Approved | Running | Paused | Resuming | Retrying
    | Validating | Completed | Failed | Cancelled | Escalated

  function Allowed(s: State): set<State> {
    match s
    case Created => {Planned}
    case Planned => {Blocked, WaitingForApproval, Approved}
    case Approved => {Running, Cancelled}
    case Running => {Paused, Retrying, Validating, Failed, Cancelled}
    case Paused => {Resuming, Cancelled}
    case Resuming => {Running}
    case Retrying => {Running}
    case Validating => {Completed, Failed}
    case Failed => {Escalated, Retrying}
    case Blocked => {Escalated}
    case WaitingForApproval => {Approved, Cancelled}
    case Completed => {}
    case Cancelled => {}
    case Escalated => {}
  }

  function ParseState(text: string): Option<State> {
    match text
    case "created" => Some(Created)
    case "planned" => Some(Planned)
    case "blocked" => Some(Blocked)
    case "waiting_for_approval" => Some(WaitingForApproval)
    case "approved" => Some(Approved)
    case "running" => Some(Running)
    case "paused" => Some(Paused)
    case "resuming" => Some(Resuming)
    case "retrying" => Some(Retrying)
    case "validating" => Some(Validating)
    case "completed" => Some(Completed)
    case "failed" => Some(Failed)
    case "cancelled" => Some(Cancelled)
    case "escalated" => Some(Escalated)
    case _ => None
  }

  /** The accepted target, or nothing for an unknown state or a transition not in the table. */
  function ValidateTransition(current: string, target: string): Option<State> {
    var from, to := ParseState(current), ParseState(target);
    if from.Some? && to.Some? && to.value in Allowed(from.value) then to else None
  }

  function Name(s: State): string {
    match s
    case Created => "created"
    case Planned => "planned"
    case Blocked => "blocked"
    case WaitingForApproval => "waiting_for_approval"
    case Approved => "approved"
    case Running => "running"
    case Paused => "paused"
    case Resuming => "resuming"
    case Retrying => "retrying"
    case Validating => "validating"
    case Completed => "completed"
    case Failed => "failed"
    case Cancelled => "cancelled"
    case Escalated => "escalated"
  }

  lemma {:induction false} NameParses(s: State)
    ensures ParseState(Name(s)) == Some(s)
  {
  }

  /** The transition is accepted. */
  predicate Step(from: State, to: State) {
    ValidateTransition(Name(from), Name(to)) == Some(to)
  }

  /** The validator accepts exactly the transitions of the table. */
  lemma {:induction false} StepExactly(from: State, to: State)
    ensures Step(from, to) <==> to in Allowed(from)
  {
    NameParses(from);
    NameParses(to);
  }

  /** A run: every step is accepted. */
  ghost predicate Accepted(run: seq<State>) {
    && run != [] && run[0] == Created
    && forall i, j :: 0 <= i && j == i + 1 < |run| ==> Step(run[i], run[j])
  }

  lemma {:induction false} StepOf(run: seq<State>, i: nat)
    requires Accepted(run) && i + 1 < |run|
    ensures run[i + 1] in Allowed(run[i])
  {
    assert Step(run[i], run[i + 1]);
    StepExactly(run[i], run[i + 1]);
  }

  // ---------------------------------------------------------------- before and after running

  /** States an operation can be in before it has ever run; all of them precede approval or end. */
  predicate BeforeRunning(s: State) {
    s in {Created, Planned, Blocked, WaitingForApproval, Approved, Cancelled, Escalated}
  }

  /** States an operation can be in once it has run. */
  predicate HasRun(s: State) {
    s in {Running, Paused, Resuming, Retrying, Validating, Failed, Completed, Cancelled, Escalated}
  }

  lemma {:induction false} AfterRunning(run: seq<State>, i: nat, j: nat)
    requires Accepted(run) && i <= j < |run| && run[i] == Running
    ensures HasRun(run[j])
  {
    if i < j {
      AfterRunning(run, i, j - 1);
      StepOf(run, j - 1);
    }
  }

  /** Once running, an operation is never approved or put up for approval again. */
  lemma {:induction false} NeverReapproved(run: seq<State>, i: nat, j: nat)
    requires Accepted(run) && i <= j < |run| && run[i] == Running
    ensures run[j] != Approved && run[j] != WaitingForApproval
  {
    AfterRunning(run, i, j);
  }

  /** A blocked operation never runs. */
  lemma {:induction false} BlockedNeverRuns(run: seq<State>, i: nat, j: nat)
    requires Accepted(run) && i <= j < |run| && run[i] == Blocked
    ensures run[j] == Blocked || run[j] == Escalated
  {
    if i < j {
      BlockedNeverRuns(run, i, j - 1);
      StepOf(run, j - 1);
    }
  }

  /** No run goes on from a terminal state. */
  lemma {:induction false} TerminalEnds(run: seq<State>, i: nat)
    requires Accepted(run) && i < |run| && run[i] in {Completed, Cancelled, Escalated}
    ensures i == |run| - 1
  {
    if i < |run| - 1 { StepOf(run, i); }
  }

  // ---------------------------------------------------------------- what completion implies

  /** Up to `j` the operation has not run, or there is a first time it did, right after approval. */
  lemma {:induction false} RunsAfterApproval(run: seq<State>, j: nat) returns (a: nat)
    requires Accepted(run) && j < |run| && !BeforeRunning(run[j])
    ensures a < j && run[a] == Approved && run[a + 1] == Running
  {
    assert j > 0;
    StepOf(run, j - 1);
    if BeforeRunning(run[j - 1]) {
      a := j - 1;
    } else {
      a := RunsAfterApproval(run, j - 1);
    }
  }

  /** A completed operation was approved, then ran, then was validated, in this order, and the
      validation came right before completion. */
  lemma {:induction false} CompletionIsEarned(run: seq<State>) returns (a: nat, r: nat)
    requires Accepted(run) && run[|run| - 1] == Completed
    ensures a < r < |run| - 2 && run[a] == Approved && run[r] == Running && run[|run| - 2] == Validating
  {
    var n := |run| - 1;
    assert n > 0;
    StepOf(run, n - 1);
    assert run[n - 1] == Validating;
    a := RunsAfterApproval(run, n - 1);
    r := a + 1;
  }

  // ---------------------------------------------------------------- no run stalls

  /** Steps an operation can take before it must run or end. */
  function Fuse(s: State): nat {
    match s
    case Created => 4
    case Planned => 3
    case Validating => 3
    case WaitingForApproval => 2
    case Paused => 2
    case Failed => 2
    case Approved => 1
    case Resuming => 1
    case Retrying => 1
    case Blocked => 1
    case _ => 0
  }

  ghost predicate Forever(run: nat -> State) {
    run(0) == Created && forall i: nat, j: nat :: j == i + 1 ==> Step(run(i), run(j))
  }

  lemma {:induction false} ForeverStep(run: nat -> State, n: nat)
    requires Forever(run)
    ensures run(n + 1) in Allowed(run(n))
  {
    assert Step(run(n), run(n + 1));
    StepExactly(run(n), run(n + 1));
  }

  /** Every run that never ends is running again within four steps, at any point. */
  lemma {:induction false} RunsAgain(run: nat -> State, n: nat) returns (m: nat)
    requires Forever(run)
    ensures n <= m <= n + Fuse(run(n)) && run(m) == Running
    decreases Fuse(run(n))
  {
    if run(n) == Running {
      m := n;
    } else {
      ForeverStep(run, n);
      ForeverStep(run, n + 1);
      m := RunsAgain(run, n + 1);
    }
  }

  lemma {:induction false} RunsInfinitelyOften(run: nat -> State)
    requires Forever(run)
    ensures forall n: nat :: RunsFrom(run, n)
  {
    forall n: nat ensures RunsFrom(run, n) {
      var m := RunsAgain(run, n);
    }
  }

  ghost predicate RunsFrom(run: nat -> State, n: nat) {
    exists m: nat :: n <= m && run(m) == Running
  }
}
