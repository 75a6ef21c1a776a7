/** The capture loop: it drains both pipes of a child under one ceiling and drives a terminate,
    kill and cleanup sequence by a clock. The child, the scheduler and the clock are an
    adversary. */
module CaptureLoop {
  import opened Values
  import opened Capture

  const READ_CHUNK := 64 * 1024
  /** Ticks are milliseconds. */
  const TERMINATE_GRACE := 100
  const CLEANUP_GRACE := 1000

  datatype Read = WouldBlock | Data(chunk: seq<Byte>)

  /** Everything the loop does not control: the clock at the top of each pass, the reading
      taken when the ceiling trips, which pipes a `select` reports, what a read returns (no
      more than asked for; the empty chunk is end of file) and how the process ends. */
  datatype Child = Child(
    start: int,
    clock: nat -> int,
    trip: nat -> int,
    ready: (nat, Stream) -> bool,
    read: (nat, Stream, nat) -> Read,
    exitsInTime: bool,
    returncode: int)

  ghost predicate Physical(c: Child) {
    && c.start <= c.clock(0)
    && (forall i: nat, j: nat :: i <= j ==> c.clock(i) <= c.clock(j))
    && (forall k: nat :: c.clock(k) <= c.trip(k))
    && (forall t: int :: Reaches(c, t))
    && ReadsBounded(c)
  }

  /** No read returns more than it was asked for. */
  ghost predicate ReadsBounded(c: Child) {
    forall k: nat, s: Stream, n: nat :: BoundedRead(c.read(k, s, n), n)
  }

  ghost predicate Reaches(c: Child, t: int) {
    exists k: nat :: c.clock(k) >= t
  }

  predicate BoundedRead(r: Read, n: nat) {
    r.Data? ==> |r.chunk| <= n
  }

  datatype Reason = NoReason | TimedOut | LimitExceeded

  /** What the loop did, in order. `drained` is the byte count at the moment of the signal. */
  datatype Mark =
    | Reading(now: int)
    | SigTerm(at: int, reason: Reason, drained: nat)
    | SigKill(at: int)

  /** The signal discipline of a finished loop. */
  ghost predicate Lawful(log: seq<Mark>, deadline: int, limit: nat) {
    // one termination, one kill
    && (forall i, j :: 0 <= i < j < |log| && log[i].SigTerm? ==> !log[j].SigTerm?)
    && (forall i, j :: 0 <= i < j < |log| && log[i].SigKill? ==> !log[j].SigKill?)
    // termination has a cause: the first reading past the deadline, or byte limit + 1
    && (forall i :: 0 <= i < |log| && log[i].SigTerm? ==>
          || (log[i].reason == TimedOut && log[i].at >= deadline)
          || (log[i].reason == LimitExceeded && log[i].drained == limit + 1))
    && (forall i :: 0 <= i < |log| && log[i].Reading? && log[i].now >= deadline ==>
          exists j :: 0 <= j <= i + 1 && j < |log| && log[j].SigTerm?)
    // the kill follows it by at least the grace period
    && (forall i :: 0 <= i < |log| && log[i].SigKill? ==>
          exists j :: 0 <= j < i && log[j].SigTerm? && log[i].at >= log[j].at + TERMINATE_GRACE)
    // the first reading past the cleanup deadline is the last thing that happens
    && (forall i, j :: 0 <= i < j < |log| - 1 && log[i].SigKill? && log[j].Reading? ==>
          log[j].now < log[i].at + CLEANUP_GRACE)
  }

  // ---------------------------------------------------------------- the loop, pass by pass

  /** The loop's control variables. */
  datatype Control = Control(reason: Reason, started: int, killSent: bool, cleanup: int)

  /** Where the loop stands: its control variables, the pipes still registered, the reads made
      and the marks left so far. */
  datatype LoopState = LoopState(x: Control, outOpen: bool, errOpen: bool, stop: bool,
                                 arrivals: seq<Arrival>, log: seq<Mark>)

  predicate Open(st: LoopState, s: Stream) {
    if s == StdOut then st.outOpen else st.errOpen
  }

  function Close(st: LoopState, s: Stream): LoopState {
    if s == StdOut then st.(outOpen := false) else st.(errOpen := false)
  }

  /** How much the next read asks for: before any termination never more than one byte past the
      ceiling. */
  function ReadSize(reason: Reason, drained: nat, limit: nat): nat {
    if reason == NoReason then Min(READ_CHUNK, Max(1, limit - drained + 1)) else READ_CHUNK
  }

  function Take(c: Child, k: nat, s: Stream, limit: nat, st: LoopState, chunk: seq<Byte>): LoopState {
    var more := st.arrivals + [Arrival(s, chunk)];
    if st.x.reason == NoReason && Total(more) > limit then
      st.(arrivals := more, x := st.x.(reason := LimitExceeded, started := c.trip(k)),
          log := st.log + [SigTerm(c.trip(k), LimitExceeded, Total(more))])
    else st.(arrivals := more)
  }

  /** One readiness event. */
  function Serve(c: Child, k: nat, s: Stream, limit: nat, st: LoopState): LoopState {
    match c.read(k, s, ReadSize(st.x.reason, Total(st.arrivals), limit))
    case WouldBlock => st
    case Data(chunk) => if chunk == [] then Close(st, s) else Take(c, k, s, limit, st, chunk)
  }

  /** The reported pipes in name order, standard error before standard output. */
  function ServeReady(c: Child, k: nat, limit: nat, st: LoopState): LoopState {
    var st' := if st.errOpen && c.ready(k, StdErr) then Serve(c, k, StdErr, limit, st) else st;
    if st.outOpen && c.ready(k, StdOut) then Serve(c, k, StdOut, limit, st') else st'
  }

  /** The top of one pass: read the clock, then terminate, kill or stop as it demands. */
  function TimedOutAt(now: int, deadline: int, st: LoopState): LoopState {
    if st.x.reason == NoReason && now >= deadline then
      st.(x := st.x.(reason := TimedOut, started := now),
          log := st.log + [Reading(now)] + [SigTerm(now, TimedOut, Total(st.arrivals))])
    else st.(log := st.log + [Reading(now)])
  }

  function KilledAt(now: int, st: LoopState): LoopState {
    if st.x.reason != NoReason && !st.x.killSent && now >= st.x.started + TERMINATE_GRACE then
      st.(x := st.x.(killSent := true, cleanup := now + CLEANUP_GRACE), log := st.log + [SigKill(now)])
    else st
  }

  function Signalled(now: int, deadline: int, st: LoopState): LoopState {
    var st' := KilledAt(now, TimedOutAt(now, deadline, st));
    st'.(stop := st'.x.killSent && now >= st'.x.cleanup)
  }

  /** Nothing is left to do: the cleanup deadline is past or both pipes are closed. */
  predicate Over(st: LoopState) {
    st.stop || (!st.outOpen && !st.errOpen)
  }

  function OnePass(c: Child, k: nat, limit: nat, deadline: int, st: LoopState): LoopState {
    var st' := Signalled(c.clock(k), deadline, st);
    if st'.stop then st' else ServeReady(c, k, limit, st')
  }

  function Initially(): LoopState {
    LoopState(Control(NoReason, 0, false, 0), true, true, false, [], [])
  }

  /** One pass, given its number and where the loop stands. */
  type Step = (nat, LoopState) -> LoopState

  function Passes(c: Child, limit: nat, deadline: int): Step {
    (k: nat, st: LoopState) => OnePass(c, k, limit, deadline, st)
  }

  /** The loop after `k` passes; a loop that is over stays as it is. */
  function After(step: Step, k: nat): LoopState {
    if k == 0 then Initially()
    else
      var st := After(step, k - 1);
      if Over(st) then st else step(k - 1, st)
  }

  /** The loop is over after `k` passes and was not before. */
  ghost predicate Ends(step: Step, k: nat) {
    Over(After(step, k)) && (k > 0 ==> !Over(After(step, k - 1)))
  }

  lemma {:induction false} OverStays(step: Step, j: nat, k: nat)
    requires j <= k && Over(After(step, j))
    ensures After(step, k) == After(step, j)
  {
    if j < k { OverStays(step, j, k - 1); }
  }

  /** Before its end a loop is not over. */
  lemma {:induction false} NotOverBefore(step: Step, end: nat, k: nat)
    requires Ends(step, end) && k < end
    ensures !Over(After(step, k))
  {
    if Over(After(step, k)) { OverStays(step, k, end - 1); }
  }

  /** A loop ends once. */
  lemma {:induction false} EndsOnce(step: Step, a: nat, b: nat)
    requires Ends(step, a) && Ends(step, b)
    ensures a == b
  {
    if a < b { NotOverBefore(step, b, a); }
    if b < a { NotOverBefore(step, a, b); }
  }

  // ---------------------------------------------------------------- every loop obeys the signal discipline

  /** The loop's log, with the places of its two signals. */
  ghost predicate Phase(log: seq<Mark>, t: nat, u: nat, x: Control, deadline: int, limit: nat) {
    && (x.reason == NoReason ==>
          !x.killSent && forall i :: 0 <= i < |log| ==> log[i].Reading? && log[i].now < deadline)
    && (x.reason != NoReason ==>
          && t < |log| && log[t].SigTerm? && log[t].at == x.started && log[t].reason == x.reason
          && (x.reason == TimedOut ==> x.started >= deadline)
          && (x.reason == LimitExceeded ==> log[t].drained == limit + 1)
          && (forall i :: 0 <= i < t ==> log[i].Reading? && (i < t - 1 ==> log[i].now < deadline)))
    && (x.reason != NoReason && !x.killSent ==> forall i :: t < i < |log| ==> log[i].Reading?)
    && (x.killSent ==>
          && t < u < |log| && log[u] == SigKill(x.cleanup - CLEANUP_GRACE)
          && x.cleanup - CLEANUP_GRACE >= x.started + TERMINATE_GRACE
          && (forall i :: t < i < |log| && i != u ==> log[i].Reading?)
          && (forall i :: u < i < |log| - 1 ==> log[i].now < x.cleanup))
  }

  /** The same while the loop goes on: no reading has passed the cleanup deadline yet. */
  ghost predicate Going(log: seq<Mark>, x: Control, deadline: int, limit: nat) {
    exists t: nat, u: nat ::
      && Phase(log, t, u, x, deadline, limit)
      && (x.killSent && log[|log| - 1].Reading? ==> log[|log| - 1].now < x.cleanup)
  }

  lemma {:induction false} PhaseIsLawful(log: seq<Mark>, t: nat, u: nat, x: Control, deadline: int, limit: nat)
    requires Phase(log, t, u, x, deadline, limit)
    ensures Lawful(log, deadline, limit)
    ensures (x.reason == LimitExceeded) == Tripped(log)
  {
    if x.reason == LimitExceeded { assert log[t].reason == LimitExceeded; }
  }

  /** The ceiling was what ended the child. */
  ghost predicate Tripped(log: seq<Mark>) {
    exists i :: 0 <= i < |log| && log[i].SigTerm? && log[i].reason == LimitExceeded
  }

  lemma {:induction false} GoingIsLawful(log: seq<Mark>, x: Control, deadline: int, limit: nat)
    requires Going(log, x, deadline, limit)
    ensures Lawful(log, deadline, limit)
    ensures (x.reason == LimitExceeded) == Tripped(log)
  {
    var t: nat, u: nat :| Phase(log, t, u, x, deadline, limit);
    PhaseIsLawful(log, t, u, x, deadline, limit);
  }

  lemma {:induction false} GoingTrips(log: seq<Mark>, x: Control, deadline: int, limit: nat, at: int)
    requires Going(log, x, deadline, limit) && x.reason == NoReason
    ensures Going(log + [SigTerm(at, LimitExceeded, limit + 1)], x.(reason := LimitExceeded, started := at),
                  deadline, limit)
  {
    var t: nat, u: nat :| Phase(log, t, u, x, deadline, limit);
    assert Phase(log + [SigTerm(at, LimitExceeded, limit + 1)], |log|, u,
                 x.(reason := LimitExceeded, started := at), deadline, limit);
  }

  /** What the reads so far imply for the verdict. */
  ghost predicate Accounted(arrivals: seq<Arrival>, reason: Reason, limit: nat) {
    && (reason == NoReason ==> Total(arrivals) <= limit)
    && (reason == LimitExceeded ==> Total(arrivals) > limit)
  }

  ghost predicate Running(st: LoopState, deadline: int, limit: nat) {
    Going(st.log, st.x, deadline, limit) && Accounted(st.arrivals, st.x.reason, limit)
  }

  lemma {:induction false} PhaseReads(log: seq<Mark>, t: nat, u: nat, x: Control, deadline: int, limit: nat, now: int)
    requires Phase(log, t, u, x, deadline, limit)
    requires x.killSent && log[|log| - 1].Reading? ==> log[|log| - 1].now < x.cleanup
    requires x.reason == NoReason ==> now < deadline
    ensures Phase(log + [Reading(now)], t, u, x, deadline, limit)
  {
  }

  lemma {:induction false} PhaseTimesOut(log: seq<Mark>, t: nat, u: nat, x: Control, deadline: int, limit: nat,
                                         now: int, drained: nat)
    requires Phase(log, t, u, x, deadline, limit) && x.reason == NoReason && now >= deadline
    ensures Phase(log + [Reading(now)] + [SigTerm(now, TimedOut, drained)], |log| + 1, u,
                  x.(reason := TimedOut, started := now), deadline, limit)
  {
  }

  lemma {:induction false} PhaseKills(log: seq<Mark>, t: nat, u: nat, x: Control, deadline: int, limit: nat, now: int)
    requires Phase(log, t, u, x, deadline, limit)
    requires x.reason != NoReason && !x.killSent && now >= x.started + TERMINATE_GRACE
    ensures Phase(log + [SigKill(now)], t, |log|, x.(killSent := true, cleanup := now + CLEANUP_GRACE), deadline, limit)
  {
  }

  ghost function Rank(x: Control): nat {
    if x.killSent then 0 else if x.reason != NoReason then 1 else 2
  }

  /** The reading that ends the current phase. */
  ghost function Goal(x: Control, deadline: int): int {
    if x.killSent then x.cleanup
    else if x.reason != NoReason then x.started + TERMINATE_GRACE
    else deadline
  }

  /** A clock that advances without bound reaches every goal after the current pass. */
  lemma {:induction false} NextTarget(c: Child, k: nat, goal: int) returns (target: nat)
    requires Physical(c)
    ensures target >= k && c.clock(target) >= goal
  {
    assert Reaches(c, goal);
    var j: nat :| c.clock(j) >= goal;
    target := if j < k then k else j;
  }

  lemma {:induction false} ServeRuns(c: Child, k: nat, s: Stream, limit: nat, deadline: int, st: LoopState)
    requires Running(st, deadline, limit) && limit >= 1
    requires forall n: nat :: BoundedRead(c.read(k, s, n), n)
    ensures var st' := Serve(c, k, s, limit, st);
      && Running(st', deadline, limit) && st'.stop == st.stop
      && (st'.x == st.x || (st.x.reason == NoReason && st'.x == st.x.(reason := LimitExceeded, started := c.trip(k))))
  {
    var size := ReadSize(st.x.reason, Total(st.arrivals), limit);
    var got := c.read(k, s, size);
    assert BoundedRead(got, size);
    if got.Data? && got.chunk != [] {
      OneMore(st.arrivals, limit, s, got.chunk);
      if st.x.reason == NoReason {
        GoingTrips(st.log, st.x, deadline, limit, c.trip(k));
      }
    }
  }

  lemma {:induction false} ServeReadyRuns(c: Child, k: nat, limit: nat, deadline: int, st: LoopState)
    requires Running(st, deadline, limit) && limit >= 1
    requires forall s: Stream, n: nat :: BoundedRead(c.read(k, s, n), n)
    ensures var st' := ServeReady(c, k, limit, st);
      && Running(st', deadline, limit) && st'.stop == st.stop
      && (st'.x == st.x || (st.x.reason == NoReason && st'.x == st.x.(reason := LimitExceeded, started := c.trip(k))))
  {
    var st' := if st.errOpen && c.ready(k, StdErr) then Serve(c, k, StdErr, limit, st) else st;
    if st.errOpen && c.ready(k, StdErr) { ServeRuns(c, k, StdErr, limit, deadline, st); }
    if st.outOpen && c.ready(k, StdOut) { ServeRuns(c, k, StdOut, limit, deadline, st'); }
  }

  lemma {:induction false} TimedOutPhase(now: int, deadline: int, limit: nat, st: LoopState, t: nat, u: nat)
    returns (t': nat)
    requires Phase(st.log, t, u, st.x, deadline, limit)
    requires st.x.killSent && st.log[|st.log| - 1].Reading? ==> st.log[|st.log| - 1].now < st.x.cleanup
    ensures var st' := TimedOutAt(now, deadline, st); Phase(st'.log, t', u, st'.x, deadline, limit)
  {
    if st.x.reason == NoReason && now >= deadline {
      PhaseTimesOut(st.log, t, u, st.x, deadline, limit, now, Total(st.arrivals));
      t' := |st.log| + 1;
    } else {
      PhaseReads(st.log, t, u, st.x, deadline, limit, now);
      t' := t;
    }
  }

  lemma {:induction false} KilledPhase(now: int, deadline: int, limit: nat, st: LoopState, t: nat, u: nat)
    returns (u': nat)
    requires Phase(st.log, t, u, st.x, deadline, limit)
    ensures var st' := KilledAt(now, st); Phase(st'.log, t, u', st'.x, deadline, limit)
  {
    if st.x.reason != NoReason && !st.x.killSent && now >= st.x.started + TERMINATE_GRACE {
      PhaseKills(st.log, t, u, st.x, deadline, limit, now);
      u' := |st.log|;
    } else {
      u' := u;
    }
  }

  lemma {:induction false} SignalledMark(now: int, deadline: int, st: LoopState)
    ensures var st' := Signalled(now, deadline, st);
      && st'.arrivals == st.arrivals && (st'.x.reason == st.x.reason || (st.x.reason == NoReason && st'.x.reason == TimedOut))
      && (!st'.stop && st'.x.killSent && st'.log[|st'.log| - 1].Reading? ==> st'.log[|st'.log| - 1].now < st'.x.cleanup)
      && Progress(st, st', now, deadline)
  {
  }

  /** Either the phase moves on or its goal is still ahead. */
  ghost predicate Progress(st: LoopState, st': LoopState, now: int, deadline: int) {
    && Rank(st'.x) <= Rank(st.x)
    && (!st'.stop && Rank(st'.x) == Rank(st.x) ==> Goal(st'.x, deadline) == Goal(st.x, deadline) > now)
  }

  /** What holds of a loop at any time. */
  ghost predicate Disciplined(st: LoopState, deadline: int, limit: nat) {
    && Lawful(st.log, deadline, limit) && (st.x.reason == LimitExceeded) == Tripped(st.log)
    && Accounted(st.arrivals, st.x.reason, limit)
    && (!st.stop ==> Running(st, deadline, limit))
  }

  lemma {:induction false} SignalledRuns(now: int, deadline: int, limit: nat, st: LoopState)
    requires Running(st, deadline, limit)
    ensures var st' := Signalled(now, deadline, st);
      Disciplined(st', deadline, limit) && Progress(st, st', now, deadline)
  {
    var t: nat, u: nat :|
      && Phase(st.log, t, u, st.x, deadline, limit)
      && (st.x.killSent && st.log[|st.log| - 1].Reading? ==> st.log[|st.log| - 1].now < st.x.cleanup);
    var t' := TimedOutPhase(now, deadline, limit, st, t, u);
    var u' := KilledPhase(now, deadline, limit, TimedOutAt(now, deadline, st), t', u);
    SignalledMark(now, deadline, st);
    var st' := Signalled(now, deadline, st);
    PhaseIsLawful(st'.log, t', u', st'.x, deadline, limit);
  }

  lemma {:induction false} PassRuns(c: Child, k: nat, limit: nat, deadline: int, st: LoopState)
    requires Running(st, deadline, limit) && limit >= 1
    requires forall s: Stream, n: nat :: BoundedRead(c.read(k, s, n), n)
    ensures var st' := OnePass(c, k, limit, deadline, st);
      Disciplined(st', deadline, limit) && Progress(st, st', c.clock(k), deadline)
  {
    SignalledRuns(c.clock(k), deadline, limit, st);
    var st' := Signalled(c.clock(k), deadline, st);
    if !st'.stop {
      ServeReadyRuns(c, k, limit, deadline, st');
      var end := ServeReady(c, k, limit, st');
      GoingIsLawful(end.log, end.x, deadline, limit);
    }
  }

  /** A pass that keeps the discipline and makes progress against the clock. */
  ghost predicate Obeys(step: Step, clock: nat -> int, deadline: int, limit: nat) {
    forall k: nat, st :: Running(st, deadline, limit) ==>
      Disciplined(step(k, st), deadline, limit) && Progress(st, step(k, st), clock(k), deadline)
  }

  lemma {:induction false} PassesObey(c: Child, limit: nat, deadline: int)
    requires ReadsBounded(c) && limit >= 1
    ensures Obeys(Passes(c, limit, deadline), c.clock, deadline, limit)
  {
    forall k: nat, st | Running(st, deadline, limit)
      ensures Disciplined(Passes(c, limit, deadline)(k, st), deadline, limit)
      ensures Progress(st, Passes(c, limit, deadline)(k, st), c.clock(k), deadline)
    {
      PassRuns(c, k, limit, deadline, st);
    }
  }

  lemma {:induction false} InitiallyDisciplined(deadline: int, limit: nat)
    ensures Disciplined(Initially(), deadline, limit)
  {
    var st := Initially();
    assert Phase(st.log, 0, 0, st.x, deadline, limit);
    GoingIsLawful(st.log, st.x, deadline, limit);
  }

  lemma {:induction false} AfterIsDisciplined(step: Step, clock: nat -> int, deadline: int, limit: nat, k: nat)
    requires Obeys(step, clock, deadline, limit)
    ensures Disciplined(After(step, k), deadline, limit)
  {
    if k == 0 {
      InitiallyDisciplined(deadline, limit);
    } else {
      AfterIsDisciplined(step, clock, deadline, limit, k - 1);
    }
  }

  /** After any number of passes, whatever the child does and even if the clock stands still or runs
      backwards: one terminate with its cause, one kill after the grace period, nothing past the
      cleanup deadline, and a verdict that agrees with the bytes drained. */
  lemma {:induction false} LoopIsLawful(c: Child, limit: nat, deadline: int, k: nat)
    requires ReadsBounded(c) && limit >= 1
    ensures Disciplined(After(Passes(c, limit, deadline), k), deadline, limit)
  {
    PassesObey(c, limit, deadline);
    AfterIsDisciplined(Passes(c, limit, deadline), c.clock, deadline, limit, k);
  }

  ghost predicate Unbounded(clock: nat -> int) {
    forall t: int, k: nat :: PassesBy(clock, k, t)
  }

  /** Some reading from pass `k` on is at least `t`. */
  ghost predicate PassesBy(clock: nat -> int, k: nat, t: int) {
    exists j: nat :: k <= j && clock(j) >= t
  }

  lemma {:induction false} ClockIsUnbounded(c: Child)
    requires Physical(c)
    ensures Unbounded(c.clock)
  {
    forall t: int, k: nat ensures PassesBy(c.clock, k, t) {
      var j := NextTarget(c, k, t);
    }
  }

  /** The clock ends every loop, whatever the child does. */
  lemma {:induction false} LoopEnds(c: Child, limit: nat, deadline: int) returns (end: nat)
    requires Physical(c) && limit >= 1
    ensures Ends(Passes(c, limit, deadline), end)
  {
    PassesObey(c, limit, deadline);
    ClockIsUnbounded(c);
    end := ObedientEnds(Passes(c, limit, deadline), c.clock, deadline, limit);
  }

  lemma {:induction false} ObedientEnds(step: Step, clock: nat -> int, deadline: int, limit: nat) returns (end: nat)
    requires Obeys(step, clock, deadline, limit) && Unbounded(clock)
    ensures Ends(step, end)
  {
    assert PassesBy(clock, 0, deadline);
    var target: nat :| clock(target) >= deadline;
    end := EndsBy(step, clock, deadline, limit, 0, target);
  }

  lemma {:induction false} NextPass(step: Step, clock: nat -> int, deadline: int, limit: nat, k: nat)
    requires Obeys(step, clock, deadline, limit) && !Over(After(step, k))
    ensures Progress(After(step, k), After(step, k + 1), clock(k), deadline)
  {
    AfterIsDisciplined(step, clock, deadline, limit, k);
    assert Running(After(step, k), deadline, limit);
  }

  lemma {:induction false} EndsBy(step: Step, clock: nat -> int, deadline: int, limit: nat, k: nat, target: nat)
    returns (end: nat)
    requires Obeys(step, clock, deadline, limit) && Unbounded(clock)
    requires k > 0 ==> !Over(After(step, k - 1))
    requires k <= target && clock(target) >= Goal(After(step, k).x, deadline)
    ensures Ends(step, end)
    decreases Rank(After(step, k).x), target - k
  {
    var st, st' := After(step, k), After(step, k + 1);
    if Over(st) {
      return k;
    }
    NextPass(step, clock, deadline, limit, k);
    if Over(st') {
      return k + 1;
    }
    if Rank(st'.x) < Rank(st.x) {
      assert PassesBy(clock, k + 1, Goal(st'.x, deadline));
      var next: nat :| k + 1 <= next && clock(next) >= Goal(st'.x, deadline);
      end := EndsBy(step, clock, deadline, limit, k + 1, next);
    } else {
      assert k != target;
      end := EndsBy(step, clock, deadline, limit, k + 1, target);
    }
  }

  // ---------------------------------------------------------------- the loop's record is the child's

  function Readings(log: seq<Mark>): seq<int> {
    if log == [] then []
    else
      var last := log[|log| - 1];
      Readings(log[..|log| - 1]) + if last.Reading? then [last.now] else []
  }

  lemma {:induction false} ReadingsAdd(log: seq<Mark>, mark: Mark)
    ensures Readings(log + [mark]) == Readings(log) + if mark.Reading? then [mark.now] else []
  {
    assert (log + [mark])[..|log|] == log;
  }

  lemma {:induction false} ServeReads(c: Child, k: nat, s: Stream, limit: nat, st: LoopState)
    ensures Readings(Serve(c, k, s, limit, st).log) == Readings(st.log)
  {
    var got := c.read(k, s, ReadSize(st.x.reason, Total(st.arrivals), limit));
    if got.Data? {
      ReadingsAdd(st.log, SigTerm(c.trip(k), LimitExceeded, Total(st.arrivals + [Arrival(s, got.chunk)])));
    }
  }

  lemma {:induction false} TimedOutReads(now: int, deadline: int, st: LoopState)
    ensures Readings(TimedOutAt(now, deadline, st).log) == Readings(st.log) + [now]
  {
    ReadingsAdd(st.log, Reading(now));
    ReadingsAdd(st.log + [Reading(now)], SigTerm(now, TimedOut, Total(st.arrivals)));
  }

  lemma {:induction false} KilledReads(now: int, st: LoopState)
    ensures Readings(KilledAt(now, st).log) == Readings(st.log)
  {
    ReadingsAdd(st.log, SigKill(now));
  }

  lemma {:induction false} SignalledReads(now: int, deadline: int, st: LoopState)
    ensures Readings(Signalled(now, deadline, st).log) == Readings(st.log) + [now]
  {
    TimedOutReads(now, deadline, st);
    KilledReads(now, TimedOutAt(now, deadline, st));
  }

  lemma {:induction false} PassReads(c: Child, k: nat, limit: nat, deadline: int, st: LoopState)
    ensures Readings(OnePass(c, k, limit, deadline, st).log) == Readings(st.log) + [c.clock(k)]
  {
    SignalledReads(c.clock(k), deadline, st);
    var st2 := Signalled(c.clock(k), deadline, st);
    if !st2.stop {
      var st3 := if st2.errOpen && c.ready(k, StdErr) then Serve(c, k, StdErr, limit, st2) else st2;
      ServeReads(c, k, StdErr, limit, st2);
      ServeReads(c, k, StdOut, limit, st3);
    }
  }

  ghost predicate ReadsOnce(step: Step, clock: nat -> int) {
    forall k: nat, st :: Readings(step(k, st).log) == Readings(st.log) + [clock(k)]
  }

  lemma {:induction false} ReadsInOrder(step: Step, clock: nat -> int, k: nat)
    requires ReadsOnce(step, clock) && (k > 0 ==> !Over(After(step, k - 1)))
    ensures Readings(After(step, k).log) == seq(k, i requires 0 <= i < k => clock(i))
  {
    if k > 0 { ReadsInOrder(step, clock, k - 1); }
  }

  /** The clock is read once a pass, and the log holds exactly those readings in order. */
  lemma {:induction false} ReadingsAreTheClock(c: Child, limit: nat, deadline: int, k: nat)
    requires k > 0 ==> !Over(After(Passes(c, limit, deadline), k - 1))
    ensures Readings(After(Passes(c, limit, deadline), k).log) == seq(k, i requires 0 <= i < k => c.clock(i))
  {
    var step := Passes(c, limit, deadline);
    forall j: nat, st ensures Readings(step(j, st).log) == Readings(st.log) + [c.clock(j)] {
      PassReads(c, j, limit, deadline, st);
    }
    ReadsInOrder(step, c.clock, k);
  }

  /** A read of a pipe that `select` reported in pass `j`. */
  ghost predicate ReadIn(c: Child, j: nat, a: Arrival) {
    c.ready(j, a.stream) && exists n: nat :: c.read(j, a.stream, n) == Data(a.chunk)
  }

  ghost predicate ReadBefore(c: Child, k: nat, a: Arrival) {
    exists j: nat :: j < k && ReadIn(c, j, a)
  }

  ghost predicate AllRead(c: Child, k: nat, st: LoopState) {
    && (forall i :: 0 <= i < |st.arrivals| ==> st.arrivals[i].chunk != [] && ReadBefore(c, k, st.arrivals[i]))
    && (forall s :: !Open(st, s) ==> ReadBefore(c, k, Arrival(s, [])))
  }

  lemma {:induction false} AllReadGrows(c: Child, k: nat, st: LoopState)
    requires AllRead(c, k, st)
    ensures AllRead(c, k + 1, st)
  {
    forall a | ReadBefore(c, k, a) ensures ReadBefore(c, k + 1, a) {
      var j: nat :| j < k && ReadIn(c, j, a);
      assert j < k + 1 && ReadIn(c, j, a);
    }
  }

  lemma {:induction false} ServeIsRead(c: Child, k: nat, s: Stream, limit: nat, st: LoopState)
    requires AllRead(c, k + 1, st) && c.ready(k, s)
    ensures AllRead(c, k + 1, Serve(c, k, s, limit, st))
  {
    var n := ReadSize(st.x.reason, Total(st.arrivals), limit);
    var got := c.read(k, s, n);
    if got.Data? {
      assert ReadIn(c, k, Arrival(s, got.chunk));
      assert k < k + 1 && ReadIn(c, k, Arrival(s, got.chunk));
      var st' := Serve(c, k, s, limit, st);
      forall x | !Open(st', x) ensures ReadBefore(c, k + 1, Arrival(x, [])) {
        if Open(st, x) { assert x == s && got.chunk == []; }
      }
    }
  }

  lemma {:induction false} PassIsRead(c: Child, k: nat, limit: nat, deadline: int, st: LoopState)
    requires AllRead(c, k, st)
    ensures AllRead(c, k + 1, OnePass(c, k, limit, deadline, st))
  {
    AllReadGrows(c, k, st);
    var st1 := Signalled(c.clock(k), deadline, st);
    assert st1.arrivals == st.arrivals && forall s :: Open(st1, s) == Open(st, s);
    assert AllRead(c, k + 1, st1);
    if !st1.stop {
      if st1.errOpen && c.ready(k, StdErr) { ServeIsRead(c, k, StdErr, limit, st1); }
      var st2 := if st1.errOpen && c.ready(k, StdErr) then Serve(c, k, StdErr, limit, st1) else st1;
      if st1.outOpen && c.ready(k, StdOut) { ServeIsRead(c, k, StdOut, limit, st2); }
    }
  }

  ghost predicate OnlyReads(step: Step, c: Child) {
    forall k: nat, st :: AllRead(c, k, st) ==> AllRead(c, k + 1, st) && AllRead(c, k + 1, step(k, st))
  }

  lemma {:induction false} AfterIsRead(step: Step, c: Child, k: nat)
    requires OnlyReads(step, c)
    ensures AllRead(c, k, After(step, k))
  {
    if k > 0 { AfterIsRead(step, c, k - 1); }
  }

  /** Every chunk accounted for was read from the child in one of the passes, from a pipe that
      was ready then, and a pipe was closed only after the child had closed its end. */
  lemma {:induction false} ArrivalsAreReads(c: Child, limit: nat, deadline: int, k: nat)
    ensures AllRead(c, k, After(Passes(c, limit, deadline), k))
  {
    var step := Passes(c, limit, deadline);
    forall j: nat, st | AllRead(c, j, st) ensures AllRead(c, j + 1, st) && AllRead(c, j + 1, step(j, st)) {
      AllReadGrows(c, j, st);
      PassIsRead(c, j, limit, deadline, st);
    }
    AfterIsRead(step, c, k);
  }

  lemma {:induction false} PassStops(c: Child, k: nat, limit: nat, deadline: int, st: LoopState)
    requires !st.stop
    ensures var st' := OnePass(c, k, limit, deadline, st);
      st'.stop ==> st'.x.killSent && c.clock(k) >= st'.x.cleanup
  {
    var st1 := Signalled(c.clock(k), deadline, st);
    if !st1.stop {
      var st2 := if st1.errOpen && c.ready(k, StdErr) then Serve(c, k, StdErr, limit, st1) else st1;
      assert !st2.stop;
    }
  }

  ghost predicate StopsPastCleanup(step: Step, clock: nat -> int) {
    forall k: nat, st: LoopState :: !st.stop && step(k, st).stop ==>
      step(k, st).x.killSent && clock(k) >= step(k, st).x.cleanup
  }

  lemma {:induction false} EndedBecause(step: Step, clock: nat -> int, k: nat)
    requires Ends(step, k) && StopsPastCleanup(step, clock)
    ensures var st := After(step, k);
      && k > 0
      && (st.stop ==> st.x.killSent && clock(k - 1) >= st.x.cleanup)
      && (!st.stop ==> !st.outOpen && !st.errOpen)
  {
    assert !Over(After(step, 0));
    assert After(step, k) == step(k - 1, After(step, k - 1));
  }

  /** Why a loop ended: the child had closed both pipes, or the last reading of the clock was past
      the cleanup deadline of a kill. */
  lemma {:induction false} WhyItEnded(c: Child, limit: nat, deadline: int, k: nat)
    requires Ends(Passes(c, limit, deadline), k)
    ensures var st := After(Passes(c, limit, deadline), k);
      && k > 0
      && (st.stop ==> st.x.killSent && c.clock(k - 1) >= st.x.cleanup)
      && (!st.stop ==> ReadBefore(c, k, Arrival(StdOut, [])) && ReadBefore(c, k, Arrival(StdErr, [])))
  {
    ArrivalsAreReads(c, limit, deadline, k);
    PassesStopPastCleanup(c, limit, deadline);
    EndedBecause(Passes(c, limit, deadline), c.clock, k);
    BothClosed(c, k, After(Passes(c, limit, deadline), k));
  }

  lemma {:induction false} PassesStopPastCleanup(c: Child, limit: nat, deadline: int)
    ensures StopsPastCleanup(Passes(c, limit, deadline), c.clock)
  {
    forall k: nat, st: LoopState | !st.stop && OnePass(c, k, limit, deadline, st).stop
      ensures var st' := OnePass(c, k, limit, deadline, st); st'.x.killSent && c.clock(k) >= st'.x.cleanup
    {
      PassStops(c, k, limit, deadline, st);
    }
  }

  lemma {:induction false} BothClosed(c: Child, k: nat, st: LoopState)
    requires AllRead(c, k, st)
    ensures !st.outOpen ==> ReadBefore(c, k, Arrival(StdOut, []))
    ensures !st.errOpen ==> ReadBefore(c, k, Arrival(StdErr, []))
  {
    assert Open(st, StdOut) == st.outOpen && Open(st, StdErr) == st.errOpen;
  }

  // ---------------------------------------------------------------- the loop in place

  class StreamAccumulator {
    var retained: seq<Byte>
    /** Everything fed to the digest so far. */
    var absorbed: seq<Byte>
    var totalBytes: nat

    constructor ()
      ensures retained == [] && absorbed == [] && totalBytes == 0
    {
      retained, absorbed, totalBytes := [], [], 0;
    }

    method Consume(chunk: seq<Byte>, retainBytes: int)
      modifies this
      ensures absorbed == old(absorbed) + chunk
      ensures totalBytes == old(totalBytes) + |chunk|
      ensures retained == old(retained) + chunk[..Min(|chunk|, Max(0, retainBytes))]
    {
      absorbed := absorbed + chunk;
      totalBytes := totalBytes + |chunk|;
      if retainBytes > 0 {
        retained := retained + chunk[..Min(|chunk|, retainBytes)];
      }
    }

    method Result() returns (r: CapturedStream)
      requires totalBytes == |absorbed|
      ensures r == Completed(absorbed, retained)
    {
      r := CapturedStream(absorbed, retained, totalBytes, |retained|, totalBytes > |retained|);
    }
  }

  /** The accumulators hold exactly what the reads so far put there. */
  ghost predicate Holds(out: StreamAccumulator, err: StreamAccumulator, arrivals: seq<Arrival>, limit: nat)
    reads out, err
  {
    && out != err
    && out.absorbed == Drained(arrivals, StdOut) && err.absorbed == Drained(arrivals, StdErr)
    && out.retained == Kept(arrivals, limit, StdOut) && err.retained == Kept(arrivals, limit, StdErr)
    && out.totalBytes == |out.absorbed| && err.totalBytes == |err.absorbed|
  }

  /** How one more read changes what is drained and kept. */
  lemma {:induction false} OneMore(arrivals: seq<Arrival>, limit: nat, s: Stream, chunk: seq<Byte>)
    ensures var more := arrivals + [Arrival(s, chunk)];
      && (forall x :: Drained(more, x) == Drained(arrivals, x) + if x == s then chunk else [])
      && (forall x :: Kept(more, limit, x)
            == Kept(arrivals, limit, x) + if x == s then chunk[..Room(arrivals, limit, |chunk|)] else [])
      && Total(more) == Total(arrivals) + |chunk|
  {
    var more := arrivals + [Arrival(s, chunk)];
    assert more[..|more| - 1] == arrivals;
  }

  /** The accumulators and the peak agree with the reads made so far. */
  ghost predicate Mirrors(out: StreamAccumulator, err: StreamAccumulator, peak: nat, arrivals: seq<Arrival>, limit: nat)
    reads out, err
  {
    && Holds(out, err, arrivals, limit)
    && peak == |Kept(arrivals, limit, StdOut)| + |Kept(arrivals, limit, StdErr)|
  }

  method TotalDrained(out: StreamAccumulator, err: StreamAccumulator, ghost arrivals: seq<Arrival>, ghost limit: nat)
    returns (n: nat)
    requires Holds(out, err, arrivals, limit)
    ensures n == Total(arrivals)
  {
    n := out.totalBytes + err.totalBytes;
  }

  /** Account for a chunk: retain it up to the ceiling and absorb all of it. */
  method Absorb(s: Stream, chunk: seq<Byte>, limit: nat, out: StreamAccumulator, err: StreamAccumulator,
                peak: nat, ghost arrivals: seq<Arrival>)
    returns (peak': nat)
    requires Mirrors(out, err, peak, arrivals, limit)
    modifies out, err
    ensures Mirrors(out, err, peak', arrivals + [Arrival(s, chunk)], limit)
    ensures Total(arrivals + [Arrival(s, chunk)]) == Total(arrivals) + |chunk|
  {
    OneMore(arrivals, limit, s, chunk);
    var retainedTotal := |out.retained| + |err.retained|;
    var retainBytes := Min(|chunk|, Max(0, limit - retainedTotal));
    if s == StdOut { out.Consume(chunk, retainBytes); } else { err.Consume(chunk, retainBytes); }
    peak' := Max(peak, retainedTotal + retainBytes);
  }

  /** Serve one readiness event: a bounded read, accounted for and checked against the ceiling. */
  method ServePipe(c: Child, k: nat, s: Stream, limit: nat, x: Control,
                   out: StreamAccumulator, err: StreamAccumulator, peak: nat, ghost st: LoopState)
    returns (open: bool, x': Control, peak': nat)
    requires Mirrors(out, err, peak, st.arrivals, limit) && x == st.x && Open(st, s)
    modifies out, err
    ensures var st' := Serve(c, k, s, limit, st);
      Mirrors(out, err, peak', st'.arrivals, limit) && x' == st'.x && open == Open(st', s)
  {
    open, x', peak' := true, x, peak;
    var totalDrained := TotalDrained(out, err, st.arrivals, limit);
    var got := c.read(k, s, ReadSize(x.reason, totalDrained, limit));
    if got.WouldBlock? {
      return;
    }
    if got.chunk == [] {
      open := false;
      return;
    }
    peak' := Absorb(s, got.chunk, limit, out, err, peak, st.arrivals);
    totalDrained := totalDrained + |got.chunk|;
    if x.reason == NoReason && totalDrained > limit {
      x' := x.(reason := LimitExceeded, started := c.trip(k));
    }
  }

  lemma {:induction false} ServeKeepsOther(c: Child, k: nat, s: Stream, limit: nat, st: LoopState)
    ensures forall x :: x != s ==> Open(Serve(c, k, s, limit, st), x) == Open(st, x)
  {
  }

  /** Serve the reported pipes. */
  method ServePipes(c: Child, k: nat, limit: nat, x: Control, out: StreamAccumulator, err: StreamAccumulator,
                    outOpen: bool, errOpen: bool, peak: nat, ghost st: LoopState)
    returns (outOpen': bool, errOpen': bool, x': Control, peak': nat)
    requires Mirrors(out, err, peak, st.arrivals, limit)
    requires x == st.x && outOpen == st.outOpen && errOpen == st.errOpen
    modifies out, err
    ensures var st' := ServeReady(c, k, limit, st);
      Mirrors(out, err, peak', st'.arrivals, limit) && x' == st'.x && outOpen' == st'.outOpen && errOpen' == st'.errOpen
  {
    outOpen', errOpen', x', peak' := outOpen, errOpen, x, peak;
    ghost var st' := st;
    if errOpen && c.ready(k, StdErr) {
      errOpen', x', peak' := ServePipe(c, k, StdErr, limit, x', out, err, peak', st');
      ServeKeepsOther(c, k, StdErr, limit, st');
      st' := Serve(c, k, StdErr, limit, st');
    }
    if outOpen && c.ready(k, StdOut) {
      outOpen', x', peak' := ServePipe(c, k, StdOut, limit, x', out, err, peak', st');
      ServeKeepsOther(c, k, StdOut, limit, st');
    }
  }

  /** The clock's part of a pass. */
  method Signal(now: int, deadline: int, x: Control, ghost st: LoopState) returns (x': Control, stop: bool)
    requires x == st.x
    ensures var st' := Signalled(now, deadline, st); x' == st'.x && stop == st'.stop
  {
    x' := x;
    if x'.reason == NoReason && now >= deadline {
      x' := x'.(reason := TimedOut, started := now);
    }
    if x'.reason != NoReason && !x'.killSent && now >= x'.started + TERMINATE_GRACE {
      x' := x'.(killSent := true, cleanup := now + CLEANUP_GRACE);
    }
    stop := x'.killSent && now >= x'.cleanup;
  }

  /** The loop's variables agree with where its passes lead. */
  ghost predicate Tracks(out: StreamAccumulator, err: StreamAccumulator, peak: nat, x: Control,
                         outOpen: bool, errOpen: bool, stop: bool, st: LoopState, limit: nat)
    reads out, err
  {
    && Mirrors(out, err, peak, st.arrivals, limit)
    && x == st.x && outOpen == st.outOpen && errOpen == st.errOpen && stop == st.stop
  }

  method DoPass(c: Child, k: nat, limit: nat, deadline: int, x: Control, out: StreamAccumulator,
                err: StreamAccumulator, outOpen: bool, errOpen: bool, peak: nat, ghost st: LoopState)
    returns (outOpen': bool, errOpen': bool, x': Control, stop: bool, peak': nat)
    requires Mirrors(out, err, peak, st.arrivals, limit)
    requires x == st.x && outOpen == st.outOpen && errOpen == st.errOpen && !st.stop
    modifies out, err
    ensures var st' := OnePass(c, k, limit, deadline, st);
      && Mirrors(out, err, peak', st'.arrivals, limit) && stop == st'.stop
      && x' == st'.x && outOpen' == st'.outOpen && errOpen' == st'.errOpen
  {
    outOpen', errOpen', peak' := outOpen, errOpen, peak;
    x', stop := Signal(c.clock(k), deadline, x, st);
    ghost var st1 := Signalled(c.clock(k), deadline, st);
    assert Mirrors(out, err, peak, st1.arrivals, limit);
    if !stop {
      outOpen', errOpen', x', peak' := ServePipes(c, k, limit, x', out, err, outOpen, errOpen, peak, st1);
      ServeKeepsStop(c, k, limit, st1);
    }
  }

  lemma {:induction false} ServeKeepsStop(c: Child, k: nat, limit: nat, st: LoopState)
    ensures ServeReady(c, k, limit, st).stop == st.stop
  {
  }

  ghost predicate LeadsTo(step: Step, k: nat, st: LoopState, st': LoopState) {
    st' == step(k, st)
  }

  /** The states a loop goes through, up to the first one in which it is over. */
  ghost predicate Course(step: Step, states: seq<LoopState>) {
    && states != [] && states[0] == Initially() && Over(states[|states| - 1])
    && (forall k :: 0 <= k < |states| - 1 ==> !Over(states[k]))
    && (forall k, n :: 0 <= k < |states| - 1 && n == k + 1 ==> LeadsTo(step, k, states[k], states[n]))
  }

  lemma {:induction false} CourseOf(step: Step, end: nat) returns (states: seq<LoopState>)
    requires Ends(step, end)
    ensures Course(step, states) && |states| == end + 1 && states[end] == After(step, end)
  {
    states := seq(end + 1, k requires 0 <= k <= end => After(step, k));
    forall k | 0 <= k < end ensures !Over(states[k]) {
      NotOverBefore(step, end, k);
    }
    forall k, n | 0 <= k < end && n == k + 1 ensures LeadsTo(step, k, states[k], states[n]) {
      NotOverBefore(step, end, k);
      assert After(step, n) == step(k, After(step, k));
    }
  }

  ghost predicate PassLeadsTo(c: Child, k: nat, limit: nat, deadline: int, st: LoopState, st': LoopState) {
    st' == OnePass(c, k, limit, deadline, st)
  }

  /** The same, with every step a pass over this child. */
  ghost predicate CourseOver(c: Child, limit: nat, deadline: int, states: seq<LoopState>) {
    && states != [] && states[0] == Initially() && Over(states[|states| - 1])
    && (forall k :: 0 <= k < |states| - 1 ==> !Over(states[k]))
    && (forall k, n :: 0 <= k < |states| - 1 && n == k + 1 ==>
          PassLeadsTo(c, k, limit, deadline, states[k], states[n]))
  }

  lemma {:induction false} CourseOverChild(c: Child, limit: nat, deadline: int, states: seq<LoopState>)
    requires Course(Passes(c, limit, deadline), states)
    ensures CourseOver(c, limit, deadline, states)
  {
    forall k, n | 0 <= k < |states| - 1 && n == k + 1
      ensures PassLeadsTo(c, k, limit, deadline, states[k], states[n])
    {
      assert LeadsTo(Passes(c, limit, deadline), k, states[k], states[n]);
    }
  }

  /** Pass after pass until both pipes are closed or the cleanup deadline is past. */
  method PassUntilOver(c: Child, limit: nat, deadline: int, out: StreamAccumulator, err: StreamAccumulator,
                       ghost states: seq<LoopState>)
    returns (reason: Reason, peak: nat)
    requires CourseOver(c, limit, deadline, states)
    requires Mirrors(out, err, 0, [], limit)
    modifies out, err
    ensures var st := states[|states| - 1];
      reason == st.x.reason && Mirrors(out, err, peak, st.arrivals, limit)
  {
    var outOpen, errOpen, stop, x, k := true, true, false, Control(NoReason, 0, false, 0), 0;
    peak := 0;
    while !stop && (outOpen || errOpen)
      invariant k < |states| && Tracks(out, err, peak, x, outOpen, errOpen, stop, states[k], limit)
      decreases |states| - k
    {
      assert k != |states| - 1;
      outOpen, errOpen, x, stop, peak :=
        DoPass(c, k, limit, deadline, x, out, err, outOpen, errOpen, peak, states[k]);
      assert PassLeadsTo(c, k, limit, deadline, states[k], states[k + 1]);
      k := k + 1;
    }
    assert k == |states| - 1;
    reason := x.reason;
  }

  /** The capture loop ends, whatever the child does, exactly where its passes lead. */
  method Loop(c: Child, limit: nat, deadline: int, out: StreamAccumulator, err: StreamAccumulator)
    returns (reason: Reason, peak: nat, ghost passes: nat)
    requires Physical(c) && limit >= 1
    requires Mirrors(out, err, 0, [], limit)
    modifies out, err
    ensures Ends(Passes(c, limit, deadline), passes)
    ensures var st := After(Passes(c, limit, deadline), passes);
      reason == st.x.reason && Mirrors(out, err, peak, st.arrivals, limit)
  {
    passes := LoopEnds(c, limit, deadline);
    ghost var states := CourseOf(Passes(c, limit, deadline), passes);
    CourseOverChild(c, limit, deadline, states);
    reason, peak := PassUntilOver(c, limit, deadline, out, err, states);
  }

  datatype RunOutcome = InvalidLimit | TimeoutExpired | Finished(result: BoundedResult)

  /** What a run comes to, given where its loop ended. */
  function Concluded(c: Child, limit: nat, st: LoopState): RunOutcome {
    if st.x.reason == TimedOut || (st.x.reason == NoReason && !c.exitsInTime) then TimeoutExpired
    else Finished(ResultOf(st.arrivals, limit, c.returncode))
  }

  /** A finished run's verdict is the trip of its loop. */
  lemma {:induction false} VerdictIsTheTrip(c: Child, limit: nat, deadline: int, st: LoopState)
    requires Disciplined(st, deadline, limit) && Concluded(c, limit, st).Finished?
    ensures var r := Concluded(c, limit, st).result;
      Coherent(r, limit) && r.exceeded == Tripped(st.log) == (st.x.reason == LimitExceeded)
  {
    ResultIsCoherent(st.arrivals, limit, c.returncode);
  }

  /** The verdict the loop's reason gives is the one the byte counts give. */
  lemma {:induction false} ReasonIsTheVerdict(c: Child, limit: nat, deadline: int, k: nat)
    requires ReadsBounded(c) && limit >= 1
    ensures var st := After(Passes(c, limit, deadline), k);
      st.x.reason != TimedOut ==> (st.x.reason == LimitExceeded) == (Total(st.arrivals) > limit)
  {
    LoopIsLawful(c, limit, deadline, k);
  }

  method RunBounded(c: Child, limit: nat, deadline: int) returns (outcome: RunOutcome, ghost passes: nat)
    requires Physical(c) && limit >= 1
    ensures Ends(Passes(c, limit, deadline), passes)
    ensures outcome == Concluded(c, limit, After(Passes(c, limit, deadline), passes))
  {
    var out := new StreamAccumulator();
    var err := new StreamAccumulator();
    var reason, peak;
    reason, peak, passes := Loop(c, limit, deadline, out, err);
    ReasonIsTheVerdict(c, limit, deadline, passes);
    if reason == NoReason && !c.exitsInTime {
      reason := TimedOut;
    }
    var stdout := out.Result();
    var stderr := err.Result();
    if reason == TimedOut {
      return TimeoutExpired, passes;
    }
    outcome := Finished(BoundedResult(c.returncode, stdout, stderr, reason == LimitExceeded, peak));
  }

  /** The outcome is the one the loop's end leads to. */
  ghost predicate OutcomeOf(c: Child, limit: nat, deadline: int, outcome: RunOutcome) {
    forall k: nat :: Ends(Passes(c, limit, deadline), k) ==>
      outcome == Concluded(c, limit, After(Passes(c, limit, deadline), k))
  }

  lemma {:induction false} OutcomeIsOne(c: Child, limit: nat, deadline: int, passes: nat)
    requires Ends(Passes(c, limit, deadline), passes)
    ensures OutcomeOf(c, limit, deadline, Concluded(c, limit, After(Passes(c, limit, deadline), passes)))
  {
    forall k: nat | Ends(Passes(c, limit, deadline), k) ensures k == passes {
      EndsOnce(Passes(c, limit, deadline), k, passes);
    }
  }

  /** A finished run reports what its loop drained, and passed its ceiling just if the loop tripped. */
  lemma {:induction false} FinishedRun(c: Child, limit: nat, deadline: int, passes: nat, r: BoundedResult)
    requires ReadsBounded(c) && limit >= 1
    requires Ends(Passes(c, limit, deadline), passes) && OutcomeOf(c, limit, deadline, Finished(r))
    ensures var st := After(Passes(c, limit, deadline), passes);
      r == ResultOf(st.arrivals, limit, c.returncode) && Coherent(r, limit) && r.exceeded == Tripped(st.log)
  {
    var st := After(Passes(c, limit, deadline), passes);
    assert Finished(r) == Concluded(c, limit, st);
    LoopIsLawful(c, limit, deadline, passes);
    VerdictIsTheTrip(c, limit, deadline, st);
  }

  /** Run a child under a time limit and one combined output ceiling. */
  method Run(c: Child, timeout: int, maxOutputBytes: Value) returns (outcome: RunOutcome, ghost passes: nat)
    requires Physical(c)
    ensures ValidateLimit(maxOutputBytes).None? ==> outcome == InvalidLimit
    ensures ValidateLimit(maxOutputBytes).Some? ==>
      var limit, deadline := ValidateLimit(maxOutputBytes).value, c.start + timeout;
      Ends(Passes(c, limit, deadline), passes) && OutcomeOf(c, limit, deadline, outcome)
  {
    passes := 0;
    var validated := ValidateLimit(maxOutputBytes);
    if validated.None? {
      return InvalidLimit, passes;
    }
    outcome, passes := RunBounded(c, validated.value, c.start + timeout);
    OutcomeIsOne(c, validated.value, c.start + timeout, passes);
  }
}
