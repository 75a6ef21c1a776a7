/** Bounded capture of a child's output: what two streams drained under one combined ceiling
    leave behind, whatever the order of reads. */
module Capture {
  import opened Values

  type Byte = n: int | 0 <= n < 256

  datatype Stream = StdOut | StdErr

  /** One non-empty read, in the order the loop made them. */
  datatype Arrival = Arrival(stream: Stream, chunk: seq<Byte>)

  /** `hashed` is everything the digest absorbed, `kept` the bytes the text is decoded from. */
  datatype CapturedStream = CapturedStream(hashed: seq<Byte>, kept: seq<Byte>, totalBytes: nat,
                                           retainedBytes: nat, truncated: bool)

  datatype BoundedResult = BoundedResult(returncode: int, stdout: CapturedStream, stderr: CapturedStream,
                                         exceeded: bool, peak: nat)

  function Min(a: int, b: int): int { if a <= b then a else b }
  function Max(a: int, b: int): int { if a >= b then a else b }

  // ---------------------------------------------------------------- limits

  /** Only an exact positive integer is a limit. */
  function ValidateLimit(v: Value): Option<nat> {
    match v
    case Int(n) => if n > 0 then Some(n) else None
    case _ => None
  }

  function ResolveLimit(configured: Value, policy: Option<Value>): Option<nat> {
    match ValidateLimit(configured)
    case None => None
    case Some(c) =>
      match policy
      case None => Some(c)
      case Some(p) =>
        match ValidateLimit(p)
        case None => None
        case Some(l) => Some(Min(c, l))
  }

  // ---------------------------------------------------------------- what a run of reads keeps

  /** All bytes a stream delivered. */
  function Drained(arrivals: seq<Arrival>, s: Stream): seq<Byte> {
    if arrivals == [] then []
    else
      var last := arrivals[|arrivals| - 1];
      Drained(arrivals[..|arrivals| - 1], s) + if last.stream == s then last.chunk else []
  }

  function Total(arrivals: seq<Arrival>): nat {
    |Drained(arrivals, StdOut)| + |Drained(arrivals, StdErr)|
  }

  /** The bytes retained from a stream: each chunk is kept up to the room the ceiling leaves. */
  function Kept(arrivals: seq<Arrival>, limit: nat, s: Stream): seq<Byte>
    decreases |arrivals|, 0
  {
    if arrivals == [] then []
    else
      var before, last := arrivals[..|arrivals| - 1], arrivals[|arrivals| - 1];
      Kept(before, limit, s) +
        if last.stream == s then last.chunk[..Room(before, limit, |last.chunk|)] else []
  }

  function Room(arrivals: seq<Arrival>, limit: nat, wanted: nat): (r: nat)
    ensures r <= wanted
    decreases |arrivals|, 1
  {
    Min(wanted, Max(0, limit - |Kept(arrivals, limit, StdOut)| - |Kept(arrivals, limit, StdErr)|))
  }

  /** For every interleaving: what is retained is a prefix of each stream, and the two
      together hold the smaller of the bytes drained and the ceiling. */
  lemma {:induction false} KeptFacts(arrivals: seq<Arrival>, limit: nat)
    ensures forall s :: Kept(arrivals, limit, s) <= Drained(arrivals, s)
    ensures |Kept(arrivals, limit, StdOut)| + |Kept(arrivals, limit, StdErr)| == Min(Total(arrivals), limit)
  {
    if Total(arrivals) <= limit {
      KeptEverything(arrivals, limit);
    } else {
      var before, last := arrivals[..|arrivals| - 1], arrivals[|arrivals| - 1];
      KeptFacts(before, limit);
      if Total(before) < limit {
        KeptEverything(before, limit);
      }
    }
  }

  /** Below the ceiling nothing is dropped. */
  lemma {:induction false} KeptEverything(arrivals: seq<Arrival>, limit: nat)
    requires Total(arrivals) <= limit
    ensures forall s :: Kept(arrivals, limit, s) == Drained(arrivals, s)
  {
    if arrivals != [] { KeptEverything(arrivals[..|arrivals| - 1], limit); }
  }

  function StreamResult(arrivals: seq<Arrival>, limit: nat, s: Stream): CapturedStream {
    Completed(Drained(arrivals, s), Kept(arrivals, limit, s))
  }

  function Completed(raw: seq<Byte>, kept: seq<Byte>): CapturedStream {
    CapturedStream(raw, kept, |raw|, |kept|, |raw| > |kept|)
  }

  /** The result a run reports for the reads it made. */
  function ResultOf(arrivals: seq<Arrival>, limit: nat, returncode: int): BoundedResult {
    BoundedResult(returncode, StreamResult(arrivals, limit, StdOut), StreamResult(arrivals, limit, StdErr),
                  Total(arrivals) > limit,
                  |Kept(arrivals, limit, StdOut)| + |Kept(arrivals, limit, StdErr)|)
  }

  /** The overflow verdict, the byte count and the truncation flags of a result agree. */
  ghost predicate Coherent(r: BoundedResult, limit: nat) {
    && r.stdout.kept <= r.stdout.hashed && r.stderr.kept <= r.stderr.hashed
    && r.stdout.totalBytes == |r.stdout.hashed| && r.stderr.totalBytes == |r.stderr.hashed|
    && r.stdout.retainedBytes == |r.stdout.kept| && r.stderr.retainedBytes == |r.stderr.kept|
    && r.peak == r.stdout.retainedBytes + r.stderr.retainedBytes
              == Min(r.stdout.totalBytes + r.stderr.totalBytes, limit)
    && r.stdout.truncated == (r.stdout.totalBytes > r.stdout.retainedBytes)
    && r.stderr.truncated == (r.stderr.totalBytes > r.stderr.retainedBytes)
    && (r.exceeded <==> r.stdout.totalBytes + r.stderr.totalBytes > limit)
    && (r.exceeded <==> r.stdout.truncated || r.stderr.truncated)
  }

  lemma {:induction false} ResultIsCoherent(arrivals: seq<Arrival>, limit: nat, returncode: int)
    ensures Coherent(ResultOf(arrivals, limit, returncode), limit)
  {
    KeptFacts(arrivals, limit);
  }

  // ---------------------------------------------------------------- normalising a finished run

  /** Bounding two complete byte strings at once, standard output first. */
  function Normalize(out: seq<Byte>, err: seq<Byte>, limit: nat, returncode: int): BoundedResult {
    var outKept := out[..Min(|out|, limit)];
    var errKept := err[..Min(|err|, Max(0, limit - |outKept|))];
    BoundedResult(returncode, Completed(out, outKept), Completed(err, errKept),
                  |out| + |err| > limit, |outKept| + |errKept|)
  }

  lemma {:induction false} NormalizeIsCoherent(out: seq<Byte>, err: seq<Byte>, limit: nat, returncode: int)
    ensures Coherent(Normalize(out, err, limit, returncode), limit)
  {
  }

  ghost predicate OutputFirst(arrivals: seq<Arrival>) {
    forall i, j :: 0 <= i < j < |arrivals| && arrivals[i].stream == StdErr ==> arrivals[j].stream == StdErr
  }

  lemma {:induction false} OutputFirstKept(arrivals: seq<Arrival>, limit: nat)
    requires OutputFirst(arrivals)
    ensures var out := Drained(arrivals, StdOut);
      Kept(arrivals, limit, StdOut) == out[..Min(|out|, limit)]
    ensures (exists i :: 0 <= i < |arrivals| && arrivals[i].stream == StdErr) || Drained(arrivals, StdErr) == []
  {
    if arrivals != [] {
      var before, last := arrivals[..|arrivals| - 1], arrivals[|arrivals| - 1];
      OutputFirstKept(before, limit);
      KeptFacts(before, limit);
      KeptFacts(arrivals, limit);
      if last.stream == StdErr {
        assert arrivals[|arrivals| - 1].stream == StdErr;
      } else {
        assert forall i :: 0 <= i < |before| ==> before[i] == arrivals[i];
        assert Drained(before, StdErr) == [];
        assert Drained(arrivals, StdErr) == [];
      }
    }
  }

  /** The incremental capture refines the one-shot form exactly when standard output was kept
      as far as the ceiling allows; it then agrees on bytes, sizes, flags, digest inputs and
      the verdict. */
  lemma {:induction false} RefinesNormalize(arrivals: seq<Arrival>, limit: nat, returncode: int)
    ensures var out, err := Drained(arrivals, StdOut), Drained(arrivals, StdErr);
      (ResultOf(arrivals, limit, returncode) == Normalize(out, err, limit, returncode))
      <==> |Kept(arrivals, limit, StdOut)| == Min(|out|, limit)
  {
    KeptFacts(arrivals, limit);
  }

  /** Reading all of standard output before any of standard error meets that condition. */
  lemma {:induction false} OutputFirstRefines(arrivals: seq<Arrival>, limit: nat, returncode: int)
    requires OutputFirst(arrivals)
    ensures ResultOf(arrivals, limit, returncode)
         == Normalize(Drained(arrivals, StdOut), Drained(arrivals, StdErr), limit, returncode)
  {
    OutputFirstKept(arrivals, limit);
    KeptFacts(arrivals, limit);
    RefinesNormalize(arrivals, limit, returncode);
  }

  /** So does every order of reads that stays within the ceiling. */
  lemma {:induction false} WithinLimitRefines(arrivals: seq<Arrival>, limit: nat, returncode: int)
    requires Total(arrivals) <= limit
    ensures ResultOf(arrivals, limit, returncode)
         == Normalize(Drained(arrivals, StdOut), Drained(arrivals, StdErr), limit, returncode)
  {
    KeptEverything(arrivals, limit);
    RefinesNormalize(arrivals, limit, returncode);
  }
}
