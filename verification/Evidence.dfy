/** Overflow evidence: what the shell connector reports about a capture that passed its
    ceiling, and what the executor accepts as such a report. */
module Evidence {
  import opened Values
  import opened Capture
  import Canonical
  import Envelope

  const LIMIT_EXCEEDED := "output_limit_exceeded"
  const VALIDATION_FAILED := "validation_failed"
  const DEFAULT_LIMIT := 65536

  // ---------------------------------------------------------------- the executor's validator

  predicate IsSha256(s: string) {
    && |s| == 71 && s[..7] == "sha256:"
    && forall i :: 7 <= i < 71 ==> '0' <= s[i] <= '9' || 'a' <= s[i] <= 'f'
  }

  /** The statements an overflow report makes. */
  datatype Facts = Facts(outDigest: string, errDigest: string, outBytes: nat, errBytes: nat, total: nat,
                         limit: nat, outTruncated: bool, errTruncated: bool)

  function Member(v: Value, key: string): Value {
    if v.Dict? then Get(v.fields, key) else Null
  }

  predicate IsNat(v: Value) {
    v.Int? && v.n >= 0
  }

  /** Read a report; nothing is coerced, and a field of another type refuses the whole. */
  function ReadFacts(output: Mapping): Option<Facts> {
    var data := Get(output, "data");
    var digests, sizes, truncated :=
      Member(data, "output_digests"), Member(data, "output_sizes"), Member(data, "output_truncated");
    var limit := Member(data, "max_output_bytes");
    if && Get(output, "error_class") == Str(LIMIT_EXCEEDED)
       && data.Dict? && digests.Dict? && sizes.Dict? && truncated.Dict?
       && Member(data, "error_class") == Str(LIMIT_EXCEEDED)
       && Member(data, "output_limit_exceeded") == Bool(true)
       && Member(digests, "stdout").Str? && IsSha256(Member(digests, "stdout").s)
       && Member(digests, "stderr").Str? && IsSha256(Member(digests, "stderr").s)
       && IsNat(Member(sizes, "stdout_bytes")) && IsNat(Member(sizes, "stderr_bytes"))
       && IsNat(Member(sizes, "total_bytes"))
       && IsNat(limit) && limit.n > 0
       && Member(truncated, "stdout").Bool? && Member(truncated, "stderr").Bool?
    then
      Some(Facts(Member(digests, "stdout").s, Member(digests, "stderr").s,
                 Member(sizes, "stdout_bytes").n, Member(sizes, "stderr_bytes").n, Member(sizes, "total_bytes").n,
                 limit.n, Member(truncated, "stdout").b, Member(truncated, "stderr").b))
    else None
  }

  /** The report hangs together and stays within the limit the executor enforces. */
  predicate Consistent(f: Facts, active: nat) {
    && f.limit <= active
    && f.total == f.outBytes + f.errBytes && f.total > f.limit
    && (f.outTruncated || f.errTruncated)
    && (f.outBytes > f.limit ==> f.outTruncated)
    && (f.errBytes > f.limit ==> f.errTruncated)
    && (f.outTruncated ==> f.outBytes > 0)
    && (f.errTruncated ==> f.errBytes > 0)
  }

  datatype Record = Record(digest: string, bytes: nat)

  function Digests(f: Facts, record: Option<Record>): Mapping {
    var both: Mapping := map["stdout" := Str(f.outDigest), "stderr" := Str(f.errDigest)];
    if record.Some? then both["record" := Str(record.value.digest)] else both
  }

  function Truncations(f: Facts, record: Option<Record>): Mapping {
    var both: Mapping := map["stdout" := Bool(f.outTruncated), "stderr" := Bool(f.errTruncated)];
    if record.Some? then both["record" := Bool(true)] else both
  }

  function Sizes(f: Facts, record: Option<Record>): Mapping {
    var three: Mapping := map["stdout_bytes" := Int(f.outBytes), "stderr_bytes" := Int(f.errBytes),
                              "total_bytes" := Int(f.total)];
    if record.Some? then three["record_bytes" := Int(record.value.bytes)] else three
  }

  /** The evidence the executor rebuilds from accepted facts; nothing else is carried over. */
  function Rebuilt(f: Facts, record: Option<Record>): Mapping {
    RebuiltOf(LIMIT_EXCEEDED, true, Digests(f, record), Truncations(f, record), Sizes(f, record), f.limit)
  }

  function RebuiltOf(errorClass: string, exceeded: bool, digests: Mapping, truncations: Mapping, sizes: Mapping,
                     limit: nat): Mapping
  {
    map["error_class" := Str(errorClass),
        "output_limit_exceeded" := Bool(exceeded),
        "output_digests" := Dict(digests),
        "output_truncated" := Dict(truncations),
        "output_sizes" := Dict(sizes),
        "max_output_bytes" := Int(limit)]
  }

  function BoundedEvidence(output: Mapping, active: nat, record: Option<Record>): Option<Mapping> {
    var facts := ReadFacts(output);
    if facts.Some? && Consistent(facts.value, active) then Envelope.Enveloped(Rebuilt(facts.value, record))
    else None
  }

  function InvalidEvidence(): Option<Mapping> {
    Envelope.Enveloped(map["error_class" := Str(VALIDATION_FAILED)])
  }

  function GenericOverflow(record: Record, limit: nat): Mapping {
    map["error_class" := Str(VALIDATION_FAILED),
        "output_digests" := Dict(map["record" := Str(record.digest)]),
        "output_truncated" := Dict(map["record" := Bool(true)]),
        "output_sizes" := Dict(map["record_bytes" := Int(record.bytes)]),
        "max_output_bytes" := Int(limit)]
  }

  // ---------------------------------------------------------------- the shell connector

  /** The data record of a finished shell command. `sha` renders a digest, `text` decodes kept
      bytes, `redact` is the text redaction every string passes through. */
  function ShellData(r: BoundedResult, limit: nat, sha: seq<Byte> -> string, text: seq<Byte> -> string,
                     redact: string -> string): Mapping
  {
    var data: Mapping := map[
      "stdout" := Str(redact(text(r.stdout.kept))),
      "stderr" := Str(redact(text(r.stderr.kept))),
      "returncode" := Int(r.returncode),
      "max_output_bytes" := Int(limit),
      "output_limit_exceeded" := Bool(r.exceeded),
      "output_digests" := Dict(map["stdout" := Str(redact(sha(r.stdout.hashed))),
                                   "stderr" := Str(redact(sha(r.stderr.hashed)))]),
      "output_truncated" := Dict(map["stdout" := Bool(r.stdout.truncated), "stderr" := Bool(r.stderr.truncated)]),
      "output_sizes" := Dict(map["stdout_bytes" := Int(r.stdout.totalBytes),
                                 "stderr_bytes" := Int(r.stderr.totalBytes),
                                 "total_bytes" := Int(r.stdout.totalBytes + r.stderr.totalBytes)])];
    if r.exceeded then data["error_class" := Str(redact(LIMIT_EXCEEDED))] else data
  }

  /** What the executor hands to its output controls for such a response. */
  function CandidateOutput(data: Mapping): Mapping {
    map["error_class" := Str(LIMIT_EXCEEDED), "data" := Dict(data)]
  }

  /** The limit the executor enforces, from the policy value in the controls if there is one. */
  function ActiveLimit(policy: Option<Value>): Option<nat> {
    match policy
    case None => Some(DEFAULT_LIMIT)
    case Some(v) => ValidateLimit(v)
  }

  /** The facts an overflowing capture reports. */
  function ReportedFacts(r: BoundedResult, limit: nat, sha: seq<Byte> -> string): Facts {
    Facts(sha(r.stdout.hashed), sha(r.stderr.hashed), r.stdout.totalBytes, r.stderr.totalBytes,
          r.stdout.totalBytes + r.stderr.totalBytes, limit, r.stdout.truncated, r.stderr.truncated)
  }

  /** The digests as a report shows them, redacted like every other string. */
  function Shown(sha: seq<Byte> -> string, redact: string -> string): seq<Byte> -> string {
    (bytes: seq<Byte>) => redact(sha(bytes))
  }

  /** Redaction has left the machine-readable strings of a report readable. */
  predicate Spelled(r: BoundedResult, sha: seq<Byte> -> string, redact: string -> string) {
    && redact(LIMIT_EXCEEDED) == LIMIT_EXCEEDED
    && IsSha256(redact(sha(r.stdout.hashed))) && IsSha256(redact(sha(r.stderr.hashed)))
  }

  /** The validator reads back exactly what the connector wrote, as far as redaction left it
      readable. */
  lemma {:induction false} ReportIsReadable(r: BoundedResult, limit: nat, sha: seq<Byte> -> string,
                                            text: seq<Byte> -> string, redact: string -> string)
    requires limit > 0 && r.exceeded
    ensures ReadFacts(CandidateOutput(ShellData(r, limit, sha, text, redact)))
         == if Spelled(r, sha, redact) then Some(ReportedFacts(r, limit, Shown(sha, redact))) else None
  {
    var data := ShellData(r, limit, sha, text, redact);
    var output := CandidateOutput(data);
    assert Get(output, "data") == Dict(data);
    assert Get(data, "error_class") == Str(redact(LIMIT_EXCEEDED));
  }

  /** Every coherent overflowing capture makes consistent statements, apart from the limit. */
  lemma {:induction false} ReportIsConsistent(r: BoundedResult, limit: nat, sha: seq<Byte> -> string, active: nat)
    requires Coherent(r, limit) && r.exceeded
    ensures Consistent(ReportedFacts(r, limit, sha), active) <==> limit <= active
  {
  }

  // ---------------------------------------------------------------- when the envelope has room

  lemma {:induction false} InvalidEvidenceFits()
    ensures InvalidEvidence().Some?
  {
    ErrorClassFits(VALIDATION_FAILED);
  }

  lemma {:induction false} ErrorClassFits(c: string)
    requires Canonical.PlainText(c) && |c| <= 100
    ensures Envelope.Enveloped(map["error_class" := Str(c)]).Some?
  {
    var none: Mapping := map[];
    assert Canonical.TotalWeight(none, none.Keys) == 0;
    Envelope.PlainMember(none, "error_class", Str(c));
    Envelope.StrLength(c);
    assert none["error_class" := Str(c)] == map["error_class" := Str(c)];
    Envelope.EnvelopeFits(map["error_class" := Str(c)]);
  }

  lemma {:induction false} DigestLength(d: string)
    requires IsSha256(d)
    ensures Canonical.Length(Str(d)) == 73
  {
    forall i | 0 <= i < |d| ensures Canonical.Plain(d[i]) {
      if i < 7 { assert d[i] == d[..7][i]; }
    }
    Envelope.StrLength(d);
  }

  /** The length of a four-member mapping's text. */
  lemma {:induction false} FourMembers(a: string, va: Value, b: string, vb: Value,
                                       c: string, vc: Value, d: string, vd: Value)
    requires a != b && a != c && a != d && b != c && b != d && c != d
    requires Canonical.PlainText(a) && Canonical.PlainText(b) && Canonical.PlainText(c) && Canonical.PlainText(d)
    ensures Canonical.Length(Dict(map[a := va, b := vb, c := vc, d := vd]))
         == |a| + |b| + |c| + |d| + 17 + Canonical.Length(va) + Canonical.Length(vb) + Canonical.Length(vc) + Canonical.Length(vd)
  {
    var m0: Mapping := map[];
    assert Canonical.TotalWeight(m0, m0.Keys) == 0;
    Envelope.AddThree(m0, a, va, b, vb, c, vc);
    Envelope.PlainMember(m0[a := va][b := vb][c := vc], d, vd);
    var m := m0[a := va][b := vb][c := vc][d := vd];
    Canonical.LengthWeight(m);
    assert m == map[a := va, b := vb, c := vc, d := vd];
  }

  /** Six members with plain keys weigh their keys, their values and the punctuation. */
  lemma {:induction false} SixMembers(ks: seq<string>, vs: seq<Value>)
    requires |ks| == |vs| == 6 && Canonical.Distinct(ks)
    requires forall i :: 0 <= i < 6 ==> Canonical.PlainText(ks[i])
    ensures var m := map[ks[0] := vs[0], ks[1] := vs[1], ks[2] := vs[2], ks[3] := vs[3], ks[4] := vs[4], ks[5] := vs[5]];
      Canonical.TotalWeight(m, m.Keys)
        == |ks[0]| + |ks[1]| + |ks[2]| + |ks[3]| + |ks[4]| + |ks[5]| + 24
         + Canonical.Length(vs[0]) + Canonical.Length(vs[1]) + Canonical.Length(vs[2])
         + Canonical.Length(vs[3]) + Canonical.Length(vs[4]) + Canonical.Length(vs[5])
  {
    var m0: Mapping := map[];
    assert Canonical.TotalWeight(m0, m0.Keys) == 0;
    Envelope.AddThree(m0, ks[0], vs[0], ks[1], vs[1], ks[2], vs[2]);
    var m3 := m0[ks[0] := vs[0]][ks[1] := vs[1]][ks[2] := vs[2]];
    Envelope.AddThree(m3, ks[3], vs[3], ks[4], vs[4], ks[5], vs[5]);
    assert m3[ks[3] := vs[3]][ks[4] := vs[4]][ks[5] := vs[5]]
        == map[ks[0] := vs[0], ks[1] := vs[1], ks[2] := vs[2], ks[3] := vs[3], ks[4] := vs[4], ks[5] := vs[5]];
  }

  /** The digests have their form. */
  predicate Formed(f: Facts, record: Option<Record>) {
    && IsSha256(f.outDigest) && IsSha256(f.errDigest)
    && (record.Some? ==> IsSha256(record.value.digest))
  }

  function FlagLength(b: bool): nat { if b then 4 else 5 }

  /** What rebuilt evidence weighs: a constant, its two flags and the digits of its numbers. */
  function EvidenceWeight(f: Facts, record: Option<Record>): nat {
    FlagLength(f.outTruncated) + FlagLength(f.errTruncated)
    + Envelope.Digits(f.outBytes) + Envelope.Digits(f.errBytes) + Envelope.Digits(f.total) + Envelope.Digits(f.limit)
    + if record.Some? then 490 + Envelope.Digits(record.value.bytes) else 377
  }

  lemma {:induction false} TwoMembers(a: string, va: Value, b: string, vb: Value)
    requires a != b && Canonical.PlainText(a) && Canonical.PlainText(b)
    ensures Canonical.Length(Dict(map[a := va, b := vb]))
         == |a| + |b| + 9 + Canonical.Length(va) + Canonical.Length(vb)
  {
    var m0: Mapping := map[];
    assert Canonical.TotalWeight(m0, m0.Keys) == 0;
    Envelope.PlainMember(m0, a, va);
    Envelope.PlainMember(m0[a := va], b, vb);
    Canonical.LengthWeight(m0[a := va][b := vb]);
    assert m0[a := va][b := vb] == map[a := va, b := vb];
  }

  lemma {:induction false} TwoDigests(a: string, o: string, b: string, e: string)
    requires IsSha256(o) && IsSha256(e) && a != b && Canonical.PlainText(a) && Canonical.PlainText(b)
    ensures Canonical.Length(Dict(map[a := Str(o), b := Str(e)])) == |a| + |b| + 155
  {
    DigestLength(o);
    DigestLength(e);
    TwoMembers(a, Str(o), b, Str(e));
  }

  lemma {:induction false} ThreeDigests(a: string, o: string, b: string, e: string, c: string, d: string)
    requires IsSha256(o) && IsSha256(e) && IsSha256(d) && a != b && a != c && b != c
    requires Canonical.PlainText(a) && Canonical.PlainText(b) && Canonical.PlainText(c)
    ensures Canonical.Length(Dict(map[a := Str(o), b := Str(e), c := Str(d)])) == |a| + |b| + |c| + 232
  {
    DigestLength(o);
    DigestLength(e);
    DigestLength(d);
    Envelope.ThreeMembers(a, Str(o), b, Str(e), c, Str(d));
  }

  lemma {:induction false} DigestsLength(f: Facts, r: Option<Record>)
    requires Formed(f, r)
    ensures Canonical.Length(Dict(Digests(f, r))) == if r.Some? then 250 else 167
  {
    if r.Some? {
      ThreeDigests("stdout", f.outDigest, "stderr", f.errDigest, "record", r.value.digest);
      assert Digests(f, r) == map["stdout" := Str(f.outDigest), "stderr" := Str(f.errDigest), "record" := Str(r.value.digest)];
    } else {
      TwoDigests("stdout", f.outDigest, "stderr", f.errDigest);
    }
  }

  lemma {:induction false} BoolLength(b: bool)
    ensures Canonical.Length(Bool(b)) == FlagLength(b)
  {
  }

  lemma {:induction false} TruncationsLength(f: Facts, r: Option<Record>)
    ensures Canonical.Length(Dict(Truncations(f, r)))
         == FlagLength(f.outTruncated) + FlagLength(f.errTruncated) + if r.Some? then 35 else 21
  {
    BoolLength(f.outTruncated);
    BoolLength(f.errTruncated);
    if r.Some? {
      var yes := true;
      BoolLength(yes);
      Envelope.ThreeMembers("stdout", Bool(f.outTruncated), "stderr", Bool(f.errTruncated), "record", Bool(yes));
      assert Truncations(f, r) == map["stdout" := Bool(f.outTruncated), "stderr" := Bool(f.errTruncated), "record" := Bool(yes)];
    } else {
      TwoMembers("stdout", Bool(f.outTruncated), "stderr", Bool(f.errTruncated));
    }
  }

  lemma {:induction false} SizesLength(f: Facts, r: Option<Record>)
    ensures Canonical.Length(Dict(Sizes(f, r)))
         == Envelope.Digits(f.outBytes) + Envelope.Digits(f.errBytes) + Envelope.Digits(f.total)
          + if r.Some? then 64 + Envelope.Digits(r.value.bytes) else 48
  {
    if r.Some? {
      var b := Int(r.value.bytes);
      FourMembers("stdout_bytes", Int(f.outBytes), "stderr_bytes", Int(f.errBytes), "total_bytes", Int(f.total),
                  "record_bytes", b);
      assert Sizes(f, r) == map["stdout_bytes" := Int(f.outBytes), "stderr_bytes" := Int(f.errBytes),
                                "total_bytes" := Int(f.total), "record_bytes" := b];
    } else {
      Envelope.ThreeMembers("stdout_bytes", Int(f.outBytes), "stderr_bytes", Int(f.errBytes), "total_bytes", Int(f.total));
    }
  }

  const EVIDENCE_KEYS: seq<string> :=
    ["error_class", "output_limit_exceeded", "output_digests", "output_truncated", "output_sizes", "max_output_bytes"]

  lemma {:induction false} EvidenceKeys()
    ensures Canonical.Distinct(EVIDENCE_KEYS) && Envelope.ENVELOPE_KEY !in EVIDENCE_KEYS
    ensures forall i :: 0 <= i < 6 ==> Canonical.PlainText(EVIDENCE_KEYS[i])
  {
  }

  lemma {:induction false} RebuiltParts(c: string, yes: bool, digests: Mapping, truncations: Mapping, sizes: Mapping, limit: nat)
    requires Canonical.PlainText(c) && |c| == 21 && yes
    ensures (Envelope.Enveloped(RebuiltOf(c, yes, digests, truncations, sizes, limit)).Some? <==>
        141 + Canonical.Length(Dict(digests)) + Canonical.Length(Dict(truncations))
        + Canonical.Length(Dict(sizes)) + Envelope.Digits(limit) <= 1931)
  {
    Envelope.StrLength(c);
    BoolLength(yes);
    var ks := EVIDENCE_KEYS;
    EvidenceKeys();
    var vs := [Str(c), Bool(yes), Dict(digests), Dict(truncations), Dict(sizes), Int(limit)];
    SixMembers(ks, vs);
    Envelope.EnvelopeFits(map[ks[0] := vs[0], ks[1] := vs[1], ks[2] := vs[2], ks[3] := vs[3], ks[4] := vs[4], ks[5] := vs[5]]);
  }

  lemma {:induction false} RebuiltWeight(digests: Mapping, truncations: Mapping, sizes: Mapping, limit: nat)
    ensures (Envelope.Enveloped(RebuiltOf(LIMIT_EXCEEDED, true, digests, truncations, sizes, limit)).Some? <==>
        141 + Canonical.Length(Dict(digests)) + Canonical.Length(Dict(truncations))
        + Canonical.Length(Dict(sizes)) + Envelope.Digits(limit) <= 1931)
  {
    RebuiltParts(LIMIT_EXCEEDED, true, digests, truncations, sizes, limit);
  }

  /** Rebuilt evidence fits its envelope exactly up to this weight; only numbers of very many
      digits pass it. */
  lemma {:induction false} RebuiltFits(f: Facts, r: Option<Record>)
    requires Formed(f, r)
    ensures Envelope.Enveloped(Rebuilt(f, r)).Some? <==> EvidenceWeight(f, r) <= 1931
  {
    DigestsLength(f, r);
    TruncationsLength(f, r);
    SizesLength(f, r);
    RebuiltWeight(Digests(f, r), Truncations(f, r), Sizes(f, r), f.limit);
  }

  // ---------------------------------------------------------------- producer and validator agree

  /** The executor takes the shell connector's report of an overflowing capture exactly when
      redaction left its strings readable, the controls carry a policy limit or the configured
      limit is at most the default, and the evidence fits its envelope; what it then keeps are
      the measured sizes, flags and shown digests. */
  lemma {:induction false} OverflowReportAccepted(
      r: BoundedResult, configured: Value, policy: Option<Value>, record: Option<Record>,
      sha: seq<Byte> -> string, text: seq<Byte> -> string, redact: string -> string)
    requires ResolveLimit(configured, policy).Some?
    requires Coherent(r, ResolveLimit(configured, policy).value) && r.exceeded
    ensures ActiveLimit(policy).Some?
    ensures
      var limit, active := ResolveLimit(configured, policy).value, ActiveLimit(policy).value;
      BoundedEvidence(CandidateOutput(ShellData(r, limit, sha, text, redact)), active, record)
        == if Spelled(r, sha, redact) && (policy.Some? || ValidateLimit(configured).value <= DEFAULT_LIMIT)
           then Envelope.Enveloped(Rebuilt(ReportedFacts(r, limit, Shown(sha, redact)), record)) else None
  {
    var limit, active := ResolveLimit(configured, policy).value, ActiveLimit(policy).value;
    ReportIsReadable(r, limit, sha, text, redact);
    ReportIsConsistent(r, limit, Shown(sha, redact), active);
  }

  /** Put in terms of the inputs alone. */
  lemma {:induction false} AcceptedExactly(
      r: BoundedResult, configured: Value, policy: Option<Value>, record: Option<Record>,
      sha: seq<Byte> -> string, text: seq<Byte> -> string, redact: string -> string)
    requires ResolveLimit(configured, policy).Some?
    requires Coherent(r, ResolveLimit(configured, policy).value) && r.exceeded
    requires record.Some? ==> IsSha256(record.value.digest)
    ensures ActiveLimit(policy).Some?
    ensures
      var limit, active := ResolveLimit(configured, policy).value, ActiveLimit(policy).value;
      (BoundedEvidence(CandidateOutput(ShellData(r, limit, sha, text, redact)), active, record).Some? <==>
        && Spelled(r, sha, redact)
        && (policy.Some? || ValidateLimit(configured).value <= DEFAULT_LIMIT)
        && EvidenceWeight(ReportedFacts(r, limit, Shown(sha, redact)), record) <= 1931)
  {
    OverflowReportAccepted(r, configured, policy, record, sha, text, redact);
    if Spelled(r, sha, redact) {
      RebuiltFits(ReportedFacts(r, ResolveLimit(configured, policy).value, Shown(sha, redact)), record);
    }
  }
}
