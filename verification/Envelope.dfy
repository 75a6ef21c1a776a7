/** The overflow-evidence envelope: a record that states the length of its own text. */
module Envelope {
  import opened Values
  import Canonical

  const ENVELOPE_KEY := "overflow_evidence_envelope"
  const SCHEMA := "rexecop.output_limit_evidence.v0.1"
  const MAX_BYTES := 2048
  const MAX_PASSES := 8

  // ---------------------------------------------------------------- decimal width

  function Pow10(k: nat): (p: nat)
    ensures p >= 1
  {
    if k == 0 then 1 else 10 * Pow10(k - 1)
  }

  function Digits(n: nat): (d: nat)
    ensures d >= 1
  {
    |Decimal(n)|
  }

  /** A number has at most `k` digits exactly when it is below ten to the `k`. */
  lemma {:induction false} DigitsBound(n: nat, k: nat)
    requires k >= 1
    ensures Digits(n) <= k <==> n < Pow10(k)
  {
    if n < 10 {
      assert Pow10(k) == 10 * Pow10(k - 1);
    } else if k == 1 {
      assert Pow10(1) == 10 * Pow10(0);
    } else {
      DigitsBound(n / 10, k - 1);
      assert Pow10(k) == 10 * Pow10(k - 1);
    }
  }

  lemma {:induction false} DigitsMonotone(m: nat, n: nat)
    requires m <= n
    ensures Digits(m) <= Digits(n)
  {
    DigitsBound(n, Digits(n));
    DigitsBound(m, Digits(n));
  }

  lemma {:induction false} BelowPow10(k: nat)
    requires k >= 1
    ensures k <= 9 * Pow10(k)
  {
    if k > 1 { BelowPow10(k - 1); }
  }

  // ---------------------------------------------------------------- the fixed point

  /** The value `evidence_bytes` holds after `k` passes over a record whose text has `base`
      characters besides that number. */
  function Pass(base: nat, k: nat): nat {
    if k == 0 then 0 else base + Digits(Pass(base, k - 1))
  }

  /** A size the record can truthfully state about itself. */
  predicate SelfSize(base: nat, n: nat) {
    n == base + Digits(n)
  }

  /** Four passes always suffice: the third value already is a fixed point. */
  lemma {:induction false} Converges(base: nat)
    ensures SelfSize(base, Pass(base, 3))
  {
    var a, e2 := Pass(base, 1), Pass(base, 2);
    assert Pass(base, 0) == 0 && Digits(0) == 1;
    assert a == base + 1;
    var k := Digits(a);
    assert e2 == base + k;
    DigitsBound(a, k);
    BelowPow10(k);
    assert Pow10(k + 1) == 10 * Pow10(k);
    DigitsBound(e2 + 1, k + 1);
    DigitsMonotone(a, e2);
    DigitsMonotone(e2, e2 + 1);
    assert k <= Digits(e2) <= Digits(e2 + 1) <= k + 1;
    var e3 := Pass(base, 3);
    assert e3 == base + Digits(e2);
    assert e3 == e2 || e3 == e2 + 1;
  }

  /** No pass overshoots: every value reached is at most every self-size. */
  lemma {:induction false} PassBelow(base: nat, k: nat, n: nat)
    requires SelfSize(base, n)
    ensures Pass(base, k) <= n
  {
    if k > 0 {
      PassBelow(base, k - 1, n);
      DigitsMonotone(Pass(base, k - 1), n);
    }
  }

  lemma {:induction false} PassStable(base: nat, k: nat)
    requires k >= 3
    ensures Pass(base, k) == Pass(base, 3)
  {
    Converges(base);
    if k > 3 { PassStable(base, k - 1); }
  }

  /** Until it settles the sequence of passes strictly increases, so two equal consecutive
      values are the fixed point itself. */
  lemma {:induction false} EarlyStop(base: nat, k: nat)
    requires Pass(base, k) == Pass(base, k + 1)
    ensures 1 <= k && Pass(base, k) == Pass(base, 3)
  {
    assert Pass(base, 1) == base + Digits(0);
    if k <= 3 {
      Converges(base);
      PassBelow(base, 3, Pass(base, k));
      PassBelow(base, k, Pass(base, 3));
    } else {
      PassStable(base, k);
    }
  }

  /** The stated size is the least one that is true, for every record. */
  lemma {:induction false} LeastSelfSize(base: nat, n: nat)
    ensures SelfSize(base, Pass(base, 3))
    ensures SelfSize(base, n) ==> Pass(base, 3) <= n
  {
    Converges(base);
    if SelfSize(base, n) { PassBelow(base, 3, n); }
  }

  /** Some records have two truthful sizes, so "least" is not idle: with eight characters
      besides the number, both 9 and 10 are self-sizes. */
  lemma TwoSelfSizes()
    ensures SelfSize(8, 9) && SelfSize(8, 10) && Pass(8, 3) == 9
  {
    assert Decimal(10) == Decimal(1) + "0";
    SmallestPasses();
  }

  lemma SmallestPasses()
    ensures Pass(8, 3) == 9
  {
    assert Pass(8, 1) == 9;
    assert Pass(8, 2) == 9;
  }

  // ---------------------------------------------------------------- the record

  function EnvelopeBody(n: nat): Value {
    Dict(map["schema" := Str(SCHEMA),
             "max_bytes" := Int(MAX_BYTES),
             "evidence_bytes" := Int(n)])
  }

  function Sized(evidence: Mapping, n: nat): Mapping {
    evidence[ENVELOPE_KEY := EnvelopeBody(n)]
  }

  /** Length of the enveloped text when it states the size `n`. */
  function Length(evidence: Mapping, n: nat): (len: nat)
    ensures len >= 1
  {
    Canonical.Length(Dict(Sized(evidence, n)))
  }

  /** Length of the enveloped text without the digits of the stated size. */
  function Base(evidence: Mapping): nat {
    Length(evidence, 0) - 1
  }

  /** Changing the number one level down changes the whole text by its digits only. */
  lemma {:induction false} NestedNumber(outer: Mapping, inner: Mapping, ok: string, ik: string, m: nat, n: nat)
    ensures Canonical.Length(Dict(outer[ok := Dict(inner[ik := Int(n)])])) - Digits(n)
         == Canonical.Length(Dict(outer[ok := Dict(inner[ik := Int(m)])])) - Digits(m)
  {
    var im := inner[ik := Int(m)];
    assert im[ik := Int(n)] == inner[ik := Int(n)];
    Canonical.LengthReplace(im, ik, Int(n));
    var om := outer[ok := Dict(im)];
    assert om[ok := Dict(inner[ik := Int(n)])] == outer[ok := Dict(inner[ik := Int(n)])];
    Canonical.LengthReplace(om, ok, Dict(inner[ik := Int(n)]));
  }

  lemma {:induction false} LengthOf(evidence: Mapping, m: nat, n: nat)
    ensures Length(evidence, n) - Digits(n) == Length(evidence, m) - Digits(m)
  {
    NestedNumber(evidence, EnvelopeBody(m).fields, ENVELOPE_KEY, "evidence_bytes", m, n);
    assert EnvelopeBody(m).fields["evidence_bytes" := Int(n)] == EnvelopeBody(n).fields;
    assert EnvelopeBody(m).fields["evidence_bytes" := Int(m)] == EnvelopeBody(m).fields;
  }

  lemma {:induction false} LengthFromBase(evidence: Mapping, n: nat)
    ensures Length(evidence, n) == Base(evidence) + Digits(n)
  {
    LengthOf(evidence, 0, n);
    assert Digits(0) == 1;
  }

  /** The enveloped record, or nothing when its text would exceed the cap. */
  function Enveloped(evidence: Mapping): Option<Mapping> {
    var n := Pass(Base(evidence), 3);
    if n <= MAX_BYTES then Some(Sized(evidence, n)) else None
  }

  /** What the envelope promises, in terms of the text alone: the stated size is the text's
      length and the least number for which that is so, and the record is refused exactly
      when every truthful statement of its size exceeds the cap. */
  lemma {:induction false} EnvelopeIsTruthful(evidence: Mapping)
    ensures var r := Enveloped(evidence);
      && (r.Some? ==>
            exists n: nat ::
              && r.value == Sized(evidence, n)
              && Length(evidence, n) == n <= MAX_BYTES
              && (forall m: nat :: Length(evidence, m) == m ==> n <= m))
      && (r.None? <==> forall m: nat :: Length(evidence, m) == m ==> m > MAX_BYTES)
  {
    var base := Base(evidence);
    var n := Pass(base, 3);
    LengthFromBase(evidence, n);
    Converges(base);
    assert Length(evidence, n) == n;
    forall m: nat | Length(evidence, m) == m ensures n <= m {
      LengthFromBase(evidence, m);
      PassBelow(base, 3, m);
    }
  }

  /** One pass of the sizing loop: it stops only at the least self-size, and it does stop at the
      fourth pass. */
  lemma {:induction false} PassStops(base: nat, k: nat)
    ensures Pass(base, k + 1) == Pass(base, k) ==> Pass(base, k) == Pass(base, 3)
    ensures k == 3 ==> Pass(base, k + 1) == Pass(base, k)
  {
    if Pass(base, k + 1) == Pass(base, k) { EarlyStop(base, k); }
    if k == 3 { Converges(base); }
  }

  /** A text whose length is its base and the digits of the number it states. */
  ghost predicate Measures(measure: nat -> nat, base: nat) {
    forall n: nat :: measure(n) == base + Digits(n)
  }

  /** The sizing loop: state the current length until it agrees with the text that states it. It
      never runs past its fourth pass, so the fall-through after eight is dead. */
  method SizingLoop(measure: nat -> nat, ghost base: nat) returns (size: Option<nat>, passes: nat)
    requires Measures(measure, base)
    ensures size == Some(Pass(base, 3)) && 1 <= passes <= 4
  {
    var evidenceBytes := 0;
    passes := 0;
    while passes < MAX_PASSES
      invariant passes <= 3
      invariant evidenceBytes == Pass(base, passes)
    {
      var actual := measure(evidenceBytes);
      PassStops(base, passes);
      assert actual == Pass(base, passes + 1);
      passes := passes + 1;
      if evidenceBytes == actual {
        return Some(evidenceBytes), passes;
      }
      evidenceBytes := actual;
    }
    return None, passes;
  }

  /** The enveloped record as the source builds it. */
  method WithEnvelope(evidence: Mapping) returns (r: Option<Mapping>, passes: nat)
    ensures r == Enveloped(evidence)
    ensures 1 <= passes <= 4
  {
    forall n: nat ensures Length(evidence, n) == Base(evidence) + Digits(n) {
      LengthFromBase(evidence, n);
    }
    var size;
    size, passes := SizingLoop((n: nat) => Length(evidence, n), Base(evidence));
    r := if size.value <= MAX_BYTES then Some(Sized(evidence, size.value)) else None;
  }

  // ---------------------------------------------------------------- records that always fit

  lemma {:induction false} SmallPass(base: nat)
    requires base <= 2044
    ensures Pass(base, 3) <= base + 4
  {
    assert Pow10(4) == 10_000 by { assert Pow10(2) == 100; }
    var p0 := Pass(base, 0);
    var p1 := base + Digits(p0);
    var p2 := base + Digits(p1);
    DigitsBound(p0, 4);
    DigitsBound(p1, 4);
    DigitsBound(p2, 4);
    assert Pass(base, 1) == p1;
    assert Pass(base, 2) == p2;
    assert Pass(base, 3) == base + Digits(p2);
  }

  /** Weight of one member whose key needs no escape. */
  lemma {:induction false} PlainMember(m: Mapping, k: string, v: Value)
    requires k !in m && Canonical.PlainText(k)
    ensures Canonical.TotalWeight(m[k := v], m[k := v].Keys)
         == |k| + 4 + Canonical.Length(v) + Canonical.TotalWeight(m, m.Keys)
  {
    Canonical.WeightAdd(m, k, v);
    Canonical.QuotePlain(k);
  }

  lemma {:induction false} StrLength(s: string)
    requires Canonical.PlainText(s)
    ensures Canonical.Length(Str(s)) == |s| + 2
  {
    Canonical.QuotePlain(s);
  }

  /** Three more members with plain keys. */
  lemma {:induction false} AddThree(m: Mapping, a: string, va: Value, b: string, vb: Value, c: string, vc: Value)
    requires a !in m && b !in m && c !in m && a != b && a != c && b != c
    requires Canonical.PlainText(a) && Canonical.PlainText(b) && Canonical.PlainText(c)
    ensures var m' := m[a := va][b := vb][c := vc];
      Canonical.TotalWeight(m', m'.Keys)
        == |a| + |b| + |c| + 12 + Canonical.Length(va) + Canonical.Length(vb) + Canonical.Length(vc)
         + Canonical.TotalWeight(m, m.Keys)
  {
    PlainMember(m, a, va);
    PlainMember(m[a := va], b, vb);
    PlainMember(m[a := va][b := vb], c, vc);
  }

  /** The length of a three-member mapping's text. */
  lemma {:induction false} ThreeMembers(a: string, va: Value, b: string, vb: Value, c: string, vc: Value)
    requires a != b && a != c && b != c
    requires Canonical.PlainText(a) && Canonical.PlainText(b) && Canonical.PlainText(c)
    ensures Canonical.Length(Dict(map[a := va, b := vb, c := vc]))
         == |a| + |b| + |c| + 13 + Canonical.Length(va) + Canonical.Length(vb) + Canonical.Length(vc)
  {
    var m0: Mapping := map[];
    assert Canonical.TotalWeight(m0, m0.Keys) == 0;
    AddThree(m0, a, va, b, vb, c, vc);
    var m := m0[a := va][b := vb][c := vc];
    Canonical.LengthWeight(m);
    assert m == map[a := va, b := vb, c := vc];
  }

  lemma {:induction false} BodyLengthFor(schema: string, cap: nat, n: nat)
    requires Canonical.PlainText(schema)
    ensures Canonical.Length(Dict(map["schema" := Str(schema), "max_bytes" := Int(cap), "evidence_bytes" := Int(n)]))
         == 44 + |schema| + Digits(cap) + Digits(n)
  {
    ThreeMembers("schema", Str(schema), "max_bytes", Int(cap), "evidence_bytes", Int(n));
    StrLength(schema);
  }

  lemma {:induction false} BodyLength(n: nat)
    ensures Canonical.Length(EnvelopeBody(n)) == 82 + Digits(n)
  {
    BodyLengthFor(SCHEMA, MAX_BYTES, n);
    FourDigits(MAX_BYTES);
  }

  lemma {:induction false} FourDigits(n: nat)
    requires 1000 <= n <= 9999
    ensures Digits(n) == 4
  {
    assert Pow10(3) == 1000 && Pow10(4) == 10_000 by { assert Pow10(2) == 100; }
    DigitsBound(n, 3);
    DigitsBound(n, 4);
  }

  /** A text of `base` characters besides its number fits exactly when four digits still fit. */
  lemma {:induction false} FitsExactly(evidence: Mapping)
    ensures Enveloped(evidence).Some? <==> Base(evidence) <= 2044
  {
    var base := Base(evidence);
    if base <= 2044 {
      SmallPass(base);
    } else {
      Converges(base);
      FourDigits(1000);
      DigitsMonotone(1000, Pass(base, 3));
    }
  }

  /** The weight at which a record's envelope is full. */
  lemma {:induction false} EnvelopeFits(evidence: Mapping)
    requires ENVELOPE_KEY !in evidence
    ensures Enveloped(evidence).Some? <==> Canonical.TotalWeight(evidence, evidence.Keys) <= 1931
  {
    var zero: nat := 0;
    BodyLength(zero);
    PlainMember(evidence, ENVELOPE_KEY, EnvelopeBody(zero));
    Canonical.LengthWeight(Sized(evidence, zero));
    FitsExactly(evidence);
  }
}
