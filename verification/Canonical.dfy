/** The canonical JSON text of a value: sorted keys, no blanks, ASCII only. */
module Canonical {
  import opened Values

  // ---------------------------------------------------------------- key order

  /** Code-point order on strings, the order `sort_keys` uses. */
  predicate LexLe(a: string, b: string) {
    a == "" || (b != "" && (a[0] < b[0] || (a[0] == b[0] && LexLe(a[1..], b[1..]))))
  }

  lemma {:induction false} LexTotal(a: string, b: string)
    ensures LexLe(a, b) || LexLe(b, a)
  {
    if a != "" && b != "" { LexTotal(a[1..], b[1..]); }
  }

  lemma {:induction false} LexAntisymmetric(a: string, b: string)
    requires LexLe(a, b) && LexLe(b, a)
    ensures a == b
  {
    if a != "" && b != "" {
      LexAntisymmetric(a[1..], b[1..]);
      assert a == [a[0]] + a[1..] && b == [b[0]] + b[1..];
    }
  }

  lemma {:induction false} LexTransitive(a: string, b: string, c: string)
    requires LexLe(a, b) && LexLe(b, c)
    ensures LexLe(a, c)
  {
    if a != "" && a[0] == b[0] && b[0] == c[0] { LexTransitive(a[1..], b[1..], c[1..]); }
  }

  predicate IsLeast(k: string, keys: set<string>) {
    k in keys && forall j :: j in keys ==> LexLe(k, j)
  }

  lemma {:induction false} LeastExists(keys: set<string>)
    requires keys != {}
    ensures exists k :: IsLeast(k, keys)
  {
    var k :| k in keys;
    var rest := keys - {k};
    if rest == {} {
      LexTotal(k, k);
      assert keys == {k};
      assert IsLeast(k, keys);
    } else {
      LeastExists(rest);
      var r :| IsLeast(r, rest);
      LexTotal(k, r);
      LexTotal(k, k);
      if LexLe(k, r) {
        forall j | j in keys ensures LexLe(k, j) {
          if j != k { LexTransitive(k, r, j); }
        }
        assert IsLeast(k, keys);
      } else {
        assert IsLeast(r, keys);
      }
    }
  }

  function LeastKey(keys: set<string>): (k: string)
    requires keys != {}
    ensures k in keys
  {
    LeastExists(keys);
    assert forall a, b :: IsLeast(a, keys) && IsLeast(b, keys) ==> a == b by {
      forall a, b | IsLeast(a, keys) && IsLeast(b, keys) ensures a == b {
        LexAntisymmetric(a, b);
      }
    }
    var k :| k in keys && IsLeast(k, keys);
    k
  }

  lemma {:induction false} LeastIsLeast(keys: set<string>)
    requires keys != {}
    ensures IsLeast(LeastKey(keys), keys)
  {
    LeastExists(keys);
  }

  /** `sorted(keys)`. */
  function SortedKeys(keys: set<string>): seq<string> {
    if keys == {} then [] else
      var k := LeastKey(keys);
      [k] + SortedKeys(keys - {k})
  }

  predicate Distinct(ks: seq<string>) {
    forall i, j :: 0 <= i < j < |ks| ==> ks[i] != ks[j]
  }

  lemma {:induction false} SortedKeysFacts(keys: set<string>)
    ensures Distinct(SortedKeys(keys))
    ensures forall k :: k in SortedKeys(keys) <==> k in keys
    ensures forall i, j :: 0 <= i < j < |SortedKeys(keys)| ==> LexLe(SortedKeys(keys)[i], SortedKeys(keys)[j])
  {
    if keys != {} {
      SortedKeysFacts(keys - {LeastKey(keys)});
      LeastIsLeast(keys);
    }
  }

  // ---------------------------------------------------------------- text

  function HexDigit(n: nat): char
    requires n < 16
  {
    "0123456789abcdef"[n]
  }

  /** The escape `\\uXXXX` of one 16-bit unit. */
  function Unit(n: nat): (s: string)
    requires n < 0x1_0000
    ensures |s| == 6
  {
    "\\u" + [HexDigit(n / 4096), HexDigit(n / 256 % 16), HexDigit(n / 16 % 16), HexDigit(n % 16)]
  }

  /** A character JSON writes as itself under `ensure_ascii`. */
  predicate Plain(c: char) {
    ' ' <= c <= '~' && c != '\"' && c != '\\'
  }

  function Escape(c: char): string {
    if Plain(c) then [c]
    else if c == '\"' then "\\\""
    else if c == '\\' then "\\\\"
    else if c == '\n' then "\\n"
    else if c == '\r' then "\\r"
    else if c == '\t' then "\\t"
    else if c as int == 8 then "\\b"
    else if c as int == 12 then "\\f"
    else if c as int < 0x1_0000 then Unit(c as int)
    else
      var n := c as int - 0x1_0000;
      Unit(0xD800 + n / 1024) + Unit(0xDC00 + n % 1024)
  }

  function EscapeAll(s: string): string {
    if s == "" then "" else Escape(s[0]) + EscapeAll(s[1..])
  }

  function Quote(s: string): string {
    "\"" + EscapeAll(s) + "\""
  }

  /** `json.dumps(value, sort_keys=True, separators=(",", ":"), ensure_ascii=True)`. */
  function Text(v: Value): string
    decreases v, 2, 0
  {
    match v
    case Null => "null"
    case Bool(b) => if b then "true" else "false"
    case Int(n) => DecimalInt(n)
    case Str(s) => Quote(s)
    case List(items) => "[" + Elements(v, 0) + "]"
    case Dict(fields) => "{" + Members(v, SortedKeys(fields.Keys)) + "}"
    case Other(t) => Quote(t)
  }

  function Elements(v: Value, i: nat): string
    requires v.List? && i <= |v.items|
    decreases v, 1, |v.items| - i
  {
    if i == |v.items| then ""
    else (if i > 0 then "," else "") + Text(v.items[i]) + Elements(v, i + 1)
  }

  function Members(v: Value, ks: seq<string>): string
    requires v.Dict?
    decreases v, 1, |ks|
  {
    if ks == [] then ""
    else (if ks[0] in v.fields then Quote(ks[0]) + ":" + Text(v.fields[ks[0]]) else "")
         + (if |ks| > 1 then "," else "") + Members(v, ks[1..])
  }

  /** Number of characters of the canonical text. */
  function Length(v: Value): nat {
    |Text(v)|
  }

  lemma {:induction false} MembersReplace(m: Mapping, k: string, v: Value, ks: seq<string>)
    requires k in m && Distinct(ks)
    ensures |Members(Dict(m[k := v]), ks)|
         == |Members(Dict(m), ks)| + if k in ks then |Text(v)| - |Text(m[k])| else 0
  {
    if ks != [] {
      assert ks == [ks[0]] + ks[1..];
      MembersReplace(m, k, v, ks[1..]);
    }
  }

  /** Writing another value under an existing key changes the text's length by exactly the
      difference of the two values' texts. */
  lemma {:induction false} LengthReplace(m: Mapping, k: string, v: Value)
    requires k in m
    ensures Length(Dict(m[k := v])) == Length(Dict(m)) + Length(v) - Length(m[k])
  {
    assert m[k := v].Keys == m.Keys;
    SortedKeysFacts(m.Keys);
    MembersReplace(m, k, v, SortedKeys(m.Keys));
  }

  // ---------------------------------------------------------------- how long a text can get

  predicate PlainText(s: string) {
    forall i :: 0 <= i < |s| ==> Plain(s[i])
  }

  lemma {:induction false} QuotePlain(s: string)
    requires PlainText(s)
    ensures |EscapeAll(s)| == |s| && |Quote(s)| == |s| + 2
  {
    if s != "" { QuotePlain(s[1..]); }
  }

  /** Characters one member takes, with its colon and a comma. */
  function Weight(m: Mapping, k: string): nat {
    |Quote(k)| + 2 + if k in m then Length(m[k]) else 0
  }

  function TotalWeight(m: Mapping, keys: set<string>): nat {
    if keys == {} then 0 else
      var k := LeastKey(keys);
      Weight(m, k) + TotalWeight(m, keys - {k})
  }

  lemma {:induction false} TotalWeightRemove(m: Mapping, keys: set<string>, k: string)
    requires k in keys
    ensures TotalWeight(m, keys) == Weight(m, k) + TotalWeight(m, keys - {k})
  {
    var l := LeastKey(keys);
    if l != k {
      TotalWeightRemove(m, keys - {l}, k);
      TotalWeightRemove(m, keys - {k}, l);
      assert keys - {l} - {k} == keys - {k} - {l};
    }
  }

  lemma {:induction false} MembersWeight(m: Mapping, keys: set<string>)
    requires keys <= m.Keys && keys != {}
    ensures |Members(Dict(m), SortedKeys(keys))| + 1 == TotalWeight(m, keys)
  {
    var k := LeastKey(keys);
    assert SortedKeys(keys)[1..] == SortedKeys(keys - {k});
    if keys - {k} != {} { MembersWeight(m, keys - {k}); }
  }

  /** A mapping's text is its braces and its members' weights, less the comma after the last. */
  lemma {:induction false} LengthWeight(m: Mapping)
    requires m != map[]
    ensures Length(Dict(m)) == 1 + TotalWeight(m, m.Keys)
  {
    MembersWeight(m, m.Keys);
  }

  /** One more member adds its weight. */
  lemma {:induction false} WeightAdd(m: Mapping, k: string, v: Value)
    requires k !in m
    ensures TotalWeight(m[k := v], m[k := v].Keys) == |Quote(k)| + 2 + Length(v) + TotalWeight(m, m.Keys)
  {
    var m' := m[k := v];
    TotalWeightRemove(m', m'.Keys, k);
    assert m'.Keys - {k} == m.Keys;
    WeightSame(m, m', m.Keys);
  }

  lemma {:induction false} WeightSame(m: Mapping, m': Mapping, keys: set<string>)
    requires keys <= m.Keys && keys <= m'.Keys && forall k :: k in keys ==> m[k] == m'[k]
    ensures TotalWeight(m, keys) == TotalWeight(m', keys)
  {
    if keys != {} { WeightSame(m, m', keys - {LeastKey(keys)}); }
  }
}
