/** Network egress and plugin posture on the way to an admission request: what the profile
    declares, what the environment selects, and what policy leaves of it. */
module Governance {
  import opened Values
  import opened Outcomes

  datatype Posture = Posture(live: string, egress: string)

  /** The part of a compiled capability descriptor that egress decisions depend on. */
  datatype Descriptor = Descriptor(tier: string, identity: string, egress: string, live: string, boundaryEgress: string)

  const EGRESS := "allowed_network_egress"

  function ExpectedPosture(selected: string): Option<Posture> {
    if selected == "fixture_only" then Some(Posture("fixture_only", "no_network"))
    else if selected == "operator_wrapper" then Some(Posture("live_backend", "local_subprocess"))
    else None
  }

  predicate NonBlank(v: Value) {
    v.Str? && Strip(v.s) != ""
  }

  predicate WrapperPresent(v: Value) {
    NonBlank(v) || (v.List? && v.items != [] && forall i :: 0 <= i < |v.items| ==> NonBlank(v.items[i]))
  }

  function Refuse<T>(text: string): Outcome<T> {
    Raises(ValidationError(text))
  }

  predicate DeclaredAs(declaration: Mapping, expected: Posture) {
    && declaration.Keys <= {"live_backend_posture", EGRESS}
    && Strip(TextOr(Get(declaration, "live_backend_posture"))) == expected.live
    && Strip(TextOr(Get(declaration, EGRESS))) == expected.egress
  }

  /** The connector's own switches match the selected posture. */
  predicate SwitchesMatch(selected: string, config: Mapping) {
    if selected == "fixture_only" then Get(config, "fixture_only") == Bool(true) && "wrapper_command" !in config
    else Get(config, "fixture_only") == Bool(false) && WrapperPresent(Get(config, "wrapper_command"))
  }

  /** The posture a plugin runs under: selected by the environment, declared by the profile,
      spelled exactly as the runtime expects, and matched by the connector's own switches. */
  function CompilePosture(tier: string, postures: Value, config: Mapping): Outcome<Option<Posture>> {
    var selected := Strip(TextOr(Get(config, "execution_posture")));
    var expected := ExpectedPosture(selected);
    if tier != "plugin" then
      if postures != Null || Get(config, "execution_posture") != Null
      then Refuse("plugin execution posture is only valid for plugin backends") else Returns(None)
    else if !postures.Dict? then Refuse("plugin profile execution_postures declaration is required")
    else if selected == "" then Refuse("plugin environment execution_posture selection is required")
    else if expected.None? then Refuse("unsupported plugin execution posture: " + selected)
    else if !Get(postures.fields, selected).Dict? then
      Refuse("plugin execution posture is not declared by profile: " + selected)
    else if !DeclaredAs(Get(postures.fields, selected).fields, expected.value) then
      Refuse("plugin execution posture declaration contradicts " + selected)
    else if !SwitchesMatch(selected, config) then
      Refuse("plugin execution posture contradicts the connector configuration: " + selected)
    else Returns(expected)
  }

  /** The descriptor compiled for a backend; a plugin's posture overrides what its class says. */
  function DescriptorOf(declared: Descriptor, posture: Option<Posture>): Descriptor {
    if posture.None? then declared
    else
      var p := posture.value;
      Descriptor(declared.tier, "plugin_declared", p.egress, p.live, p.egress)
  }

  // ---------------------------------------------------------------- the profile's network binding

  predicate StringList(v: Value) {
    v.List? && forall i :: 0 <= i < |v.items| ==> NonBlank(v.items[i])
  }

  function Stripped(vs: seq<Value>): seq<string>
    requires forall i :: 0 <= i < |vs| ==> vs[i].Str?
  {
    seq(|vs|, i requires 0 <= i < |vs| => Strip(vs[i].s))
  }

  predicate NoRepeats(ss: seq<string>) {
    forall i, j :: 0 <= i < j < |ss| ==> ss[i] != ss[j]
  }

  function StrList(ss: seq<string>): Value {
    List(seq(|ss|, i requires 0 <= i < |ss| => Str(ss[i])))
  }

  /** One list-valued field, normalised into `out`. */
  function NormalField(raw: Mapping, key: string, out: Mapping): Outcome<Mapping> {
    var v := Get(raw, key);
    if v == Null then Returns(out)
    else if !StringList(v) then Refuse("connector network_policy_binding " + key + " must be a list of strings")
    else if !NoRepeats(Stripped(v.items)) then Refuse("connector network_policy_binding " + key + " contains duplicates")
    else Returns(out[key := StrList(Stripped(v.items))])
  }

  const SUPPORTED: set<string> :=
    {EGRESS, "allowed_network_schemes", "allowed_address_classes", "required_origin_binding_digest"}

  function NormalBinding(raw: Mapping): Outcome<Mapping> {
    match NormalField(raw, EGRESS, map[])
    case Raises(x) => Raises(x)
    case Returns(a) =>
      match NormalField(raw, "allowed_network_schemes", a)
      case Raises(x) => Raises(x)
      case Returns(b) => NormalField(raw, "allowed_address_classes", b)
  }

  /** The raw binding the profile contract holds for a backend. */
  function RawBinding(contract: Mapping, backend: string): Value {
    var byBackend := Get(contract, "network_policy_binding_by_backend");
    var specific := if byBackend.Dict? then Get(byBackend.fields, backend) else Null;
    if specific != Null then specific else Get(contract, "network_policy_binding")
  }

  /** A raw mapping, normalised: known fields only, egress listed, the origin digest not blank. */
  function NormalizedBinding(raw: Value): Outcome<Mapping> {
    if !raw.Dict? then Refuse("connector network_policy_binding must be a mapping")
    else if !(raw.fields.Keys <= SUPPORTED) then Refuse("connector network_policy_binding contains unsupported fields")
    else
      match NormalBinding(raw.fields)
      case Raises(x) => Raises(x)
      case Returns(lists) =>
        var origin := Get(raw.fields, "required_origin_binding_digest");
        if EGRESS !in lists || lists[EGRESS] == List([]) then
          Refuse("connector network_policy_binding allowed_network_egress is required")
        else if origin != Null && !NonBlank(origin) then
          Refuse("connector network_policy_binding required_origin_binding_digest must be a non-empty string")
        else Returns(if origin == Null then lists else lists["required_origin_binding_digest" := Str(Strip(origin.s))])
  }

  function OwnEgress(d: Descriptor): Mapping {
    map[EGRESS := StrList([d.egress])]
  }

  /** A plugin's binding must say what its posture says. */
  function PluginChecked(normal: Outcome<Mapping>, d: Descriptor): Outcome<Mapping> {
    if normal.Returns? && d.tier == "plugin" && normal.value != OwnEgress(d)
    then Refuse("plugin network_policy_binding contradicts selected execution posture") else normal
  }

  function NetworkPolicyBinding(contract: Mapping, backend: string, d: Descriptor): Outcome<Mapping> {
    var raw := RawBinding(contract, backend);
    if raw == Null then Returns(if d.tier == "plugin" then OwnEgress(d) else map[])
    else PluginChecked(NormalizedBinding(raw), d)
  }

  // ---------------------------------------------------------------- the admission request

  function Filter(items: seq<Value>, policy: seq<string>): seq<Value> {
    if items == [] then []
    else
      (if items[0].Str? && items[0].s in policy then [items[0]] else []) + Filter(items[1..], policy)
  }

  /** The binding as policy leaves it: its egress list narrowed to what policy names, when policy
      names anything. */
  function Narrowed(binding: Mapping, policy: seq<string>): Mapping {
    if policy != [] && binding != map[] && Get(binding, EGRESS).List?
    then binding[EGRESS := List(Filter(Get(binding, EGRESS).items, policy))] else binding
  }

  /** The egress the request allows. */
  function RequestEgress(binding: Mapping, policy: seq<string>): seq<Value> {
    var egress := Get(Narrowed(binding, policy), EGRESS);
    if egress.List? then egress.items else StrList(policy).items
  }

  /** Which admission surface a request needs; a plugin request must name its own egress and
      nothing else. */
  function RequiredVersion(d: Descriptor, egress: seq<Value>): Outcome<string> {
    if d.tier != "plugin" then Returns("v0.1")
    else if d.identity != "plugin_declared" || d.boundaryEgress != d.egress
         || Posture(d.live, d.egress) !in {Posture("fixture_only", "no_network"), Posture("live_backend", "local_subprocess")}
         || egress != [Str(d.egress)]
    then Refuse("typed_execution_plugin_posture_invalid")
    else Returns("v0.2")
  }

  // ---------------------------------------------------------------- egress never widens

  /** `xs` is what remains of `ys` after removing some elements, in order. */
  predicate SubList(xs: seq<Value>, ys: seq<Value>) {
    if xs == [] then true
    else if ys == [] then false
    else if xs[0] == ys[0] then SubList(xs[1..], ys[1..])
    else SubList(xs, ys[1..])
  }

  lemma {:induction false} SubListWeaken(xs: seq<Value>, y: Value, ys: seq<Value>)
    requires SubList(xs, ys)
    ensures SubList(xs, [y] + ys)
    decreases |ys|, 1
  {
    var all := [y] + ys;
    assert all[1..] == ys;
    if xs != [] && xs[0] == y {
      SubListTail(xs, ys);
    }
  }

  lemma {:induction false} SubListTail(xs: seq<Value>, ys: seq<Value>)
    requires xs != [] && SubList(xs, ys)
    ensures SubList(xs[1..], ys)
    decreases |ys|, 0
  {
    if xs[0] == ys[0] {
      SubListWeaken(xs[1..], ys[0], ys[1..]);
      assert [ys[0]] + ys[1..] == ys;
    } else {
      SubListTail(xs, ys[1..]);
      SubListWeaken(xs[1..], ys[0], ys[1..]);
      assert [ys[0]] + ys[1..] == ys;
    }
  }

  lemma {:induction false} FilterFacts(items: seq<Value>, policy: seq<string>)
    ensures SubList(Filter(items, policy), items)
    ensures forall v :: v in Filter(items, policy) <==> v in items && v.Str? && v.s in policy
  {
    if items != [] {
      FilterFacts(items[1..], policy);
      var rest := Filter(items[1..], policy);
      assert items == [items[0]] + items[1..];
      if items[0].Str? && items[0].s in policy {
        assert Filter(items, policy)[1..] == rest;
      } else {
        assert Filter(items, policy) == rest;
        SubListWeaken(rest, items[0], items[1..]);
      }
    }
  }

  lemma {:induction false} SubListSelf(xs: seq<Value>)
    ensures SubList(xs, xs)
  {
    if xs != [] { SubListSelf(xs[1..]); }
  }

  /** When the profile lists egress, the request allows a sub-list of it, in the profile's order,
      holding exactly the entries policy names when policy names any. */
  lemma {:induction false} EgressNeverWidens(binding: Mapping, policy: seq<string>)
    requires Get(binding, EGRESS).List?
    ensures var profile, request := Get(binding, EGRESS).items, RequestEgress(binding, policy);
      && SubList(request, profile)
      && (policy == [] ==> request == profile)
      && (policy != [] ==> forall v :: v in request <==> v in profile && v.Str? && v.s in policy)
  {
    FilterFacts(Get(binding, EGRESS).items, policy);
    SubListSelf(Get(binding, EGRESS).items);
  }

  // ---------------------------------------------------------------- plugin postures and policy

  /** A compiled plugin binding names exactly the posture's egress, whatever the profile said. */
  lemma {:induction false} PluginBindingIsOwnEgress(contract: Mapping, backend: string, d: Descriptor)
    requires d.tier == "plugin" && NetworkPolicyBinding(contract, backend, d).Returns?
    ensures NetworkPolicyBinding(contract, backend, d).value == OwnEgress(d)
  {
  }

  /** What a request for the posture's own egress becomes under policy. */
  lemma {:induction false} OwnEgressUnderPolicy(d: Descriptor, policy: seq<string>)
    ensures RequestEgress(OwnEgress(d), policy) == if policy == [] || d.egress in policy then [Str(d.egress)] else []
  {
    var binding, items := OwnEgress(d), [Str(d.egress)];
    assert Get(binding, EGRESS) == List(items);
    assert items[1..] == [];
    assert Filter(items, policy) == if d.egress in policy then items else [];
  }

  lemma {:induction false} PostureIsExpected(postures: Value, config: Mapping)
    requires CompilePosture("plugin", postures, config).Returns?
    ensures var p := CompilePosture("plugin", postures, config).value;
      p.Some? && p.value in {Posture("fixture_only", "no_network"), Posture("live_backend", "local_subprocess")}
  {
  }

  /** Every compiled plugin is accepted on the v0.2 surface exactly when policy names no egress
      or names the posture's own, and is refused otherwise. */
  lemma {:induction false} PluginAcceptedExactly(declared: Descriptor, postures: Value, config: Mapping,
                                                 contract: Mapping, backend: string, policy: seq<string>)
    requires declared.tier == "plugin"
    requires CompilePosture("plugin", postures, config).Returns?
    requires var d := DescriptorOf(declared, CompilePosture("plugin", postures, config).value);
      NetworkPolicyBinding(contract, backend, d).Returns?
    ensures var d := DescriptorOf(declared, CompilePosture("plugin", postures, config).value);
      var version := RequiredVersion(d, RequestEgress(NetworkPolicyBinding(contract, backend, d).value, policy));
      if policy == [] || d.egress in policy then version == Returns("v0.2")
      else version == Refuse("typed_execution_plugin_posture_invalid")
  {
    PostureIsExpected(postures, config);
    var p := CompilePosture("plugin", postures, config).value;
    var d := DescriptorOf(declared, p);
    PluginBindingIsOwnEgress(contract, backend, d);
    OwnEgressUnderPolicy(d, policy);
    VersionOfPosture(declared, p.value, RequestEgress(OwnEgress(d), policy));
  }

  lemma {:induction false} VersionOfPosture(declared: Descriptor, p: Posture, egress: seq<Value>)
    requires declared.tier == "plugin"
    requires p in {Posture("fixture_only", "no_network"), Posture("live_backend", "local_subprocess")}
    ensures RequiredVersion(DescriptorOf(declared, Some(p)), egress)
         == if egress == [Str(p.egress)] then Returns("v0.2") else Refuse("typed_execution_plugin_posture_invalid")
  {
  }
}
