/** Action configuration: the patch that "configure" proposes for an environment, and the
    drift that "diff" reports between a profile's contract and that environment. */
module ActionConfig {
  import opened Values
  import opened JsonPatch

  datatype Step = Step(connector: string, action: string)

  datatype Op = AddOp(path: string, value: Value) | Unsupported(path: string)

  /** Python's `int()`, where it does not raise. */
  type ToInt = Value -> Option<int>

  function FirstTruthy(a: Value, b: Value): Value {
    if Truthy(a) then a else b
  }

  function BackendClass(contract: Mapping, config: Mapping): string {
    Strip(TextOr(FirstTruthy(Get(config, "backend"), FirstTruthy(Get(config, "mode"), Get(contract, "backend")))))
  }

  predicate IsCommand(backend: string) {
    backend == "local_shell_readonly" || backend == "ssh_readonly"
  }

  // ---------------------------------------------------------------- configure

  const TEMPLATE_KEYS: set<string> :=
    {"method", "path", "query", "body", "unwrap", "pagination", "mutating", "max_response_bytes"}

  function HttpTemplate(shape: Mapping): Mapping {
    map k | k in shape && k in TEMPLATE_KEYS :: shape[k]
  }

  function ConnectorPath(connector: string): seq<string> {
    ["environment", "connectors", connector]
  }

  /** The declared shape of an action, if the contract has one. */
  function ShapeOf(contract: Mapping, kind: string, action: string): Option<Mapping> {
    var shapes := Get(contract, kind);
    if shapes.Dict? && Get(shapes.fields, action).Dict? then Some(Get(shapes.fields, action).fields) else None
  }

  /** The operations that create or correct the connector entry itself. */
  function EntryOps(connector: string, backend: string, slot: string, empty: Value, config: Mapping): seq<Op> {
    if config == map[] then
      [AddOp(Pointer(ConnectorPath(connector)),
             Dict(map["enabled" := Bool(false), "backend" := Str(backend), slot := empty]))]
    else if TextOr(Get(config, "backend")) != backend then
      [AddOp(Pointer(ConnectorPath(connector) + ["backend"]), Str(backend))]
    else []
  }

  function HttpOps(step: Step, contract: Mapping, config: Mapping, template: Option<Mapping>): seq<Op> {
    var path := ConnectorPath(step.connector);
    var entry := EntryOps(step.connector, "http_api", "actions", Dict(map[]), config);
    var declared := ShapeOf(contract, "action_shapes", step.action);
    var shape := if declared.Some? then declared else template;
    if shape.None? then entry + [Unsupported(Pointer(path + ["actions", step.action]))]
    else
      var actions := Get(config, "actions");
      entry
      + (if actions.Dict? then [] else [AddOp(Pointer(path + ["actions"]), Dict(map[]))])
      + (if actions.Dict? && Get(actions.fields, step.action).Dict? then []
         else [AddOp(Pointer(path + ["actions", step.action]), Dict(HttpTemplate(shape.value)))])
  }

  /** `list(value or [])` for the values it accepts here. */
  function ArgsOf(v: Value): Option<seq<Value>> {
    if !Truthy(v) then Some([]) else if v.List? then Some(v.items) else None
  }

  function AllowlistEntry(action: string, shape: Mapping): Option<Value> {
    match ArgsOf(Get(shape, "args"))
    case None => None
    case Some(args) =>
      Some(Dict(map["action" := Str(action), "command" := Str(TextOr(Get(shape, "command"))), "args" := List(args)]))
  }

  predicate ListsAction(items: seq<Value>, action: string) {
    exists i :: 0 <= i < |items| && items[i].Dict? && TextOr(Get(items[i].fields, "action")) == action
  }

  /** `None` when the shape's arguments are not a list. */
  function CommandOps(step: Step, backend: string, contract: Mapping, config: Mapping, template: Option<Mapping>): Option<seq<Op>> {
    var path := ConnectorPath(step.connector);
    var entry := EntryOps(step.connector, backend, "allowlist", List([]), config);
    var declared := ShapeOf(contract, "command_shapes", step.action);
    var shape := if declared.Some? then declared else template;
    if shape.None? then Some(entry + [Unsupported(Pointer(path + ["allowlist"]))])
    else
      var allowlist := Get(config, "allowlist");
      var slot: seq<Op> := if allowlist.List? then [] else [AddOp(Pointer(path + ["allowlist"]), List([]))];
      if allowlist.List? && ListsAction(allowlist.items, step.action) then Some(entry + slot)
      else
        match AllowlistEntry(step.action, shape.value)
        case None => None
        case Some(v) => Some(entry + slot + [AddOp(Pointer(path + ["allowlist", "-"]), v)])
  }

  function ConfigOf(connectors: Mapping, connector: string): Mapping {
    var v := Get(connectors, connector);
    if v.Dict? then v.fields else map[]
  }

  function StepOps(step: Step, contract: Mapping, connectors: Mapping, template: Option<Mapping>): Option<seq<Op>> {
    var config := ConfigOf(connectors, step.connector);
    var backend := BackendClass(contract, config);
    if backend == "http_api" then Some(HttpOps(step, contract, config, template))
    else if IsCommand(backend) then CommandOps(step, backend, contract, config, template)
    else Some([Unsupported(Pointer(ConnectorPath(step.connector)))])
  }

  type Profile = string -> Mapping

  function OpsOf(profile: Profile, connectors: Mapping, template: Option<Mapping>): Step -> Option<seq<Op>> {
    (step: Step) => StepOps(step, profile(step.connector), connectors, template)
  }

  function Gathered(steps: seq<Step>, opsOf: Step -> Option<seq<Op>>): Option<seq<Op>> {
    if steps == [] then Some([])
    else
      match opsOf(steps[0])
      case None => None
      case Some(ops) => Extend(ops, Gathered(steps[1..], opsOf))
  }

  /** The whole patch: every step is judged against the environment as it is now. */
  function Configure(steps: seq<Step>, profile: Profile, connectors: Mapping, template: Option<Mapping>): Option<seq<Op>> {
    Gathered(steps, OpsOf(profile, connectors, template))
  }

  function Extend(ops: seq<Op>, rest: Option<seq<Op>>): Option<seq<Op>> {
    if rest.None? then None else Some(ops + rest.value)
  }

  lemma {:induction false} ExtendTwice(a: seq<Op>, b: seq<Op>, rest: Option<seq<Op>>)
    ensures Extend(a, Extend(b, rest)) == Extend(a + b, rest)
    ensures Extend([], rest) == rest && Extend(a, Some([])) == Some(a)
  {
    if rest.Some? { assert [] + rest.value == rest.value; }
    assert a + [] == a;
    if rest.Some? { assert a + (b + rest.value) == (a + b) + rest.value; }
  }

  /** The patch as the source builds it, one list extended step by step. */
  method Gather(steps: seq<Step>, opsOf: Step -> Option<seq<Op>>) returns (patch: Option<seq<Op>>)
    ensures patch == Gathered(steps, opsOf)
  {
    var operations: seq<Op> := [];
    assert steps[0..] == steps;
    ExtendTwice([], [], Gathered(steps, opsOf));
    for i := 0 to |steps|
      invariant Gathered(steps, opsOf) == Extend(operations, Gathered(steps[i..], opsOf))
    {
      var ops := opsOf(steps[i]);
      assert steps[i..][0] == steps[i] && steps[i..][1..] == steps[i + 1..];
      if ops.None? {
        return None;
      }
      ExtendTwice(operations, ops.value, Gathered(steps[i + 1..], opsOf));
      operations := operations + ops.value;
    }
    assert steps[|steps|..] == [];
    ExtendTwice(operations, [], None);
    patch := Some(operations);
  }

  method BuildPatch(steps: seq<Step>, profile: Profile, connectors: Mapping, template: Option<Mapping>)
    returns (patch: Option<seq<Op>>)
    ensures patch == Configure(steps, profile, connectors, template)
  {
    patch := Gather(steps, OpsOf(profile, connectors, template));
  }

  // ---------------------------------------------------------------- applying the patch

  function Apply(doc: Value, ops: seq<Op>): Option<Value>
    decreases |ops|
  {
    if ops == [] then Some(doc)
    else if ops[0].Unsupported? then None
    else
      match Add(doc, ops[0].path, ops[0].value)
      case None => None
      case Some(next) => Apply(next, ops[1..])
  }

  /** A document whose environment holds these connectors, beside whatever else it holds. */
  function Document(rest: Mapping, env: Mapping, connectors: Mapping): Value {
    Dict(rest["environment" := Dict(env["connectors" := Dict(connectors)])])
  }

  lemma {:induction false} ApplyConcat(doc: Value, a: seq<Op>, b: seq<Op>)
    ensures Apply(doc, a + b) == match Apply(doc, a) case None => None case Some(next) => Apply(next, b)
    decreases |a|
  {
    if a == [] {
      assert a + b == b;
    } else {
      assert (a + b)[0] == a[0] && (a + b)[1..] == a[1..] + b;
      if a[0].AddOp? && Add(doc, a[0].path, a[0].value).Some? {
        ApplyConcat(Add(doc, a[0].path, a[0].value).value, a[1..], b);
      }
    }
  }

  lemma {:induction false} AddLift(m: Mapping, key: string, names: seq<string>, v: Value, inner: Value)
    requires names != [] && key in m && AddAt(m[key], names, v) == Some(inner)
    ensures AddAt(Dict(m), [key] + names, v) == Some(Dict(m[key := inner]))
  {
    var tokens := [key] + names;
    assert tokens[0] == key && tokens[1..] == names;
  }

  /** An addition below a connector changes that connector only. */
  lemma {:induction false} AddBelow(rest: Mapping, env: Mapping, m: Mapping, names: seq<string>, v: Value, m': Mapping)
    requires names != [] && forall i :: 0 <= i < |names| ==> PlainName(names[i])
    requires AddAt(Dict(m), names, v) == Some(Dict(m'))
    ensures Add(Document(rest, env, m), Pointer(["environment", "connectors"] + names), v) == Some(Document(rest, env, m'))
  {
    var tokens := ["environment", "connectors"] + names;
    assert PlainName("environment") && PlainName("connectors");
    TokensOfPointer(tokens);
    var e, e' := env["connectors" := Dict(m)], env["connectors" := Dict(m')];
    AddLift(e, "connectors", names, v, Dict(m'));
    assert e["connectors" := Dict(m')] == e';
    var d := rest["environment" := Dict(e)];
    AddLift(d, "environment", ["connectors"] + names, v, Dict(e'));
    assert ["environment"] + (["connectors"] + names) == tokens;
    assert d["environment" := Dict(e')] == rest["environment" := Dict(e')];
  }

  // ---------------------------------------------------------------- diff

  datatype Check = Check(id: string, passed: bool)

  datatype Diff = Diff(checks: seq<Check>, drift: seq<string>)

  function Upper(s: string): string {
    if s == "" then ""
    else [if 'a' <= s[0] <= 'z' then s[0] - 'a' + 'A' else s[0]] + Upper(s[1..])
  }

  function TextDefault(v: Value, default: string): string {
    if Truthy(v) then TextOr(v) else default
  }

  function CanonicalPagination(v: Value, toInt: ToInt): Option<Value> {
    if !v.Dict? then Some(Dict(map[]))
    else
      match toInt(FirstTruthy(Get(v.fields, "max_pages"), Int(10)))
      case None => None
      case Some(n) =>
        Some(Dict(map["items_path" := Str(TextOr(Get(v.fields, "items_path"))),
                      "next_path" := Str(TextOr(Get(v.fields, "next_path"))), "max_pages" := Int(n)]))
  }

  /** The canonical shape of an HTTP action, or `None` when a number in it cannot be read. */
  function CanonicalShape(spec: Mapping, config: Mapping, toInt: ToInt): Option<Mapping> {
    var pagination := CanonicalPagination(Get(spec, "pagination"), toInt);
    var maxBytes := toInt(FirstTruthy(Get(spec, "max_response_bytes"),
                                      FirstTruthy(Get(config, "max_response_bytes"), Int(65536))));
    var query := Get(spec, "query");
    if pagination.None? || maxBytes.None? then None
    else
      Some(map["method" := Str(Upper(TextDefault(Get(spec, "method"), "GET"))),
               "path" := Str(TextDefault(Get(spec, "path"), "/")),
               "query" := if query.Dict? then query else Dict(map[]),
               "body" := Get(spec, "body"),
               "unwrap" := Str(TextOr(Get(spec, "unwrap"))),
               "pagination" := pagination.value,
               "mutating" := Bool(Truthy(Get(spec, "mutating"))),
               "max_response_bytes" := Int(maxBytes.value)])
  }

  const SHAPE_FIELDS: seq<string> :=
    ["body", "max_response_bytes", "method", "mutating", "pagination", "path", "query", "unwrap"]

  /** The fields, in order, on which two canonical shapes differ. */
  function Mismatched(expected: Mapping, actual: Mapping, fields: seq<string>): seq<string> {
    if fields == [] then []
    else
      (if Get(expected, fields[0]) != Get(actual, fields[0]) then [fields[0]] else [])
      + Mismatched(expected, actual, fields[1..])
  }

  function HttpDiff(step: Step, contract: Mapping, config: Mapping, toInt: ToInt): Option<Diff> {
    var shape := ShapeOf(contract, "action_shapes", step.action);
    var actions := Get(config, "actions");
    if shape.None? then Some(Diff([Check("profile_action_shape", false)], []))
    else if !actions.Dict? || !Get(actions.fields, step.action).Dict? then
      Some(Diff([Check("profile_action_shape", true), Check("action_configured", false)],
                ["connectors." + step.connector + ".actions." + step.action]))
    else
      var expected := CanonicalShape(shape.value, shape.value, toInt);
      var actual := CanonicalShape(Get(actions.fields, step.action).fields, config, toInt);
      if expected.None? || actual.None? then None
      else
        var mismatched := Mismatched(expected.value, actual.value, SHAPE_FIELDS);
        Some(Diff([Check("profile_action_shape", true), Check("action_configured", true),
                   Check("shape_match", mismatched == [])], mismatched))
  }

  /** The first allowlist entry that answers to the action. */
  function FindEntry(items: seq<Value>, action: string): Option<Mapping> {
    if items == [] then None
    else if items[0].Dict?
         && TextOr(FirstTruthy(Get(items[0].fields, "action"), Get(items[0].fields, "command"))) == action
    then Some(items[0].fields)
    else FindEntry(items[1..], action)
  }

  function CommandDiff(step: Step, contract: Mapping, config: Mapping): Option<Diff> {
    var shape := ShapeOf(contract, "command_shapes", step.action);
    var allowlist := Get(config, "allowlist");
    var place := ["connectors." + step.connector + ".allowlist"];
    if shape.None? then Some(Diff([Check("profile_command_shape", false)], []))
    else if !allowlist.List? then
      Some(Diff([Check("profile_command_shape", true), Check("allowlist_configured", false)], place))
    else
      match FindEntry(allowlist.items, step.action)
      case None => Some(Diff([Check("profile_command_shape", true), Check("allowlist_entry", false)], place))
      case Some(entry) =>
        var expected, actual := ArgsOf(Get(shape.value, "args")), ArgsOf(Get(entry, "args"));
        if expected.None? || actual.None? then None
        else
          var commandOk := Strip(TextOr(Get(entry, "command"))) == Strip(TextOr(Get(shape.value, "command")));
          var drift := if !commandOk then ["command"] else if actual != expected then ["args"] else [];
          Some(Diff([Check("profile_command_shape", true), Check("allowlist_entry", true),
                     Check("command_match", drift == [])], drift))
  }

  function FixtureDiff(step: Step, config: Mapping): Diff {
    var actions := Get(config, "actions");
    if actions.Dict? && Get(actions.fields, step.action).Dict?
    then Diff([Check("action_configured", true), Check("shape_match", true)], [])
    else Diff([Check("action_configured", false)], ["connectors." + step.connector + ".actions." + step.action])
  }

  function BackendDiff(step: Step, backend: string, contract: Mapping, config: Mapping, toInt: ToInt): Option<Diff> {
    if backend == "http_api" then HttpDiff(step, contract, config, toInt)
    else if IsCommand(backend) then CommandDiff(step, contract, config)
    else if backend == "static_fixture" then Some(FixtureDiff(step, config))
    else Some(Diff([Check("diff_support", false)], if backend == "" then ["backend"] else []))
  }

  /** `bool(config.get("enabled", True))`. */
  predicate Enabled(config: Mapping) {
    "enabled" in config ==> Truthy(config["enabled"])
  }

  function CompareStep(step: Step, contract: Mapping, config: Mapping, toInt: ToInt): Option<Diff> {
    var backend := BackendClass(contract, config);
    if contract == map[] then Some(Diff([Check("profile_contract", false)], []))
    else if config == map[] then
      Some(Diff([Check("profile_contract", true), Check("connector_configured", false)], []))
    else
      var expected := Strip(TextOr(Get(contract, "backend")));
      var backendOk := expected == "" || backend == expected;
      match BackendDiff(step, backend, contract, config, toInt)
      case None => None
      case Some(d) =>
        Some(Diff([Check("profile_contract", true), Check("connector_configured", true),
                   Check("connector_enabled", Enabled(config)), Check("backend_match", backendOk)] + d.checks,
                  (if Enabled(config) then [] else ["enabled"]) + (if backendOk then [] else ["backend"]) + d.drift))
  }

  datatype Status = Aligned | Drifted | Incomplete | UnsupportedBackend

  predicate Fails(checks: seq<Check>, ids: set<string>) {
    exists i :: 0 <= i < |checks| && checks[i].id in ids && !checks[i].passed
  }

  function StepStatus(checks: seq<Check>): Status {
    if Fails(checks, {"diff_support"}) then UnsupportedBackend
    else if Fails(checks, {"connector_configured"}) then Incomplete
    else if Fails(checks, {"action_configured", "allowlist_configured", "allowlist_entry"}) then Incomplete
    else if exists i :: 0 <= i < |checks| && !checks[i].passed then Drifted
    else Aligned
  }
}
